/**
 * What the legacy managers of the WeeRT server share: how a call ends, the default
 * collection options, and the clone of a posted packet that renames its `timestamp` to the
 * `_id` it is stored under.
 *
 * The legacy managers report through Node-style callbacks. Several of them call helpers of
 * the server's `dbtools` module that it does not export; such a call throws a TypeError, and
 * the model stops there.
 */
module LegacyCommon {
  import opened Wrappers
  import opened JsValue
  import DbTools

  /**
   * How a call of a legacy manager ends: its callback is called with an error or a result,
   * or the call throws.
   */
  datatype Outcome = Called(result: Result<JsVal, JsVal>) | Thrown(error: Props)

  /** The options a manager falls back on: a capped collection of at most 3600 documents. */
  const DefaultOptions: JsVal :=
    Obj(map["collection" := Obj(map["capped" := Bool(true), "size" := Num(Finite(1000000.0)), "max" := Num(Finite(3600.0))])])

  /** `options || {collection: {...}}`: any falsy options are replaced by the default. */
  function ManagerOptions(options: JsVal): (o: JsVal)
    ensures Truthy(o)
    ensures Truthy(options) ==> o == options
    ensures !Truthy(options) ==> o == DefaultOptions
  {
    if Truthy(options) then options else DefaultOptions
  }

  /**
   * `self.options.collection`: the collection options of the manager's options. A value that
   * is not an object has no such property.
   */
  function CollectionOptions(managerOptions: JsVal): (c: JsVal)
    ensures managerOptions.Obj? ==> c == Get(managerOptions.props, "collection")
    ensures !managerOptions.Obj? ==> c.Undefined?
  {
    match managerOptions
    case Obj(p) => Get(p, "collection")
    case _ => Undefined
  }

  /** Without options, collections are created capped at 3600 documents and 1000000 bytes. */
  lemma DefaultCollectionOptions()
    ensures CollectionOptions(ManagerOptions(Undefined))
         == Obj(map["capped" := Bool(true), "size" := Num(Finite(1000000.0)), "max" := Num(Finite(3600.0))])
  {
  }

  /** A name `prefix + id + suffix` determines the id: distinct ids get distinct collections. */
  lemma AffixInjective(prefix: string, a: string, b: string, suffix: string)
    requires prefix + a + suffix == prefix + b + suffix
    ensures a == b
  {
    var n := prefix + a + suffix;
    assert |a| == |b|;
    assert n[|prefix|..|prefix| + |a|] == a;
    assert (prefix + b + suffix)[|prefix|..|prefix| + |b|] == b;
  }

  // ---------------------------------------------------------------------------
  // The packet clone
  // ---------------------------------------------------------------------------

  /**
   * The clone built by visiting the keys `keys` in order: `timestamp` is written as `_id`
   * holding `new Date(timestamp)`, keys in `skip` are left out, and every other key is copied.
   * A later write to the same key replaces an earlier one.
   */
  function Cloned(src: Props, keys: seq<string>, skip: set<string>): Props {
    if keys == [] then map[]
    else
      var c := Cloned(src, keys[..|keys| - 1], skip);
      var k := keys[|keys| - 1];
      if k !in src then c
      else if k == "timestamp" then c["_id" := NewDate(src[k])]
      else if k in skip then c
      else c[k := src[k]]
  }

  /**
   * The clone loop of the legacy `insertOne`s: for each own key of the packet, in the order
   * `for-in` visits them, the clone gets the renamed, skipped or copied entry.
   */
  method CloneForStorage(src: Props, order: seq<string>, skip: set<string>) returns (packet: Props)
    requires IsEnumeration(order, src.Keys)
    ensures packet == Cloned(src, order, skip)
  {
    packet := map[];
    for i := 0 to |order|
      invariant packet == Cloned(src, order[..i], skip)
    {
      var k := order[i];
      assert order[..i + 1][..i] == order[..i];
      if k == "timestamp" {
        packet := packet["_id" := NewDate(src[k])];
      } else if k !in skip {
        packet := packet[k := src[k]];
      }
    }
    assert order[..|order|] == order;
  }

  /**
   * When the packet does not carry both `timestamp` and `_id`, the clone of the keys visited
   * holds exactly: the visited keys other than `timestamp` and the skipped ones, copied, and
   * `_id` as the Date of `timestamp` once `timestamp` has been visited.
   */
  lemma {:induction false} ClonedContents(src: Props, keys: seq<string>, skip: set<string>)
    requires "_id" !in src || "timestamp" !in src
    requires "_id" !in skip
    ensures var c := Cloned(src, keys, skip);
      forall k :: k in c <==>
        (k in src && k in keys && k !in skip && k != "timestamp") || (k == "_id" && "timestamp" in src && "timestamp" in keys)
    ensures var c := Cloned(src, keys, skip);
      forall k :: k in c ==>
        c[k] == if k == "_id" && "timestamp" in src && "timestamp" in keys then NewDate(src["timestamp"]) else src[k]
  {
    if keys != [] {
      var init := keys[..|keys| - 1];
      ClonedContents(src, init, skip);
      assert forall k :: k in keys <==> k in init || k == keys[|keys| - 1] by {
        assert keys == init + [keys[|keys| - 1]];
      }
    }
  }

  /** The clone as a whole: the packet with `timestamp` renamed to `_id` and `skip` left out. */
  function StoredClone(src: Props, skip: set<string>): (c: Props)
    ensures "timestamp" in src ==> "_id" in c && c["_id"] == NewDate(src["timestamp"])
    ensures forall k :: k in src && k !in skip && k != "timestamp" && k != "_id" ==> k in c && c[k] == src[k]
    ensures forall k :: k in c ==> (k in src && k !in skip && k != "timestamp") || k == "_id"
  {
    var kept := map k | k in src && k !in skip && k != "timestamp" :: src[k];
    if "timestamp" in src then kept["_id" := NewDate(src["timestamp"])] else kept
  }

  /**
   * Whatever order `for-in` visits the keys in, the clone of a packet that does not carry both
   * `timestamp` and `_id` is its stored clone.
   */
  lemma ClonedIsStoredClone(src: Props, order: seq<string>, skip: set<string>)
    requires IsEnumeration(order, src.Keys)
    requires "_id" !in src || "timestamp" !in src
    requires "_id" !in skip
    ensures Cloned(src, order, skip) == StoredClone(src, skip)
  {
    ClonedContents(src, order, skip);
    var c := Cloned(src, order, skip);
    var s := StoredClone(src, skip);
    assert c.Keys == s.Keys;
    assert forall k :: k in c ==> c[k] == s[k];
  }

  /**
   * A packet with a timestamp and no `_id`, cloned with nothing skipped, is stored just as the
   * current stream service stores it.
   */
  lemma StoredCloneIsStoredForm(src: Props)
    requires "timestamp" in src && "_id" !in src
    ensures StoredClone(src, {}) == DbTools.StoredForm(src)
  {
    var c := StoredClone(src, {});
    var s := DbTools.StoredForm(src);
    assert c.Keys == s.Keys;
  }

  /**
   * A packet that carries both `timestamp` and `_id` clones differently depending on which
   * key `for-in` visits last.
   */
  lemma ClonedDependsOnOrder()
    ensures var src := map["timestamp" := Num(Finite(5.0)), "_id" := Num(Finite(7.0))];
      Cloned(src, ["_id", "timestamp"], {})["_id"] == Date(Finite(5.0))
      && Cloned(src, ["timestamp", "_id"], {})["_id"] == Num(Finite(7.0))
  {
    var src := map["timestamp" := Num(Finite(5.0)), "_id" := Num(Finite(7.0))];
    assert ["_id", "timestamp"][..1] == ["_id"];
    assert ["timestamp", "_id"][..1] == ["timestamp"];
    assert TimeClip(Finite(5.0)) == Finite(5.0);
  }

  // ---------------------------------------------------------------------------
  // The sort rename of `find`
  // ---------------------------------------------------------------------------

  /**
   * The sort specification after `find`'s rename: a defined `_id` key is replaced by a
   * `timestamp` key with the same direction.
   */
  function SortRenamed(sort: Props): (s: Props)
    ensures Get(sort, "_id").Undefined? ==> s == sort
    ensures !Get(sort, "_id").Undefined? ==>
      && s.Keys == sort.Keys - {"_id"} + {"timestamp"}
      && s["timestamp"] == sort["_id"]
      && forall k :: k in sort && k != "_id" && k != "timestamp" ==> s[k] == sort[k]
  {
    if Get(sort, "_id").Undefined? then sort else (sort - {"_id"})["timestamp" := sort["_id"]]
  }

  /** The rename leaves no defined `_id` behind, so doing it again changes nothing. */
  lemma SortRenamedIdempotent(sort: Props)
    ensures Get(SortRenamed(sort), "_id").Undefined?
    ensures SortRenamed(SortRenamed(sort)) == SortRenamed(sort)
  {
  }

  /**
   * `if (options.sort !== undefined && options.sort._id !== undefined) {...}`: the caller's
   * sort object, when there is one, is renamed in place.
   */
  method RenameSortKey(sort: Option<JsObject>)
    modifies if sort.Some? then {sort.value} else {}
    ensures sort.Some? ==> sort.value.props == SortRenamed(old(sort.value.props))
  {
    if sort.Some? && !Get(sort.value.props, "_id").Undefined? {
      var direction := sort.value.props["_id"];
      sort.value.props := sort.value.props["timestamp" := direction];
      sort.value.props := sort.value.props - {"_id"};
    }
  }
}

/** The legacy `StreamsManager` (server/streams.js). */
module LegacyStreams {
  import opened Wrappers
  import opened JsValue
  import opened LegacyCommon

  /** `_getPacketCollectionName(streamID)`. */
  function PacketCollectionName(streamId: string): (name: string)
    ensures |name| == |streamId| + 16
    ensures name[..8] == "streams_" && name[8..|name| - 8] == streamId && name[|name| - 8..] == "_packets"
  {
    "streams_" + streamId + "_packets"
  }

  /** Distinct streams keep their packets in distinct collections. */
  lemma PacketCollectionNameInjective(a: string, b: string)
    requires PacketCollectionName(a) == PacketCollectionName(b)
    ensures a == b
  {
    AffixInjective("streams_", a, b, "_packets");
  }

  /**
   * `insertOne(streamID, in_packet, callback)`: a missing stream id is reported at once;
   * otherwise the clone of the packet is inserted into the stream's packet collection,
   * created first if need be with the collection options of the manager's `options` (the
   * manager's own, already defaulted by `ManagerOptions`).
   */
  method InsertOne(options: JsVal, streamId: Option<string>, inPacket: Props, order: seq<string>,
                   createCollection: (string, JsVal) -> Option<JsVal>, insert: (string, Props) -> Result<JsVal, JsVal>)
    returns (r: Outcome)
    requires IsEnumeration(order, inPacket.Keys)
    ensures streamId.None? ==> r == Called(Failure(Str("Missing stream ID")))
    ensures streamId.Some? && createCollection(PacketCollectionName(streamId.value), CollectionOptions(options)).Some? ==>
      r == Called(Failure(createCollection(PacketCollectionName(streamId.value), CollectionOptions(options)).value))
    ensures streamId.Some? && createCollection(PacketCollectionName(streamId.value), CollectionOptions(options)).None? ==>
      r == Called(insert(PacketCollectionName(streamId.value), Cloned(inPacket, order, {})))
  {
    if streamId.None? {
      return Called(Failure(Str("Missing stream ID")));
    }
    var packet := CloneForStorage(inPacket, order, {});
    var name := PacketCollectionName(streamId.value);
    var err := createCollection(name, CollectionOptions(options));
    if err.Some? {
      return Called(Failure(err.value));
    }
    return Called(insert(name, packet));
  }

  /** The loop that copies the caller's options: the copy has every own key and value. */
  method CopyOptions(options: Props, order: seq<string>) returns (copy: Props)
    requires IsEnumeration(order, options.Keys)
    ensures copy == options
  {
    copy := map[];
    for i := 0 to |order|
      invariant copy.Keys == set j | 0 <= j < i :: order[j]
      invariant forall k :: k in copy ==> k in options && copy[k] == options[k]
    {
      copy := copy[order[i] := options[order[i]]];
    }
    assert forall k :: k in options ==> k in copy by {
      forall k | k in options
        ensures k in copy
      {
        var j :| 0 <= j < |order| && order[j] == k;
      }
    }
  }

  /**
   * `find(streamID, options, callback)`: after the options are copied (`CopyOptions`, a copy
   * no caller ever sees), the call throws, as `dbtools.getSortSpec` does not exist. The
   * callback is never called and no collection is opened.
   */
  function Find(streamId: string, options: Props): (r: Outcome)
    ensures r.Thrown? && Get(r.error, "name") == Str("TypeError")
    ensures Get(r.error, "message") == Str("dbtools.getSortSpec" + " is not a function")
  {
    Thrown(NotAFunction("dbtools.getSortSpec"))
  }
}

/** The legacy `PacketsManager` (server/packets.js). */
module LegacyPackets {
  import opened Wrappers
  import opened JsValue
  import opened LegacyCommon

  /** `"packets_" + streamID`, the collection of every call. */
  function PacketCollectionName(streamId: string): (name: string)
    ensures |name| == |streamId| + 8 && name[..8] == "packets_" && name[8..] == streamId
  {
    "packets_" + streamId
  }

  /**
   * `insertOne(streamID, in_packet, callback)`: a missing stream id is reported at once;
   * otherwise the clone is built (and handed back here as `document`) and the call throws, as
   * `dbtools.createCollection` does not exist.
   */
  method InsertOne(streamId: Option<string>, inPacket: Props, order: seq<string>)
    returns (r: Outcome, document: Option<Props>)
    requires IsEnumeration(order, inPacket.Keys)
    ensures streamId.None? ==> r == Called(Failure(Str("Missing stream ID"))) && document.None?
    ensures streamId.Some? ==>
      r == Thrown(NotAFunction("dbtools.createCollection")) && document == Some(Cloned(inPacket, order, {}))
  {
    if streamId.None? {
      return Called(Failure(Str("Missing stream ID"))), None;
    }
    var packet := CloneForStorage(inPacket, order, {});
    return Thrown(NotAFunction("dbtools.createCollection")), Some(packet);
  }

  /**
   * `find(streamID, options, callback)`: the caller's sort object is renamed in place, then
   * the packet collection is opened in strict mode; its error is reported, and otherwise the
   * call to the missing `dbtools.find` throws.
   */
  method Find(streamId: string, sort: Option<JsObject>, openError: Option<JsVal>) returns (r: Outcome)
    modifies if sort.Some? then {sort.value} else {}
    ensures sort.Some? ==> sort.value.props == SortRenamed(old(sort.value.props))
    ensures openError.Some? ==> r == Called(Failure(openError.value))
    ensures openError.None? ==> r == Thrown(NotAFunction("dbtools.find"))
  {
    RenameSortKey(sort);
    if openError.Some? {
      return Called(Failure(openError.value));
    }
    return Thrown(NotAFunction("dbtools.find"));
  }
}

/** The legacy `LoopManager` (server/loop.js). */
module LegacyLoop {
  import opened Wrappers
  import opened JsValue
  import opened LegacyCommon

  /** `"loop_" + instrument`. */
  function LoopCollectionName(instrument: string): (name: string)
    ensures |name| == |instrument| + 5 && name[..5] == "loop_" && name[5..] == instrument
  {
    "loop_" + instrument
  }

  /**
   * `insertOne(in_packet, callback)`: a packet without an instrument is reported at once;
   * otherwise the clone, which leaves the instrument out, is built (handed back here as
   * `document`) and the call throws, as `dbtools.createCollection` does not exist.
   */
  method InsertOne(inPacket: Props, order: seq<string>) returns (r: Outcome, document: Option<Props>)
    requires IsEnumeration(order, inPacket.Keys)
    ensures Get(inPacket, "instrument").Undefined? ==> r == Called(Failure(Str("Missing instrument ID"))) && document.None?
    ensures !Get(inPacket, "instrument").Undefined? ==>
      r == Thrown(NotAFunction("dbtools.createCollection")) && document == Some(Cloned(inPacket, order, {"instrument"}))
  {
    if Get(inPacket, "instrument").Undefined? {
      return Called(Failure(Str("Missing instrument ID"))), None;
    }
    var packet := CloneForStorage(inPacket, order, {"instrument"});
    return Thrown(NotAFunction("dbtools.createCollection")), Some(packet);
  }

  /** The loop packet's clone never carries the instrument, and carries every other field. */
  lemma LoopCloneDropsInstrument(inPacket: Props, order: seq<string>)
    requires IsEnumeration(order, inPacket.Keys) && "_id" !in inPacket
    ensures "instrument" !in Cloned(inPacket, order, {"instrument"})
    ensures forall k :: k in inPacket && k != "instrument" && k != "timestamp" ==>
      k in Cloned(inPacket, order, {"instrument"}) && Cloned(inPacket, order, {"instrument"})[k] == inPacket[k]
  {
    ClonedIsStoredClone(inPacket, order, {"instrument"});
  }

  /**
   * `find(instrument, options, callback)`: the caller's sort object is renamed in place, then
   * the loop collection is opened in strict mode; its error is reported, and otherwise the
   * call to the missing `dbtools.find` throws.
   */
  method Find(instrument: string, sort: Option<JsObject>, openError: Option<JsVal>) returns (r: Outcome)
    modifies if sort.Some? then {sort.value} else {}
    ensures sort.Some? ==> sort.value.props == SortRenamed(old(sort.value.props))
    ensures openError.Some? ==> r == Called(Failure(openError.value))
    ensures openError.None? ==> r == Thrown(NotAFunction("dbtools.find"))
  {
    RenameSortKey(sort);
    if openError.Some? {
      return Called(Failure(openError.value));
    }
    return Thrown(NotAFunction("dbtools.find"));
  }
}

/** The legacy `PlatformsManager` (server/platforms.js). */
module LegacyPlatforms {
  import opened Wrappers
  import opened JsValue
  import opened LegacyCommon
  import PlatformService

  /** `_getLocationsCollectionName(platformID)`. */
  function LocationsCollectionName(platformId: string): (name: string)
    ensures |name| == |platformId| + 20
    ensures name[..10] == "platforms_" && name[10..|name| - 10] == platformId && name[|name| - 10..] == "_locations"
  {
    "platforms_" + platformId + "_locations"
  }

  /** Distinct platforms keep their locations in distinct collections. */
  lemma LocationsCollectionNameInjective(a: string, b: string)
    requires LocationsCollectionName(a) == LocationsCollectionName(b)
    ensures a == b
  {
    AffixInjective("platforms_", a, b, "_locations");
  }

  /** The TypeError of reading `result.ops` when a failed insert gives no result. */
  const OpsOfUndefined: Props := ErrorObject("TypeError", "Cannot read property 'ops' of undefined")

  /**
   * `createPlatform(platform_metadata, callback)`: the caller's metadata gets its default
   * streams list in place, with no check on `_id`; the metadata collection's error is
   * reported, a failed insert leaves no result, so reading its `ops` throws, and otherwise
   * the stored metadata is reported.
   */
  method CreatePlatform(metadata: JsObject, openError: Option<JsVal>, insert: Props -> Result<Props, JsVal>)
    returns (r: Outcome)
    modifies metadata
    ensures metadata.props == PlatformService.WithStreams(old(metadata.props))
    ensures openError.Some? ==> r == Called(Failure(openError.value))
    ensures openError.None? ==>
      match insert(metadata.props)
      case Failure(_) => r == Thrown(OpsOfUndefined)
      case Success(stored) => r == Called(Success(Obj(stored)))
  {
    if Get(metadata.props, "streams").Undefined? {
      metadata.props := metadata.props["streams" := Arr([])];
    }
    if openError.Some? {
      return Called(Failure(openError.value));
    }
    var result := insert(metadata.props);
    if result.Failure? {
      return Thrown(OpsOfUndefined);
    }
    return Called(Success(Obj(result.value)));
  }

  /**
   * The limit rule `findPlatforms` would apply to its options: absent is 0, anything else is
   * converted with `+` and must be an integer; the offending number is reported otherwise.
   */
  function LimitOption(limit: JsVal): (r: Result<int, JsNumber>)
    ensures limit.Undefined? ==> r == Success(0)
    ensures !limit.Undefined? ==>
      (r.Success? <==> IsIntegral(ToNumber(limit)))
      && (r.Success? ==> r.value as real == ToNumber(limit).value)
      && (r.Failure? ==> r.error == ToNumber(limit))
  {
    if limit.Undefined? then Success(0)
    else
      var n := ToNumber(limit);
      if IsIntegral(n) then Success(IntegralValue(n)) else Failure(n)
  }

  /** A limit written as a decimal integer in the query string is read back as that integer. */
  lemma LimitOptionRoundTrip(n: int)
    ensures LimitOption(Str(IntToString(n))) == Success(n)
  {
    IntToStringToNumber(n);
  }

  /**
   * `findPlatforms(options, callback)` as written: the call to the missing `dbtools.getOptions`
   * throws before the limit rule is reached.
   */
  function FindPlatforms(options: Props): (r: Outcome)
    ensures r.Thrown? && Get(r.error, "name") == Str("TypeError")
    ensures Get(r.error, "message") == Str("dbtools.getOptions" + " is not a function")
  {
    Thrown(NotAFunction("dbtools.getOptions"))
  }

  /**
   * `findPlatform(platformID, callback)`: the metadata collection's error is reported; an id
   * that is not an ObjectID makes the driver throw, and that exception is reported too;
   * otherwise the matching platforms are reported.
   */
  function FindPlatform(openError: Option<JsVal>, idError: Option<Props>, found: Result<JsVal, JsVal>): (r: Outcome)
    ensures r.Called?
    ensures openError.Some? ==> r.result == Failure(openError.value)
    ensures openError.None? && idError.Some? ==> r.result == Failure(Obj(idError.value))
    ensures openError.None? && idError.None? ==> r.result == found
  {
    if openError.Some? then Called(Failure(openError.value))
    else if idError.Some? then Called(Failure(Obj(idError.value)))
    else Called(found)
  }
}
