/**
 * The stream service of the WeeRT server: the checks `createStream`, `insertOnePacket` and
 * `deleteOnePacket` make before they reach MongoDB, and the renaming of a packet's
 * `timestamp` to the `_id` it is stored under and back again.
 *
 * The database is given as parameters: the error a collection fails to open with, if any,
 * and what an insert, a delete or a collection creation gives back. When an insert of a
 * packet resolves, the driver's `result.ops[0]` is the very document that was inserted, so
 * the service's renaming of it changes the caller's packet once more.
 *
 * As written, the factory that builds these functions throws before it gets to them
 * (`StreamManagerFactoryThrows`); they are modelled as the factory would build them once the
 * collection helper it calls exists.
 */
module StreamService {
  import opened Wrappers
  import opened JsValue
  import DbTools

  // ---------------------------------------------------------------------------
  // The factory
  // ---------------------------------------------------------------------------

  /** The names `server/dbtools.js` exports. */
  const DbToolsExports: set<string> := {"findByTimestamp", "findOneByTimestamp"}

  /**
   * How `StreamManagerFactory(connectPromise, options)` ends: it builds the manager whose
   * functions are modelled below, or it throws.
   */
  datatype Factory = Built | Threw(error: Props)

  /**
   * `StreamManagerFactory` against a `dbtools` module exporting `exports`: its first statement
   * calls `dbtools.promiseACollection`, so it throws unless that name is exported.
   */
  function StreamManagerFactory(exports: set<string>): (f: Factory)
    ensures f.Built? <==> "promiseACollection" in exports
    ensures f.Threw? ==> f.error == NotAFunction("dbtools.promiseACollection")
  {
    if "promiseACollection" in exports then Built else Threw(NotAFunction("dbtools.promiseACollection"))
  }

  /**
   * As written, the factory throws a TypeError at its first statement, so `createStream`,
   * `insertOnePacket` and `deleteOnePacket` are never created.
   */
  lemma StreamManagerFactoryThrows()
    ensures StreamManagerFactory(DbToolsExports) == Threw(NotAFunction("dbtools.promiseACollection"))
  {
    assert "promiseACollection" !in DbToolsExports;
  }

  /** With the collection helper it calls, the factory builds the manager modelled below. */
  lemma StreamManagerFactoryCorrectedBuilds()
    ensures StreamManagerFactory(DbToolsExports + {"promiseACollection"}) == Built
  {
  }

  // ---------------------------------------------------------------------------
  // createStream
  // ---------------------------------------------------------------------------

  /**
   * The checks `createStream` makes, in order, before touching the database: the metadata
   * must not carry an `_id` (MongoDB assigns one) and must carry a non-empty `unit_group`.
   */
  function StreamMetadataCheck(metadata: Props): (err: Option<Props>)
    ensures err.None? <==> Get(metadata, "_id").Undefined? && Truthy(Get(metadata, "unit_group"))
    ensures !Get(metadata, "_id").Undefined? ==> err == Some(PlainError("Field _id is already defined"))
    ensures Get(metadata, "_id").Undefined? && !Truthy(Get(metadata, "unit_group")) ==>
      err == Some(PlainError("Missing unit_group"))
  {
    if !Get(metadata, "_id").Undefined? then Some(PlainError("Field _id is already defined"))
    else if !Truthy(Get(metadata, "unit_group")) then Some(PlainError("Missing unit_group"))
    else None
  }

  /**
   * `createStream(metadata)`: after the checks, the metadata collection is opened, the
   * metadata inserted (the driver gives back the stored document, with its new `_id`), and the
   * collection that will hold the stream's packets created under that `_id`. The promise
   * resolves with the stored metadata.
   */
  function CreateStream(metadata: Props, openError: Option<Props>, insert: Props -> Result<Props, Props>,
                        createCollection: JsVal -> Option<Props>): (r: Result<Props, Props>)
    ensures StreamMetadataCheck(metadata).Some? ==> r == Failure(StreamMetadataCheck(metadata).value)
    ensures r.Success? ==>
      && StreamMetadataCheck(metadata).None?
      && openError.None?
      && insert(metadata) == Success(r.value)
      && createCollection(Get(r.value, "_id")).None?
    ensures StreamMetadataCheck(metadata).None? && openError.None? && insert(metadata).Success? ==>
      (r.Success? <==> createCollection(Get(insert(metadata).value, "_id")).None?)
    ensures StreamMetadataCheck(metadata).None? && openError.Some? ==> r == Failure(openError.value)
    ensures StreamMetadataCheck(metadata).None? && openError.None? && insert(metadata).Failure? ==>
      r == Failure(insert(metadata).error)
    ensures StreamMetadataCheck(metadata).None? && openError.None? && insert(metadata).Success? ==>
      var stored := insert(metadata).value;
      && (createCollection(Get(stored, "_id")).Some? ==> r == Failure(createCollection(Get(stored, "_id")).value))
      && (createCollection(Get(stored, "_id")).None? ==> r == Success(stored))
  {
    match StreamMetadataCheck(metadata)
    case Some(err) => Failure(err)
    case None =>
      if openError.Some? then Failure(openError.value)
      else
        var stored :- insert(metadata);
        match createCollection(Get(stored, "_id"))
        case Some(err) => Failure(err)
        case None => Success(stored)
  }

  /** Metadata that fails the checks is rejected whatever the database would have done. */
  lemma CreateStreamChecksFirst(metadata: Props,
                                open1: Option<Props>, insert1: Props -> Result<Props, Props>, create1: JsVal -> Option<Props>,
                                open2: Option<Props>, insert2: Props -> Result<Props, Props>, create2: JsVal -> Option<Props>)
    requires StreamMetadataCheck(metadata).Some?
    ensures CreateStream(metadata, open1, insert1, create1) == CreateStream(metadata, open2, insert2, create2)
    ensures CreateStream(metadata, open1, insert1, create1).Failure?
  {
  }

  /** A stream without a unit group is never created, even with the database fully working. */
  lemma CreateStreamRequiresUnitGroup(metadata: Props, insert: Props -> Result<Props, Props>, createCollection: JsVal -> Option<Props>)
    requires "unit_group" !in metadata
    ensures CreateStream(metadata, None, insert, createCollection).Failure?
  {
  }

  // ---------------------------------------------------------------------------
  // insertOnePacket
  // ---------------------------------------------------------------------------

  /** The checks `insertOnePacket` makes, in order: a timestamp is required, an `_id` refused. */
  function PacketCheck(packet: Props): (err: Option<Props>)
    ensures err.None? <==> !Get(packet, "timestamp").Undefined? && Get(packet, "_id").Undefined?
    ensures Get(packet, "timestamp").Undefined? ==> err == Some(PlainError("No timestamp in packet"))
    ensures !Get(packet, "timestamp").Undefined? && !Get(packet, "_id").Undefined? ==>
      err == Some(PlainError("Field _id is already defined"))
  {
    if Get(packet, "timestamp").Undefined? then Some(PlainError("No timestamp in packet"))
    else if !Get(packet, "_id").Undefined? then Some(PlainError("Field _id is already defined"))
    else None
  }

  /** The `NoSuchIDError` raised when the stream's packet collection cannot be opened. */
  function NoSuchStream(streamId: string): (e: Props)
    ensures Get(e, "name") == Str("NoSuchIDError")
    ensures Get(e, "message") == Str("Non existent stream " + streamId)
  {
    ErrorObject("NoSuchIDError", "Non existent stream " + streamId)
  }

  /**
   * What `insertOnePacket(streamID, packet)` settles with: a rejection from the checks, a
   * `NoSuchIDError` when the packet collection does not open, the driver's error when the
   * insert fails, and otherwise the stored document turned back into a packet. The insert
   * gives back the error it fails with, if any.
   */
  function InsertedPacket(streamId: string, packet: Props, available: bool, insert: Props -> Option<Props>): (r: Result<Props, Props>)
    ensures PacketCheck(packet).Some? ==> r == Failure(PacketCheck(packet).value)
    ensures PacketCheck(packet).None? && !available ==> r == Failure(NoSuchStream(streamId))
    ensures PacketCheck(packet).None? && available ==>
      (r.Success? <==> insert(DbTools.StoredForm(packet)).None?)
      && (r.Failure? ==> r.error == insert(DbTools.StoredForm(packet)).value)
    ensures r.Success? ==>
      && r.value.Keys == packet.Keys - {"_id"}
      && r.value["timestamp"] == Num(NewDate(packet["timestamp"]).time)
      && forall k :: k in packet && k != "timestamp" && k != "_id" ==> r.value[k] == packet[k]
  {
    match PacketCheck(packet)
    case Some(err) => Failure(err)
    case None =>
      if !available then Failure(NoSuchStream(streamId))
      else
        var stored := DbTools.StoredForm(packet);
        match insert(stored)
        case Some(err) => Failure(err)
        case None => Success(DbTools.ApiForm(stored).value)
  }

  /**
   * `insertOnePacket(streamID, packet)`. Once the checks pass, the caller's packet is renamed
   * in place to its stored form; a successful insert renames the same object back, and the
   * promise resolves with it.
   */
  method InsertOnePacket(streamId: string, packet: JsObject, available: bool, insert: Props -> Option<Props>)
    returns (r: Result<Props, Props>)
    modifies packet
    ensures r == InsertedPacket(streamId, old(packet.props), available, insert)
    ensures PacketCheck(old(packet.props)).Some? ==> packet.props == old(packet.props)
    ensures PacketCheck(old(packet.props)).None? && r.Failure? ==> packet.props == DbTools.StoredForm(old(packet.props))
    ensures r.Success? ==> packet.props == r.value
  {
    var check := PacketCheck(packet.props);
    if check.Some? {
      return Failure(check.value);
    }
    packet.props := DbTools.StoredForm(packet.props);
    if !available {
      return Failure(NoSuchStream(streamId));
    }
    var err := insert(packet.props);
    if err.Some? {
      return Failure(err.value);
    }
    // `result.ops[0]` is the inserted document itself: the caller's packet
    var restored := DbTools.ApiForm(packet.props);
    packet.props := restored.value;
    return Success(packet.props);
  }

  /**
   * A packet whose timestamp is an integer in the Date range, and which has no `_id`, comes
   * back from a successful insert exactly as it was posted.
   */
  lemma InsertedPacketRoundTrip(streamId: string, packet: Props, insert: Props -> Option<Props>)
    requires "timestamp" in packet && IsTimeValue(packet["timestamp"]) && "_id" !in packet
    requires insert(DbTools.StoredForm(packet)).None?
    ensures InsertedPacket(streamId, packet, true, insert) == Success(packet)
  {
    DbTools.StoredFormRoundTrip(packet);
  }

  // ---------------------------------------------------------------------------
  // deleteOnePacket
  // ---------------------------------------------------------------------------

  /** The `_id` that `deleteOnePacket` deletes: `new Date(+dbQuery.timestamp)`. */
  function DeleteFilter(timestamp: JsVal): (id: JsVal)
    ensures id.Date?
    ensures IsTimeValue(Num(ToNumber(timestamp))) ==> id == Date(ToNumber(timestamp))
  {
    NewDate(Num(ToNumber(timestamp)))
  }

  /**
   * `deleteOnePacket(streamID, dbQuery)`: the packet collection is opened strictly (its error
   * rejects), then the packet whose `_id` is the Date of the query's timestamp is deleted.
   */
  function DeleteOnePacket(query: Props, openError: Option<Props>, deleteOne: JsVal -> Result<Props, Props>): (r: Result<Props, Props>)
    ensures openError.Some? ==> r == Failure(openError.value)
    ensures openError.None? ==> r == deleteOne(DeleteFilter(Get(query, "timestamp")))
  {
    if openError.Some? then Failure(openError.value)
    else deleteOne(DeleteFilter(Get(query, "timestamp")))
  }

  /**
   * The timestamp of a stored packet, written in a URL as a decimal integer, selects exactly
   * the `_id` the packet was stored under.
   */
  lemma DeleteTargetsStoredPacket(packet: Props, t: int)
    requires "timestamp" in packet && packet["timestamp"] == Num(Finite(t as real)) && IsTimeValue(packet["timestamp"])
    ensures DeleteFilter(Str(IntToString(t))) == DbTools.StoredForm(packet)["_id"]
  {
    var n := Finite(t as real);
    ToNumberOfIntString(t);
    assert DeleteFilter(Str(IntToString(t))) == Date(n);
    assert NewDate(packet["timestamp"]) == Date(TimeClip(n));
  }

  /** A query without a timestamp targets the invalid date, which no stored packet has as `_id`. */
  lemma DeleteWithoutTimestampMatchesNothing(packet: Props)
    requires "timestamp" in packet && IsTimeValue(packet["timestamp"])
    ensures DeleteFilter(Undefined) == Date(NaN)
    ensures DbTools.StoredForm(packet)["_id"] != DeleteFilter(Undefined)
  {
  }
}
