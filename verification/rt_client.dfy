/**
 * The WeeRT real-time client's packet buffer: the window of history it asks the server for
 * at start-up, and the `dataset` array that each new packet of the monitored stream is
 * appended to and trimmed of packets that have grown too old.
 *
 * The clock is a parameter; the charts, the console template and the wind compass the
 * client redraws are not part of this model.
 */
module RtClient {
  import opened Wrappers
  import opened JsValue
  import DbTools

  /** How much history, in seconds, the client asks for at start-up. */
  const MaxInitialAgeSecs: int := 1200
  /** How old, in seconds, a packet may grow before it is dropped from the buffer. */
  const MaxAgeSecs: int := 3600

  // ---------------------------------------------------------------------------
  // getInitialData
  // ---------------------------------------------------------------------------

  /** The time window of the initial request: the last `MaxInitialAgeSecs` seconds up to now. */
  datatype Window = Window(start: int, stop: int)

  function InitialWindow(now: int): (w: Window)
    ensures w.stop == now
    ensures w.stop - w.start == MaxInitialAgeSecs * 1000
  {
    Window(now - MaxInitialAgeSecs * 1000, now)
  }

  /**
   * The query the initial request's URL carries, as options of the time-keyed lookup:
   * `start` and `stop` as decimal text, and no `limit` or `sort`.
   */
  function InitialQuery(now: int): (q: DbTools.FindOptions)
    ensures q.start.Str? && q.stop.Str? && q.limit.Undefined? && q.sort.None?
  {
    var w := InitialWindow(now);
    DbTools.FindOptions(Str(IntToString(w.start)), Str(IntToString(w.stop)), Undefined, None)
  }

  /** The texts the initial query carries convert back to the bounds of the window. */
  lemma InitialQueryReadsBack(now: int)
    ensures ToNumber(InitialQuery(now).start) == Finite((now - MaxInitialAgeSecs * 1000) as real)
    ensures ToNumber(InitialQuery(now).stop) == Finite(now as real)
  {
    ToNumberOfIntString(now - MaxInitialAgeSecs * 1000);
    ToNumberOfIntString(now);
  }

  /**
   * The URL of the initial request: the packets of the followed stream on the page's own
   * host, with the query's `start` and then its `stop`.
   */
  function InitialDataUrl(host: string, streamId: string, now: int): (u: string)
    ensures var head := "http://" + host + "/api/v1/streams/" + streamId + "/packets?start=";
      var q := InitialQuery(now);
      |u| == |head| + |q.start.s| + 6 + |q.stop.s|
      && u[..|head|] == head
      && u[|head|..|head| + |q.start.s|] == q.start.s
      && u[|head| + |q.start.s|..|head| + |q.start.s| + 6] == "&stop="
      && u[|head| + |q.start.s| + 6..] == q.stop.s
  {
    var head := "http://" + host + "/api/v1/streams/" + streamId + "/packets?start=";
    var q := InitialQuery(now);
    FourParts(head, q.start.s, "&stop=", q.stop.s);
    head + q.start.s + "&stop=" + q.stop.s
  }

  /** Each of four concatenated texts is found back at its offset. */
  lemma FourParts(a: string, b: string, c: string, d: string)
    ensures var u := a + b + c + d;
      u[..|a|] == a && u[|a|..|a| + |b|] == b && u[|a| + |b|..|a| + |b| + |c|] == c && u[|a| + |b| + |c|..] == d
  {
  }

  /**
   * Given to `DbTools.WindowQuery`, which reads `start` and `stop` with unary `+`, the query
   * of the initial request selects exactly the packets of the last `MaxInitialAgeSecs` seconds.
   */
  lemma InitialWindowSelects(now: int, serverNow: int, t: int)
    requires -MaxTimeValue <= (now - MaxInitialAgeSecs * 1000) as real && now as real <= MaxTimeValue
    ensures var q := DbTools.WindowQuery(InitialQuery(now), serverNow);
      q.Success? && (DbTools.Selects(q.value, t) <==> now - MaxInitialAgeSecs * 1000 < t <= now)
  {
    var w := InitialWindow(now);
    DbTools.WindowOfDecimalText(w.start, w.stop, serverNow, t);
  }

  // ---------------------------------------------------------------------------
  // The trim of the buffer
  // ---------------------------------------------------------------------------

  /** The TypeError of reading `timestamp` from undefined or null. */
  function ReadError(what: string): (e: Props)
    ensures Get(e, "name") == Str("TypeError")
  {
    ErrorObject("TypeError", "Cannot read property 'timestamp' of " + what)
  }

  /**
   * `v.timestamp`: undefined and null throw; an object gives its property; any other value
   * has no such property.
   */
  function TimestampOf(v: JsVal): (r: Result<JsVal, Props>)
    ensures r.Failure? <==> v.Undefined? || v.Null?
  {
    match v
    case Undefined => Failure(ReadError("undefined"))
    case Null => Failure(ReadError("null"))
    case Obj(p) => Success(Get(p, "timestamp"))
    case _ => Success(Undefined)
  }

  /**
   * `timestamp < cutoff` against a number: the timestamp is converted to a number, and a
   * NaN compares false.
   */
  predicate IsBefore(timestamp: JsVal, cutoff: int) {
    match ToNumber(timestamp)
    case Finite(x) => x < cutoff as real
    case NegInf => true
    case _ => false
  }

  /** The element is a packet older than the cutoff. */
  predicate IsStale(v: JsVal, cutoff: int) {
    TimestampOf(v).Success? && IsBefore(TimestampOf(v).value, cutoff)
  }

  /**
   * The trim loop as written: `while (dataset[0].timestamp < cutoff) dataset.shift()`. It
   * stops at the first packet that is not stale, or fails when reading the front element
   * throws, which an array emptied by the loop does too. The result is the error, if any,
   * and what is left of the array.
   */
  function AgeTrim(s: seq<JsVal>, cutoff: int): (t: (Option<Props>, seq<JsVal>))
    ensures |t.1| <= |s| && t.1 == s[|s| - |t.1|..]
    ensures forall i :: 0 <= i < |s| - |t.1| ==> IsStale(s[i], cutoff)
    ensures t.0.None? ==> t.1 != [] && !IsStale(t.1[0], cutoff)
    ensures t.0.Some? ==> t.1 == [] || TimestampOf(t.1[0]).Failure?
  {
    if s == [] then (Some(ReadError("undefined")), [])
    else match TimestampOf(s[0])
      case Failure(e) => (Some(e), s)
      case Success(ts) =>
        if IsBefore(ts, cutoff) then
          var t := AgeTrim(s[1..], cutoff);
          assert s[1..][|s[1..]| - |t.1|..] == s[|s| - |t.1|..];
          assert forall i :: 1 <= i < |s| - |t.1| ==> s[i] == s[1..][i - 1];
          t
        else (None, s)
  }

  /** As written, the trim fails whenever every packet, the new one included, is stale. */
  lemma {:induction false} AllStaleTrimFails(s: seq<JsVal>, cutoff: int)
    requires forall i :: 0 <= i < |s| ==> IsStale(s[i], cutoff)
    ensures AgeTrim(s, cutoff) == (Some(ReadError("undefined")), [])
  {
    if s != [] {
      AllStaleTrimFails(s[1..], cutoff);
    }
  }

  /** An empty buffer and a new packet older than the cutoff: the handler throws. */
  lemma StalePacketOnEmptyBufferFails(cutoff: int)
    ensures var packet := Obj(map["timestamp" := Num(Finite((cutoff - 1) as real))]);
      AgeTrim([] + [packet], cutoff).0.Some?
  {
    var packet := Obj(map["timestamp" := Num(Finite((cutoff - 1) as real))]);
    assert IsStale(packet, cutoff);
    AllStaleTrimFails([packet], cutoff);
    assert [] + [packet] == [packet];
  }

  /**
   * The trim as evidently intended, `while (dataset.length && ...)`: an array emptied by the
   * loop ends the loop.
   */
  function AgeTrimCorrected(s: seq<JsVal>, cutoff: int): (t: (Option<Props>, seq<JsVal>))
    ensures |t.1| <= |s| && t.1 == s[|s| - |t.1|..]
    ensures forall i :: 0 <= i < |s| - |t.1| ==> IsStale(s[i], cutoff)
    ensures t.0.None? ==> t.1 == [] || !IsStale(t.1[0], cutoff)
    ensures t.0.Some? ==> t.1 != [] && TimestampOf(t.1[0]).Failure?
  {
    if s == [] then (None, [])
    else match TimestampOf(s[0])
      case Failure(e) => (Some(e), s)
      case Success(ts) =>
        if IsBefore(ts, cutoff) then
          var t := AgeTrimCorrected(s[1..], cutoff);
          assert s[1..][|s[1..]| - |t.1|..] == s[|s| - |t.1|..];
          assert forall i :: 1 <= i < |s| - |t.1| ==> s[i] == s[1..][i - 1];
          t
        else (None, s)
  }

  /**
   * The corrected trim agrees with the written one except where the written one runs out of
   * packets: there it leaves an empty buffer instead of throwing.
   */
  lemma {:induction false} AgeTrimCorrectedAgrees(s: seq<JsVal>, cutoff: int)
    ensures AgeTrim(s, cutoff).1 == AgeTrimCorrected(s, cutoff).1
    ensures AgeTrim(s, cutoff).1 == [] ==> AgeTrimCorrected(s, cutoff).0.None?
    ensures AgeTrim(s, cutoff).1 != [] ==> AgeTrim(s, cutoff) == AgeTrimCorrected(s, cutoff)
  {
    if s != [] && TimestampOf(s[0]).Success? && IsBefore(TimestampOf(s[0]).value, cutoff) {
      AgeTrimCorrectedAgrees(s[1..], cutoff);
    }
  }

  /** The corrected trim of a buffer of packet objects never fails. */
  lemma {:induction false} AgeTrimCorrectedOfObjects(s: seq<JsVal>, cutoff: int)
    requires forall i :: 0 <= i < |s| ==> s[i].Obj?
    ensures AgeTrimCorrected(s, cutoff).0.None?
  {
    if s != [] && IsBefore(TimestampOf(s[0]).value, cutoff) {
      assert forall i :: 0 <= i < |s[1..]| ==> s[1..][i].Obj?;
      AgeTrimCorrectedOfObjects(s[1..], cutoff);
    }
  }

  // ---------------------------------------------------------------------------
  // The client's buffer
  // ---------------------------------------------------------------------------

  /** The client's state: the stream it follows and the packets it holds, oldest first. */
  class Client {
    const streamId: string
    var dataset: seq<JsVal>
    /**
     * Whether the packet handler is registered: `updatePlot` registers it only once the initial
     * request has completed (and the plot is ready).
     */
    var listening: bool

    constructor (streamId: string)
      ensures this.streamId == streamId && dataset == [] && !listening
    {
      this.streamId := streamId;
      dataset := [];
      listening := false;
    }

    /**
     * The handler of the initial request once it has completed: a 200 reply replaces the
     * buffer with the parsed body; any other status leaves it as it was. Either way the
     * client goes on, reporting no error, and `updatePlot` then registers the packet handler.
     */
    method InitialData(status: int, parsed: seq<JsVal>) returns (err: Option<Props>)
      modifies this
      ensures err.None? && listening
      ensures dataset == if status == 200 then parsed else old(dataset)
    {
      if status == 200 {
        dataset := parsed;
      }
      listening := true;
      return None;
    }

    /**
     * The handler of a `streams/packets/POST` message at time `now`: a message for another
     * stream changes nothing; otherwise the packet is appended and the buffer trimmed as
     * `AgeTrim` says, keeping packets no older than `MaxAgeSecs` from the front on.
     */
    method OnPacket(msg: Props, now: int) returns (r: Option<Props>)
      requires listening
      modifies this`dataset
      ensures Get(msg, "_id") != Str(streamId) ==> r.None? && dataset == old(dataset)
      ensures Get(msg, "_id") == Str(streamId) && TimestampOf(Get(msg, "packet")).Failure? ==>
        r == Some(TimestampOf(Get(msg, "packet")).error) && dataset == old(dataset)
      ensures Get(msg, "_id") == Str(streamId) && TimestampOf(Get(msg, "packet")).Success? ==>
        (r, dataset) == AgeTrim(old(dataset) + [Get(msg, "packet")], now - MaxAgeSecs * 1000)
    {
      if Get(msg, "_id") != Str(streamId) {
        return None;
      }
      var packet := Get(msg, "packet");
      // the packet's timestamp is logged before the packet is stored
      var logged := TimestampOf(packet);
      if logged.Failure? {
        return Some(logged.error);
      }
      dataset := dataset + [packet];
      r := Trim(now - MaxAgeSecs * 1000);
    }

    /** The trim loop of the packet handler: `while (dataset[0].timestamp < cutoff) dataset.shift()`. */
    method Trim(cutoff: int) returns (r: Option<Props>)
      modifies this`dataset
      ensures (r, dataset) == AgeTrim(old(dataset), cutoff)
    {
      ghost var pushed := dataset;
      while true
        invariant AgeTrim(dataset, cutoff) == AgeTrim(pushed, cutoff)
        decreases |dataset|
      {
        if dataset == [] {
          return Some(ReadError("undefined"));
        }
        var front := TimestampOf(dataset[0]);
        if front.Failure? {
          return Some(front.error);
        }
        if !IsBefore(front.value, cutoff) {
          return None;
        }
        dataset := dataset[1..];
      }
    }
  }

  /**
   * After a packet of the followed stream is handled successfully, the buffer is a suffix of
   * the old buffer with the packet appended, it ends with that packet when the packet is not
   * stale, and everything dropped was stale.
   */
  lemma TrimKeepsRecentPacket(old_: seq<JsVal>, packet: JsVal, cutoff: int)
    requires AgeTrim(old_ + [packet], cutoff).0.None?
    requires !IsStale(packet, cutoff)
    ensures var rest := AgeTrim(old_ + [packet], cutoff).1;
      rest != [] && rest[|rest| - 1] == packet
  {
  }
}
