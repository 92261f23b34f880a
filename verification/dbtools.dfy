/**
 * The server's time-keyed lookups on a MongoDB collection: argument defaults and
 * checks, the query they send, and the renaming of each stored record's `_id`
 * (a Date) back to a `timestamp` in milliseconds.
 *
 * The collection is a function from the query sent to what the driver returns:
 * the matching records, or the error it rejects with. Records the driver returns
 * are fresh objects, so renaming them in place is modelled as a value transform.
 */
module DbTools {
  import opened Wrappers
  import opened JsValue
  import Auxtools

  /** Why a lookup rejects. `InvalidValue` is "Invalid value for '<name>': <value>". */
  datatype DbError =
    | InvalidValue(name: string, value: JsNumber)
    | Rejected(err: Props)
    | ReferenceError(name: string)
    | TypeError(message: string)

  /** The query sent to the collection. */
  datatype DbQuery =
    | TimeWindow(after: JsVal, upTo: JsVal, limit: int, sort: Auxtools.SortSpec)
    | ExactTime(at: JsVal, limit: int)

  /** What the collection's driver gives back for a query. */
  type Collection = DbQuery -> Result<seq<Props>, Props>

  /** The options `findByTimestamp` reads; `sort` is an object the caller built, or absent. */
  datatype FindOptions = FindOptions(start: JsVal, stop: JsVal, limit: JsVal, sort: Option<Auxtools.SortSpec>)

  /** `options.x === undefined ? default : +options.x`. */
  function NumberOption(v: JsVal, default: JsNumber): JsNumber {
    if v.Undefined? then default else ToNumber(v)
  }

  // ---------------------------------------------------------------------------
  // The stored form of a record and back
  // ---------------------------------------------------------------------------

  /**
   * How a posted record is stored: its `timestamp` becomes the `_id`, as a Date, and the
   * `timestamp` key goes.
   */
  function StoredForm(record: Props): (s: Props)
    ensures s.Keys == record.Keys - {"timestamp"} + {"_id"}
    ensures s["_id"] == NewDate(Get(record, "timestamp"))
    ensures forall k :: k in record && k != "timestamp" && k != "_id" ==> s[k] == record[k]
  {
    (record - {"timestamp"})["_id" := NewDate(Get(record, "timestamp"))]
  }

  /**
   * A stored record as the server hands it back: `timestamp` is set to `_id.getTime()` and
   * `_id` deleted. An `_id` that is not a Date has no `getTime`, which throws.
   */
  function ApiForm(stored: Props): (r: Result<Props, DbError>)
    ensures Get(stored, "_id").Date? <==> r.Success?
    ensures r.Success? ==>
      r.value.Keys == stored.Keys - {"_id"} + {"timestamp"}
      && r.value["timestamp"] == Num(stored["_id"].time)
      && forall k :: k in stored && k != "timestamp" && k != "_id" ==> r.value[k] == stored[k]
  {
    match Get(stored, "_id")
    case Date(t) => Success((stored - {"_id"})["timestamp" := Num(t)])
    case _ => Failure(TypeError("record._id.getTime is not a function"))
  }

  /**
   * A record without `_id` whose `timestamp` is an integer in the Date range comes back from
   * storage exactly as it was posted.
   */
  lemma StoredFormRoundTrip(record: Props)
    requires "timestamp" in record && IsTimeValue(record["timestamp"]) && "_id" !in record
    ensures ApiForm(StoredForm(record)) == Success(record)
  {
    var n := record["timestamp"].n;
    assert ToNumber(Num(n)) == n;
    assert TimeClip(n) == n;
    var s := StoredForm(record);
    assert s["_id"] == Date(n);
    var back := ApiForm(s).value;
    assert back.Keys == record.Keys;
    assert back["timestamp"] == record["timestamp"];
    assert forall k :: k in record ==> back[k] == record[k];
    assert back == record;
  }

  // ---------------------------------------------------------------------------
  // findByTimestamp
  // ---------------------------------------------------------------------------

  /**
   * The query `findByTimestamp` sends, or the check it fails first: `start` (default 0),
   * `stop` (default now) and `limit` (default 0), each converted with `+` and each required
   * to be an integer, in that order; `sort` defaults to ascending `_id`.
   */
  function WindowQuery(options: FindOptions, now: int): (r: Result<DbQuery, DbError>)
    ensures r.Success? <==>
      IsIntegral(NumberOption(options.start, Finite(0.0)))
      && IsIntegral(NumberOption(options.stop, Finite(now as real)))
      && IsIntegral(NumberOption(options.limit, Finite(0.0)))
    ensures r.Success? ==>
      && r.value.TimeWindow?
      && r.value.after == NewDate(Num(NumberOption(options.start, Finite(0.0))))
      && r.value.upTo == NewDate(Num(NumberOption(options.stop, Finite(now as real))))
      && r.value.limit as real == NumberOption(options.limit, Finite(0.0)).value
      && r.value.sort == options.sort.GetOr(map["_id" := 1])
    ensures !IsIntegral(NumberOption(options.start, Finite(0.0))) ==>
      r == Failure(InvalidValue("start", NumberOption(options.start, Finite(0.0))))
    ensures IsIntegral(NumberOption(options.start, Finite(0.0))) && !IsIntegral(NumberOption(options.stop, Finite(now as real))) ==>
      r == Failure(InvalidValue("stop", NumberOption(options.stop, Finite(now as real))))
    ensures (IsIntegral(NumberOption(options.start, Finite(0.0))) && IsIntegral(NumberOption(options.stop, Finite(now as real)))
             && !IsIntegral(NumberOption(options.limit, Finite(0.0)))) ==>
      r == Failure(InvalidValue("limit", NumberOption(options.limit, Finite(0.0))))
  {
    var start := NumberOption(options.start, Finite(0.0));
    var stop := NumberOption(options.stop, Finite(now as real));
    var limit := NumberOption(options.limit, Finite(0.0));
    var sort := options.sort.GetOr(map["_id" := 1]);
    if !IsIntegral(start) then Failure(InvalidValue("start", start))
    else if !IsIntegral(stop) then Failure(InvalidValue("stop", stop))
    else if !IsIntegral(limit) then Failure(InvalidValue("limit", limit))
    else Success(TimeWindow(NewDate(Num(start)), NewDate(Num(stop)), IntegralValue(limit), sort))
  }

  /** With no options, the window runs from the epoch to now, unlimited, ascending. */
  lemma WindowQueryDefaults(now: int)
    requires -MaxTimeValue <= now as real <= MaxTimeValue
    ensures WindowQuery(FindOptions(Undefined, Undefined, Undefined, None), now)
         == Success(TimeWindow(Date(Finite(0.0)), Date(Finite(now as real)), 0, map["_id" := 1]))
  {
  }

  /** A record whose `_id` holds time `t` is selected by the window: `after < t <= upTo`. */
  predicate Selects(query: DbQuery, t: int) {
    query.TimeWindow? && query.after.Date? && query.upTo.Date?
    && query.after.time.Finite? && query.upTo.time.Finite?
    && query.after.time.value < t as real <= query.upTo.time.value
  }

  /** The query depends on the options only through the numbers they convert to. */
  lemma WindowQueryOfNumbers(options: FindOptions, other: FindOptions, now: int)
    requires NumberOption(options.start, Finite(0.0)) == NumberOption(other.start, Finite(0.0))
    requires NumberOption(options.stop, Finite(now as real)) == NumberOption(other.stop, Finite(now as real))
    requires NumberOption(options.limit, Finite(0.0)) == NumberOption(other.limit, Finite(0.0))
    requires options.sort == other.sort
    ensures WindowQuery(options, now) == WindowQuery(other, now)
  {
  }

  /** For integer bounds in the Date range, the window selects exactly the times `start < t <= stop`. */
  lemma WindowBounds(start: int, stop: int, now: int, t: int)
    requires -MaxTimeValue <= start as real <= MaxTimeValue && -MaxTimeValue <= stop as real <= MaxTimeValue
    ensures var r := WindowQuery(FindOptions(Num(Finite(start as real)), Num(Finite(stop as real)), Undefined, None), now);
      r.Success? && (Selects(r.value, t) <==> start < t <= stop)
  {
  }

  /**
   * Bounds written out as decimal text, as they arrive in a query string, select the same
   * window as the numbers themselves.
   */
  lemma WindowOfDecimalText(start: int, stop: int, now: int, t: int)
    requires -MaxTimeValue <= start as real <= MaxTimeValue && -MaxTimeValue <= stop as real <= MaxTimeValue
    ensures var r := WindowQuery(FindOptions(Str(IntToString(start)), Str(IntToString(stop)), Undefined, None), now);
      r.Success? && (Selects(r.value, t) <==> start < t <= stop)
  {
    ToNumberOfIntString(start);
    ToNumberOfIntString(stop);
    WindowOfText(IntToString(start), IntToString(stop), start, stop, now, t);
  }

  lemma WindowOfText(startText: string, stopText: string, start: int, stop: int, now: int, t: int)
    requires -MaxTimeValue <= start as real <= MaxTimeValue && -MaxTimeValue <= stop as real <= MaxTimeValue
    requires ToNumber(Str(startText)) == Finite(start as real) && ToNumber(Str(stopText)) == Finite(stop as real)
    ensures var r := WindowQuery(FindOptions(Str(startText), Str(stopText), Undefined, None), now);
      r.Success? && (Selects(r.value, t) <==> start < t <= stop)
  {
    WindowQueryOfNumbers(FindOptions(Str(startText), Str(stopText), Undefined, None),
                         FindOptions(Num(Finite(start as real)), Num(Finite(stop as real)), Undefined, None), now);
    WindowBounds(start, stop, now, t);
  }

  /**
   * `findByTimestamp(collection, options)` as written: after the checks pass and the query
   * succeeds, the result handler reads the undeclared `results`, so the call rejects with a
   * ReferenceError; a failing query rejects with the driver's error.
   */
  function FindByTimestamp(collection: Collection, options: FindOptions, now: int): (r: Result<seq<Props>, DbError>)
    ensures WindowQuery(options, now).Failure? ==> r == Failure(WindowQuery(options, now).error)
    ensures WindowQuery(options, now).Success? && collection(WindowQuery(options, now).value).Failure? ==>
      r == Failure(Rejected(collection(WindowQuery(options, now).value).error))
    ensures WindowQuery(options, now).Success? && collection(WindowQuery(options, now).value).Success? ==>
      r == Failure(ReferenceError("results"))
  {
    var query :- WindowQuery(options, now);
    match collection(query)
    case Failure(err) => Failure(Rejected(err))
    case Success(_) => Failure(ReferenceError("results"))
  }

  /** As written, `findByTimestamp` never resolves. */
  lemma FindByTimestampNeverResolves(collection: Collection, options: FindOptions, now: int)
    ensures FindByTimestamp(collection, options, now).Failure?
    ensures WindowQuery(options, now).Success? && collection(WindowQuery(options, now).value).Success? ==>
      FindByTimestamp(collection, options, now) == Failure(ReferenceError("results"))
  {
  }

  /**
   * Invalid arguments reject before any query runs, whatever the collection, with an error
   * naming the first of `start`, `stop`, `limit` that is not an integer, and its value.
   */
  lemma InvalidArgumentsRejectBeforeQuery(c1: Collection, c2: Collection, options: FindOptions, now: int)
    requires WindowQuery(options, now).Failure?
    ensures FindByTimestamp(c1, options, now) == FindByTimestamp(c2, options, now)
    ensures var start := NumberOption(options.start, Finite(0.0));
      var stop := NumberOption(options.stop, Finite(now as real));
      var limit := NumberOption(options.limit, Finite(0.0));
      FindByTimestamp(c1, options, now)
        == Failure(if !IsIntegral(start) then InvalidValue("start", start)
                   else if !IsIntegral(stop) then InvalidValue("stop", stop)
                   else InvalidValue("limit", limit))
  {
  }

  /**
   * `findByTimestamp` as evidently intended, reading the handler's own `result`: each record
   * found is handed back in API form, in the order the collection returned them.
   */
  method FindByTimestampCorrected(collection: Collection, options: FindOptions, now: int)
    returns (r: Result<seq<Props>, DbError>)
    ensures WindowQuery(options, now).Failure? ==> r == Failure(WindowQuery(options, now).error)
    ensures WindowQuery(options, now).Success? && collection(WindowQuery(options, now).value).Failure? ==>
      r == Failure(Rejected(collection(WindowQuery(options, now).value).error))
    ensures WindowQuery(options, now).Success? && collection(WindowQuery(options, now).value).Success? ==>
      var found := collection(WindowQuery(options, now).value).value;
      (r.Success? <==> forall i :: 0 <= i < |found| ==> Get(found[i], "_id").Date?)
      && (r.Success? ==>
            |r.value| == |found| && forall i :: 0 <= i < |found| ==> Success(r.value[i]) == ApiForm(found[i]))
  {
    var query := WindowQuery(options, now);
    if query.Failure? {
      return Failure(query.error);
    }
    var result := collection(query.value);
    if result.Failure? {
      return Failure(Rejected(result.error));
    }
    var found := result.value;
    var renamed: seq<Props> := [];
    var i := 0;
    while i < |found|
      invariant 0 <= i <= |found| && |renamed| == i
      invariant forall j :: 0 <= j < i ==> Get(found[j], "_id").Date? && Success(renamed[j]) == ApiForm(found[j])
    {
      var record := ApiForm(found[i]);
      if record.Failure? {
        return Failure(record.error);
      }
      renamed := renamed + [record.value];
      i := i + 1;
    }
    return Success(renamed);
  }

  // ---------------------------------------------------------------------------
  // findOneByTimestamp
  // ---------------------------------------------------------------------------

  /**
   * `findOneByTimestamp(collection, options)`: the timestamp, converted with `+`, must be an
   * integer; the query is an exact match on `_id`; no match resolves null (None), and the
   * first match is handed back in API form.
   */
  function FindOneByTimestamp(collection: Collection, timestamp: JsVal): (r: Result<Option<Props>, DbError>)
    ensures !IsIntegral(ToNumber(timestamp)) ==> r == Failure(InvalidValue("timestamp", ToNumber(timestamp)))
    ensures IsIntegral(ToNumber(timestamp)) ==>
      var found := collection(ExactTime(NewDate(Num(ToNumber(timestamp))), 1));
      (found.Failure? ==> r == Failure(Rejected(found.error)))
      && (found.Success? && found.value == [] ==> r == Success(None))
      && (found.Success? && found.value != [] ==>
            (r.Success? <==> ApiForm(found.value[0]).Success?)
            && (r.Success? ==> r == Success(Some(ApiForm(found.value[0]).value))))
  {
    var ts := ToNumber(timestamp);
    if !IsIntegral(ts) then Failure(InvalidValue("timestamp", ts))
    else
      match collection(ExactTime(NewDate(Num(ts)), 1))
      case Failure(err) => Failure(Rejected(err))
      case Success(found) =>
        if |found| < 1 then Success(None)
        else
          var record :- ApiForm(found[0]);
          Success(Some(record))
  }

  /**
   * A record stored from a posted packet is found again by its own timestamp and handed back
   * exactly as it was posted.
   */
  lemma FindOneFindsStoredRecord(collection: Collection, record: Props)
    requires "timestamp" in record && IsTimeValue(record["timestamp"]) && "_id" !in record
    requires collection(ExactTime(Date(record["timestamp"].n), 1)) == Success([StoredForm(record)])
    ensures FindOneByTimestamp(collection, record["timestamp"]) == Success(Some(record))
  {
    StoredFormRoundTrip(record);
  }
}
