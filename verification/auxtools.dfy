/**
 * Helpers the WeeRT server uses to turn a request's query parameters into a
 * MongoDB sort and limit, and to build the JSON body of an error reply.
 *
 * Query parameters arrive as strings (or are absent); repeated parameters,
 * which the query parser turns into arrays, are not modelled.
 */
module Auxtools {
  import opened Wrappers
  import opened JsValue

  /** A MongoDB sort specification: field name to direction, 1 ascending and -1 descending. */
  type SortSpec = map<string, int>

  /** The parts of a request's query string that the server reads. */
  datatype Query = Query(sort: Option<string>, direction: Option<string>, limit: Option<string>)

  /** The options handed to the database: a sort specification and a limit (0 means no limit). */
  datatype DbQuery = DbQuery(sort: SortSpec, limit: int)

  /**
   * `getSortSpec(sort_option, direction_option)`: a one-key sort on the given field (default `_id`,
   * and `timestamp` stands for `_id`) in the given direction (default `asc`), matched without
   * regard to case; any other direction is an error naming it.
   *
   * Only ASCII letters are lowered: no other character lowers to a letter of `asc` or `desc`.
   */
  function GetSortSpec(sortOption: Option<string>, directionOption: Option<string>): (r: Result<SortSpec, string>)
    ensures r.Success? ==> |r.value| == 1
    ensures r.Success? && (sortOption.None? || sortOption == Some("timestamp")) ==> r.value.Keys == {"_id"}
    ensures r.Success? && sortOption.Some? && sortOption.value != "timestamp" ==> r.value.Keys == {sortOption.value}
    ensures directionOption.None? ==> r.Success? && r.value.Values == {1}
    ensures directionOption.Some? && ToLowerAscii(directionOption.value) == "asc" ==> r.Success? && r.value.Values == {1}
    ensures directionOption.Some? && ToLowerAscii(directionOption.value) == "desc" ==> r.Success? && r.value.Values == {-1}
    ensures directionOption.Some? && ToLowerAscii(directionOption.value) != "asc"
              && ToLowerAscii(directionOption.value) != "desc"
            ==> r == Failure("Unknown sort order: " + directionOption.value)
  {
    var field := if sortOption.None? || sortOption.value == "timestamp" then "_id" else sortOption.value;
    var direction := directionOption.GetOr("asc");
    var lowered := ToLowerAscii(direction);
    if lowered == "asc" then Success(map[field := 1])
    else if lowered == "desc" then Success(map[field := -1])
    else Failure("Unknown sort order: " + directionOption.value)
  }

  /** With neither parameter, the sort is ascending on `_id`. */
  lemma GetSortSpecDefault()
    ensures GetSortSpec(None, None) == Success(map["_id" := 1])
  {
  }

  /**
   * `formDbQuery(query)`: no query gives an ascending `_id` sort and no limit. Otherwise the sort
   * comes from `getSortSpec` (its error is raised first), and the limit, 0 when absent, is the
   * parameter converted with unary `+`, which must be an integer.
   */
  function FormDbQuery(query: Option<Query>): (r: Result<DbQuery, string>)
    ensures query.None? ==> r == Success(DbQuery(map["_id" := 1], 0))
    ensures query.Some? && GetSortSpec(query.value.sort, query.value.direction).Failure? ==>
      r == Failure(GetSortSpec(query.value.sort, query.value.direction).error)
    ensures query.Some? && GetSortSpec(query.value.sort, query.value.direction).Success? ==>
      var limit := query.value.limit;
      (limit.None? ==> r.Success? && r.value.limit == 0)
      && (limit.Some? && !IsIntegral(StringToNumber(limit.value)) ==> r == Failure("Invalid value for limit: " + limit.value))
      && (limit.Some? && IsIntegral(StringToNumber(limit.value)) ==>
            r.Success? && r.value.limit as real == StringToNumber(limit.value).value)
    ensures r.Success? ==> |r.value.sort| == 1
  {
    match query
    case None => Success(DbQuery(map["_id" := 1], 0))
    case Some(q) =>
      var sort :- GetSortSpec(q.sort, q.direction);
      match q.limit
      case None => Success(DbQuery(sort, 0))
      case Some(text) =>
        var n := StringToNumber(text);
        if IsIntegral(n) then Success(DbQuery(sort, IntegralValue(n)))
        else Failure("Invalid value for limit: " + text)
  }

  /** A query string without sort, direction or limit means the same as no query at all. */
  lemma FormDbQueryEmptyQuery()
    ensures FormDbQuery(Some(Query(None, None, None))) == FormDbQuery(None)
  {
  }

  /** A limit written as a decimal integer is read back as that integer. */
  lemma FormDbQueryLimitRoundTrip(sort: Option<string>, direction: Option<string>, limit: int)
    requires GetSortSpec(sort, direction).Success?
    ensures FormDbQuery(Some(Query(sort, direction, Some(IntToString(limit))))) ==
      Success(DbQuery(GetSortSpec(sort, direction).value, limit))
  {
    IntToStringToNumber(limit);
  }

  /**
   * `fromError(code, err)`: a fresh object with `err`'s message, the given code, and `err`'s
   * description only when that description is truthy.
   */
  function FromError(code: int, err: Props): (e: Props)
    ensures e.Keys == {"message", "code"} + (if Truthy(Get(err, "description")) then {"description"} else {})
    ensures e["message"] == Get(err, "message")
    ensures e["code"] == Num(Finite(code as real))
    ensures "description" in e ==> e["description"] == err["description"]
  {
    var e := map["message" := Get(err, "message"), "code" := Num(Finite(code as real))];
    if Truthy(Get(err, "description")) then e["description" := Get(err, "description")] else e
  }
}

/** The earlier copy of the server's helpers; only `fromError` is modelled. */
module AuxtoolsOld {
  import opened JsValue

  /**
   * `fromError(code, err)` as the earlier server builds it: the same body as the current server's.
   * `err` is a value here, so it is untouched by construction.
   */
  function FromError(code: int, err: Props): (e: Props)
    ensures e.Keys == {"message", "code"} + (if Truthy(Get(err, "description")) then {"description"} else {})
    ensures e["message"] == Get(err, "message")
    ensures e["code"] == Num(Finite(code as real))
    ensures Truthy(Get(err, "description")) ==> e["description"] == err["description"]
  {
    var e := map["message" := Get(err, "message"), "code" := Num(Finite(code as real))];
    if Truthy(Get(err, "description")) then e["description" := Get(err, "description")] else e
  }
}
