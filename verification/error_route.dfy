/**
 * The server's mapping from a failed database or service call to an HTTP reply:
 * a status and, except for a missing collection, a JSON error body.
 */
module ErrorRoute {
  import opened Wrappers
  import opened JsValue
  import Auxtools

  /** The HTTP reply `sendError` produces; `body` is None for a bare status. */
  datatype Reply = Reply(status: int, body: Option<Props>)

  /** The error thrown when `err.message.includes` is called on a message that is not a string. */
  const MessageNotString: string := "TypeError: err.message.includes is not a function"

  predicate IsMongoError(err: Props) {
    Get(err, "name") == Str("MongoError")
  }

  /**
   * `sendError(err, res)`. For a MongoError the checks run in order, the first match winning:
   * a refused connection is 500 (service unavailable: the database is not running), a
   * collection missing in strict mode is a bare 404, a duplicate key (code 11000) is 409, any
   * other database error is 400. Every other error is 400. A MongoError whose message is not a
   * string makes the handler itself throw.
   */
  function SendError(err: Props): (r: Result<Reply, string>)
    ensures !IsMongoError(err) ==> r == Success(Reply(400, Some(Auxtools.FromError(400, err))))
    ensures IsMongoError(err) && !Get(err, "message").Str? ==> r == Failure(MessageNotString)
    ensures IsMongoError(err) && Get(err, "message").Str? ==>
      var m := Get(err, "message").s;
      r.Success?
      && (Includes(m, "ECONNREFUSED") ==>
            r.value == Reply(500, Some(Auxtools.FromError(500, err["description" := Str("Perhaps MongoDB is not running?")]))))
      && (!Includes(m, "ECONNREFUSED") && Includes(m, "does not exist. Currently in strict mode") ==>
            r.value == Reply(404, None))
      && (!Includes(m, "ECONNREFUSED") && !Includes(m, "does not exist. Currently in strict mode")
          && Get(err, "code") == Num(Finite(11000.0)) ==>
            r.value == Reply(409, Some(Auxtools.FromError(409, err["description" := Str("Duplicate key error")]))))
      && (!Includes(m, "ECONNREFUSED") && !Includes(m, "does not exist. Currently in strict mode")
          && Get(err, "code") != Num(Finite(11000.0)) ==>
            r.value == Reply(400, Some(Auxtools.FromError(400, err))))
  {
    if !IsMongoError(err) then Success(Reply(400, Some(Auxtools.FromError(400, err))))
    else if !Get(err, "message").Str? then Failure(MessageNotString)
    else
      var m := Get(err, "message").s;
      if Includes(m, "ECONNREFUSED") then
        Success(Reply(500, Some(Auxtools.FromError(500, err["description" := Str("Perhaps MongoDB is not running?")]))))
      else if Includes(m, "does not exist. Currently in strict mode") then
        Success(Reply(404, None))
      else if Get(err, "code") == Num(Finite(11000.0)) then
        Success(Reply(409, Some(Auxtools.FromError(409, err["description" := Str("Duplicate key error")]))))
      else
        Success(Reply(400, Some(Auxtools.FromError(400, err))))
  }

  /** Every JSON error body carries, as its `code`, the HTTP status it is sent with. */
  lemma BodyCodeIsStatus(err: Props)
    requires SendError(err).Success? && SendError(err).value.body.Some?
    ensures SendError(err).value.body.value["code"] == Num(Finite(SendError(err).value.status as real))
  {
  }

  /** The statuses `sendError` can send. */
  lemma StatusIsKnown(err: Props)
    requires SendError(err).Success?
    ensures SendError(err).value.status in {400, 404, 409, 500}
    ensures SendError(err).value.body.None? <==> SendError(err).value.status == 404
  {
  }

  /** A refused connection is reported as 500 even when the message also names a missing collection. */
  lemma RefusedConnectionFirst(message: string, code: JsVal)
    requires Includes(message, "ECONNREFUSED")
    ensures var err := map["name" := Str("MongoError"), "message" := Str(message), "code" := code];
      SendError(err).Success? && SendError(err).value.status == 500
      && SendError(err).value.body.value["description"] == Str("Perhaps MongoDB is not running?")
  {
    var err := map["name" := Str("MongoError"), "message" := Str(message), "code" := code];
    assert Get(err, "message") == Str(message);
  }

  /** A request for a stream that does not exist (`NoSuchIDError`) is answered 400 with its message. */
  lemma NoSuchIdIsBadRequest(message: string)
    ensures var r := SendError(ErrorObject("NoSuchIDError", message));
      r.Success? && r.value.status == 400 && r.value.body.value["message"] == Str(message)
      && "description" !in r.value.body.value
  {
  }
}
