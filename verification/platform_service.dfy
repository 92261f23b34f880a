/**
 * The platform service of the WeeRT server: the checks and renamings `createPlatform`,
 * `updateOnePlatform` and `insertOneLocation` make around their MongoDB calls, and the
 * success policy of `deleteOnePlatform`.
 *
 * The database is given as parameters, as in the stream service. Building a MongoDB
 * ObjectID from a platform id is the driver's business: its exception, if any, is a
 * parameter too.
 */
module PlatformService {
  import opened Wrappers
  import opened JsValue
  import DbTools
  import ErrorRoute

  // ---------------------------------------------------------------------------
  // createPlatform
  // ---------------------------------------------------------------------------

  /** The checks `createPlatform` makes, in order: no `_id`, and a non-empty `name`. */
  function PlatformMetadataCheck(metadata: Props): (err: Option<Props>)
    ensures err.None? <==> Get(metadata, "_id").Undefined? && Truthy(Get(metadata, "name"))
    ensures !Get(metadata, "_id").Undefined? ==> err == Some(PlainError("Field _id is already defined"))
    ensures Get(metadata, "_id").Undefined? && !Truthy(Get(metadata, "name")) ==>
      err == Some(PlainError("Field 'name' is required"))
  {
    if !Get(metadata, "_id").Undefined? then Some(PlainError("Field _id is already defined"))
    else if !Truthy(Get(metadata, "name")) then Some(PlainError("Field 'name' is required"))
    else None
  }

  /** The metadata with an empty `streams` list added when it has none. */
  function WithStreams(metadata: Props): (m: Props)
    ensures m.Keys == metadata.Keys + {"streams"}
    ensures Get(metadata, "streams").Undefined? ==> m["streams"] == Arr([])
    ensures !Get(metadata, "streams").Undefined? ==> m == metadata
    ensures forall k :: k in metadata && k != "streams" ==> m[k] == metadata[k]
  {
    if Get(metadata, "streams").Undefined? then metadata["streams" := Arr([])] else metadata
  }

  /** Adding the default streams list twice is the same as adding it once. */
  lemma WithStreamsIdempotent(metadata: Props)
    ensures WithStreams(WithStreams(metadata)) == WithStreams(metadata)
  {
  }

  /**
   * What `createPlatform` settles with once the checks have passed and the metadata holds its
   * streams list: the insert gives back the stored document with its new `_id`, under which
   * the platform's location collection is then created.
   */
  function CreatedPlatform(metadata: Props, insert: Props -> Result<Props, Props>,
                           createCollection: JsVal -> Option<Props>): (r: Result<Props, Props>)
    ensures r.Success? ==> insert(metadata) == Success(r.value) && createCollection(Get(r.value, "_id")).None?
    ensures insert(metadata).Failure? ==> r == Failure(insert(metadata).error)
    ensures insert(metadata).Success? ==>
      var stored := insert(metadata).value;
      && (createCollection(Get(stored, "_id")).Some? ==> r == Failure(createCollection(Get(stored, "_id")).value))
      && (createCollection(Get(stored, "_id")).None? ==> r == Success(stored))
  {
    var stored :- insert(metadata);
    match createCollection(Get(stored, "_id"))
    case Some(err) => Failure(err)
    case None => Success(stored)
  }

  /**
   * `createPlatform(platform_metadata)`: metadata that fails the checks is rejected and left
   * as it was; otherwise the caller's metadata gets its default streams list in place and is
   * inserted.
   */
  method CreatePlatform(metadata: JsObject, insert: Props -> Result<Props, Props>, createCollection: JsVal -> Option<Props>)
    returns (r: Result<Props, Props>)
    modifies metadata
    ensures PlatformMetadataCheck(old(metadata.props)).Some? ==>
      r == Failure(PlatformMetadataCheck(old(metadata.props)).value) && metadata.props == old(metadata.props)
    ensures PlatformMetadataCheck(old(metadata.props)).None? ==>
      metadata.props == WithStreams(old(metadata.props)) && r == CreatedPlatform(metadata.props, insert, createCollection)
  {
    var check := PlatformMetadataCheck(metadata.props);
    if check.Some? {
      return Failure(check.value);
    }
    if Get(metadata.props, "streams").Undefined? {
      metadata.props := metadata.props["streams" := Arr([])];
    }
    r := CreatedPlatform(metadata.props, insert, createCollection);
  }

  /** A created platform always has a streams list, and an existing one is the one supplied. */
  lemma CreatedPlatformHasStreams(metadata: Props)
    requires PlatformMetadataCheck(metadata).None?
    ensures "streams" in WithStreams(metadata) && WithStreams(metadata)["streams"] != Undefined
    ensures "streams" in metadata && metadata["streams"] != Undefined ==> WithStreams(metadata)["streams"] == metadata["streams"]
  {
  }

  // ---------------------------------------------------------------------------
  // updateOnePlatform
  // ---------------------------------------------------------------------------

  /**
   * The metadata names a platform other than the one in the URL: its `_id` is truthy and is
   * not the platform id.
   */
  predicate IdMismatch(platformId: string, metadata: Props) {
    Truthy(Get(metadata, "_id")) && Get(metadata, "_id") != Str(platformId)
  }

  /**
   * The error `updateOnePlatform` rejects a mismatch with, as written: `new Error({...})`
   * converts its object argument to a string, so the message is "[object Object]" and the
   * intended message and description are lost.
   */
  const MismatchError: Props := PlainError("[object Object]")

  /**
   * The mismatch error as evidently intended: message "Mismatch in platformID" and a
   * description naming both ids; `idText` is the string form of the metadata's `_id`.
   */
  function MismatchErrorCorrected(platformId: string, idText: string): (e: Props)
    ensures Get(e, "message") == Str("Mismatch in platformID")
    ensures Get(e, "description") == Str(platformId + " vs " + idText)
  {
    PlainError("Mismatch in platformID")["description" := Str(platformId + " vs " + idText)]
  }

  /** An ObjectID failure, with the description the service adds to it. */
  function BadIdError(platformId: string, err: Props): (e: Props)
    ensures e.Keys == err.Keys + {"description"}
    ensures e["description"] == Str("Unable to form ObjectID for platformID of " + platformId)
  {
    err["description" := Str("Unable to form ObjectID for platformID of " + platformId)]
  }

  /**
   * The `$set` document: a copy of the metadata without `streams` (an update must not
   * overwrite the streams list) and without `_id`.
   */
  function SetDocument(metadata: Props): (md: Props)
    ensures md.Keys == metadata.Keys - {"streams", "_id"}
    ensures forall k :: k in md ==> md[k] == metadata[k]
  {
    metadata - {"streams", "_id"}
  }

  /** How the promise a service call returns ends: settled with its result, or never. */
  datatype Settlement = Pending | Settled(result: Result<Props, Props>)

  /**
   * `updateOnePlatform(platformID, platform_metadata)` as written: a mismatched `_id` is
   * rejected first, then an id that is not an ObjectID. A database connection that failed
   * (`connectError`) is never caught, so the promise stays pending. Then a platform collection
   * that does not open (in strict mode) rejects; otherwise the platform is updated with the
   * `$set` document.
   */
  function UpdateOnePlatform(platformId: string, metadata: Props, idError: Option<Props>, connectError: Option<Props>,
                             openError: Option<Props>, update: Props -> Result<Props, Props>): (p: Settlement)
    ensures p.Pending? <==> !IdMismatch(platformId, metadata) && idError.None? && connectError.Some?
    ensures IdMismatch(platformId, metadata) ==> p == Settled(Failure(MismatchError))
    ensures !IdMismatch(platformId, metadata) && idError.Some? ==>
      p == Settled(Failure(BadIdError(platformId, idError.value)))
    ensures !IdMismatch(platformId, metadata) && idError.None? && connectError.None? && openError.Some? ==>
      p == Settled(Failure(openError.value))
    ensures !IdMismatch(platformId, metadata) && idError.None? && connectError.None? && openError.None? ==>
      p == Settled(update(SetDocument(metadata)))
  {
    if IdMismatch(platformId, metadata) then Settled(Failure(MismatchError))
    else if idError.Some? then Settled(Failure(BadIdError(platformId, idError.value)))
    else if connectError.Some? then Pending
    else if openError.Some? then Settled(Failure(openError.value))
    else Settled(update(SetDocument(metadata)))
  }

  /** As written, an update of a valid platform while the database is down never settles. */
  lemma UpdateNeverSettlesWhenDatabaseDown(platformId: string, metadata: Props, connectError: Props,
                                           openError: Option<Props>, update: Props -> Result<Props, Props>)
    requires !IdMismatch(platformId, metadata)
    ensures UpdateOnePlatform(platformId, metadata, None, Some(connectError), openError, update) == Pending
  {
  }

  /**
   * `updateOnePlatform` as evidently intended, with `.catch(reject)` on the database promise
   * as the other operations have: a failed connection rejects with its error.
   */
  function UpdateOnePlatformCorrected(platformId: string, metadata: Props, idError: Option<Props>,
                                      connectError: Option<Props>, openError: Option<Props>,
                                      update: Props -> Result<Props, Props>): (r: Result<Props, Props>)
    ensures !IdMismatch(platformId, metadata) && idError.None? && connectError.Some? ==> r == Failure(connectError.value)
    ensures !(!IdMismatch(platformId, metadata) && idError.None? && connectError.Some?) ==>
      Settled(r) == UpdateOnePlatform(platformId, metadata, idError, connectError, openError, update)
  {
    if !IdMismatch(platformId, metadata) && idError.None? && connectError.Some? then Failure(connectError.value)
    else UpdateOnePlatform(platformId, metadata, idError, connectError, openError, update).result
  }

  /**
   * With the correction, a refused connection during an update reaches the client as a 500
   * that suggests MongoDB is not running.
   */
  lemma UpdateCorrectedReportsDatabaseDown(platformId: string, metadata: Props, connectError: Props,
                                           openError: Option<Props>, update: Props -> Result<Props, Props>)
    requires !IdMismatch(platformId, metadata)
    requires ErrorRoute.IsMongoError(connectError) && Get(connectError, "message").Str?
    requires Includes(Get(connectError, "message").s, "ECONNREFUSED")
    ensures var r := UpdateOnePlatformCorrected(platformId, metadata, None, Some(connectError), openError, update);
      r.Failure? && ErrorRoute.SendError(r.error).Success? && ErrorRoute.SendError(r.error).value.status == 500
  {
  }

  /**
   * Metadata read back from a platform, carrying its own `_id` and its streams list, updates
   * that platform without touching either.
   */
  lemma UpdateWithOwnIdGoesThrough(platformId: string, metadata: Props, update: Props -> Result<Props, Props>)
    requires Get(metadata, "_id") == Str(platformId)
    ensures UpdateOnePlatform(platformId, metadata, None, None, None, update) == Settled(update(SetDocument(metadata)))
    ensures "_id" !in SetDocument(metadata) && "streams" !in SetDocument(metadata)
  {
  }

  /** As written, a mismatch reaches the client as a 400 whose body says nothing of it. */
  lemma MismatchDetailsLost()
    ensures var reply := ErrorRoute.SendError(MismatchError);
      reply.Success? && reply.value.status == 400
      && reply.value.body.value["message"] == Str("[object Object]")
      && "description" !in reply.value.body.value
  {
  }

  /** With the intended error, the client is told of the mismatch and of both ids. */
  lemma MismatchCorrectedReported(platformId: string, idText: string)
    ensures var reply := ErrorRoute.SendError(MismatchErrorCorrected(platformId, idText));
      reply.Success? && reply.value.status == 400
      && reply.value.body.value["message"] == Str("Mismatch in platformID")
      && reply.value.body.value["description"] == Str(platformId + " vs " + idText)
  {
  }

  // ---------------------------------------------------------------------------
  // deleteOnePlatform
  // ---------------------------------------------------------------------------

  /** The result reported when nothing was deleted: `{ok: 1, n: 0}`. */
  const NothingDeleted: JsVal := Obj(map["ok" := Num(Finite(1.0)), "n" := Num(Finite(0.0))])

  /**
   * What the platform step resolves with when the platform collection does not exist: the
   * reply `{result: {ok: 1, n: 0}}`, shaped like a delete's, whose `result` is then reported.
   */
  const MissingCollectionReply: Props := map["result" := NothingDeleted]

  /**
   * `deleteOnePlatform(platformID)`: an id that is not an ObjectID rejects, and so does a
   * database connection that failed (`connectError`). Otherwise the call succeeds: a missing
   * platform collection or a failed delete reports `{ok: 1, n: 0}`, and a delete that went
   * through reports the driver's `result`. Dropping the locations collection cannot fail the
   * call.
   */
  function DeleteOnePlatform(platformId: string, idError: Option<Props>, connectError: Option<Props>,
                             metadataPresent: bool, deleteOne: Result<Props, Props>): (r: Result<JsVal, Props>)
    ensures r.Failure? <==> idError.Some? || connectError.Some?
    ensures idError.Some? ==> r == Failure(BadIdError(platformId, idError.value))
    ensures idError.None? && connectError.Some? ==> r == Failure(connectError.value)
    ensures idError.None? && connectError.None? && (!metadataPresent || deleteOne.Failure?) ==> r == Success(NothingDeleted)
    ensures idError.None? && connectError.None? && metadataPresent && deleteOne.Success? ==>
      r == Success(Get(deleteOne.value, "result"))
  {
    if idError.Some? then Failure(BadIdError(platformId, idError.value))
    else if connectError.Some? then Failure(connectError.value)
    else if !metadataPresent then Success(Get(MissingCollectionReply, "result"))
    else match deleteOne
      case Failure(_) => Success(NothingDeleted)
      case Success(reply) => Success(Get(reply, "result"))
  }

  /**
   * Deleting a platform with a valid id while the database refuses connections reaches the
   * client as a 500 that suggests MongoDB is not running.
   */
  lemma DeleteReportsDatabaseDown(platformId: string, connectError: Props, metadataPresent: bool,
                                  deleteOne: Result<Props, Props>)
    requires ErrorRoute.IsMongoError(connectError) && Get(connectError, "message").Str?
    requires Includes(Get(connectError, "message").s, "ECONNREFUSED")
    ensures var r := DeleteOnePlatform(platformId, None, Some(connectError), metadataPresent, deleteOne);
      r.Failure? && ErrorRoute.SendError(r.error).Success? && ErrorRoute.SendError(r.error).value.status == 500
  {
  }

  // ---------------------------------------------------------------------------
  // insertOneLocation
  // ---------------------------------------------------------------------------

  /** The checks `insertOneLocation` makes, in order: a timestamp is required, an `_id` refused. */
  function LocationCheck(locrec: Props): (err: Option<Props>)
    ensures err.None? <==> !Get(locrec, "timestamp").Undefined? && Get(locrec, "_id").Undefined?
    ensures Get(locrec, "timestamp").Undefined? ==> err == Some(PlainError("No timestamp in location record"))
    ensures !Get(locrec, "timestamp").Undefined? && !Get(locrec, "_id").Undefined? ==>
      err == Some(PlainError("Field _id is already defined"))
  {
    if Get(locrec, "timestamp").Undefined? then Some(PlainError("No timestamp in location record"))
    else if !Get(locrec, "_id").Undefined? then Some(PlainError("Field _id is already defined"))
    else None
  }

  /**
   * What `insertOneLocation(platformID, locrec)` settles with: a rejection from the checks,
   * the driver's error when the insert fails, and otherwise the stored document turned back
   * into a location record.
   */
  function InsertedLocation(locrec: Props, insert: Props -> Option<Props>): (r: Result<Props, Props>)
    ensures LocationCheck(locrec).Some? ==> r == Failure(LocationCheck(locrec).value)
    ensures LocationCheck(locrec).None? ==>
      (r.Success? <==> insert(DbTools.StoredForm(locrec)).None?)
      && (r.Failure? ==> r.error == insert(DbTools.StoredForm(locrec)).value)
    ensures r.Success? ==>
      && r.value.Keys == locrec.Keys - {"_id"}
      && r.value["timestamp"] == Num(NewDate(locrec["timestamp"]).time)
      && forall k :: k in locrec && k != "timestamp" && k != "_id" ==> r.value[k] == locrec[k]
  {
    match LocationCheck(locrec)
    case Some(err) => Failure(err)
    case None =>
      var stored := DbTools.StoredForm(locrec);
      match insert(stored)
      case Some(err) => Failure(err)
      case None => Success(DbTools.ApiForm(stored).value)
  }

  /**
   * `insertOneLocation(platformID, locrec)`: once the checks pass, the caller's record is
   * renamed in place to its stored form; a successful insert renames the same object back.
   */
  method InsertOneLocation(locrec: JsObject, insert: Props -> Option<Props>) returns (r: Result<Props, Props>)
    modifies locrec
    ensures r == InsertedLocation(old(locrec.props), insert)
    ensures LocationCheck(old(locrec.props)).Some? ==> locrec.props == old(locrec.props)
    ensures LocationCheck(old(locrec.props)).None? && r.Failure? ==> locrec.props == DbTools.StoredForm(old(locrec.props))
    ensures r.Success? ==> locrec.props == r.value
  {
    var check := LocationCheck(locrec.props);
    if check.Some? {
      return Failure(check.value);
    }
    locrec.props := DbTools.StoredForm(locrec.props);
    var err := insert(locrec.props);
    if err.Some? {
      return Failure(err.value);
    }
    // `result.ops[0]` is the inserted document itself: the caller's record
    var restored := DbTools.ApiForm(locrec.props);
    locrec.props := restored.value;
    return Success(locrec.props);
  }

  /** A location record with an in-range integer timestamp and no `_id` round-trips unchanged. */
  lemma InsertedLocationRoundTrip(locrec: Props, insert: Props -> Option<Props>)
    requires "timestamp" in locrec && IsTimeValue(locrec["timestamp"]) && "_id" !in locrec
    requires insert(DbTools.StoredForm(locrec)).None?
    ensures InsertedLocation(locrec, insert) == Success(locrec)
  {
    DbTools.StoredFormRoundTrip(locrec);
  }
}
