/**
 * `POST /api/owner/submit`: owner intake as a JSON API route.
 *
 * Where a photo's bytes go (blob storage, a local file or a data URL) is the
 * storage collaborator `upload`: given the file and its derived file name it
 * yields the URL that is recorded. The submission id (built from the clock
 * and a random number) and the time of the write are parameters.
 */
module OwnerSubmitRoute {
  import opened Wrappers
  import opened OwnerIntake
  import Store

  datatype Body = ErrorBody(error: string) | SuccessBody
  datatype Response = Response(status: nat, body: Body)

  const UnavailableMessage := "Database is unavailable. Please try again later."
  const FailedMessage := "Failed to submit. Please try again."

  /**
   * The JSON answer: 400 with the check's message when a check fails; 503
   * when a write failed for lack of a database connection and 500 for any
   * other failure; 200 `{success: true}` when both rows were written.
   */
  function RouteResponse(o: IntakeOutcome): (r: Response)
    ensures r.status == 200 <==> o.Submitted?
    ensures r.status == 200 <==> r.body.SuccessBody?
    ensures o.Rejected? ==> r == Response(400, ErrorBody(o.message))
    ensures o.StoreFailed? && IsConnectivityError(o.cause) ==> r == Response(503, ErrorBody(UnavailableMessage))
    ensures o.StoreFailed? && !IsConnectivityError(o.cause) ==> r == Response(500, ErrorBody(FailedMessage))
  {
    match o
    case Rejected(message) => Response(400, ErrorBody(message))
    case StoreFailed(cause, _) =>
      if IsConnectivityError(cause) then Response(503, ErrorBody(UnavailableMessage))
      else Response(500, ErrorBody(FailedMessage))
    case Submitted => Response(200, SuccessBody)
  }

  /** The URL recorded for each valid photo, in order: the upload of the photo under its file name. */
  function RouteUrls(id: string, valid: seq<Photo>, upload: (Photo, string) -> string): (urls: seq<string>)
    ensures |urls| == |valid|
    ensures forall i :: 0 <= i < |valid| ==> urls[i] == upload(valid[i], PhotoFileNames(id, valid)[i])
  {
    var names := PhotoFileNames(id, valid);
    seq(|valid|, i requires 0 <= i < |valid| => upload(valid[i], names[i]))
  }

  /**
   * The upload loop: each valid photo in turn is stored under its file name
   * (`names[i]`, which the handler derives as `${id}-${i}${ext}`) and the URL
   * it yields is pushed.
   */
  method UploadPhotos(valid: seq<Photo>, names: seq<string>, upload: (Photo, string) -> string)
    returns (photoUrls: seq<string>)
    requires |names| == |valid|
    ensures |photoUrls| == |valid|
    ensures forall i :: 0 <= i < |valid| ==> photoUrls[i] == upload(valid[i], names[i])
  {
    photoUrls := [];
    for i := 0 to |valid|
      invariant |photoUrls| == i
      invariant forall k :: 0 <= k < i ==> photoUrls[k] == upload(valid[k], names[k])
    {
      photoUrls := photoUrls + [upload(valid[i], names[i])];
    }
  }

  /** URLs that are the uploads of the valid photos under their file names, in order, are the recorded URLs. */
  lemma UploadedAreRouteUrls(id: string, valid: seq<Photo>, upload: (Photo, string) -> string, urls: seq<string>)
    requires |urls| == |valid|
    requires forall i :: 0 <= i < |valid| ==> urls[i] == upload(valid[i], PhotoFileNames(id, valid)[i])
    ensures urls == RouteUrls(id, valid, upload)
  {
  }

  /**
   * The handler. `propertyFault` and `projectFault` are the messages the two
   * writes throw, if they throw. A rejected submission writes nothing; a
   * successful one adds exactly one PENDING_REVIEW Property holding one URL
   * per valid photo and exactly one INTAKE Project pointing at it. The two
   * writes are separate: when the second throws, the Property stays.
   */
  method Post(db: Store.Database, form: IntakeForm, photos: seq<Photo>, id: string,
              upload: (Photo, string) -> string, isEmail: string -> bool, toNumber: string -> JsNumber,
              propertyFault: Option<string>, projectFault: Option<string>, now: int)
    returns (res: Response)
    requires db.Valid()
    modifies db`properties, db`projects, db`nextSeq
    ensures db.Valid()
    ensures res == RouteResponse(Outcome(form, photos, isEmail, toNumber, propertyFault, projectFault))
    ensures Outcome(form, photos, isEmail, toNumber, propertyFault, projectFault).Rejected? ==>
      db.properties == old(db.properties) && db.projects == old(db.projects)
    ensures !Outcome(form, photos, isEmail, toNumber, propertyFault, projectFault).Rejected? ==>
      Recorded(Outcome(form, photos, isEmail, toNumber, propertyFault, projectFault),
               old(db.properties), old(db.projects), old(db.nextSeq), db.properties, db.projects,
               ParseIntake(form, isEmail, toNumber).value, RouteUrls(id, CheckPhotos(photos).value, upload), now)
  {
    var parsed := ParseIntake(form, isEmail, toNumber);
    if parsed.Err? {
      return Response(400, ErrorBody(parsed.error));
    }
    var checked := CheckPhotos(photos);
    if checked.Err? {
      return Response(400, ErrorBody(checked.error));
    }
    var names := PhotoFileNames(id, checked.value);
    var photoUrls := UploadPhotos(checked.value, names, upload);
    UploadedAreRouteUrls(id, checked.value, upload, photoUrls);
    OutcomeOfChecked(form, photos, isEmail, toNumber, propertyFault, projectFault);
    var o := RecordIntake(db, parsed.value, photoUrls, propertyFault, projectFault, now);
    res := RouteResponse(o);
  }
}
