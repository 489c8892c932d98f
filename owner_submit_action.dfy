/**
 * `submitOwnerIntake`: owner intake as a server action. Same checks and
 * writes as the API route; photos are written under `public/uploads`, so
 * each recorded URL is `/uploads/<file name>`, and the answer is a state
 * object rather than an HTTP response. The directory and file writes
 * themselves are not modelled.
 */
module OwnerSubmitAction {
  import opened Wrappers
  import opened Text
  import opened OwnerIntake
  import Store
  import OwnerSubmitRoute

  /** `{ error?: string; success?: boolean }` */
  datatype IntakeState = IntakeState(error: Option<string>, success: Option<bool>)

  /**
   * The action's answer: the check's message when a check fails, the
   * "unavailable" message for a connectivity failure, the generic message for
   * any other failure, and `{success: true}` when both rows were written.
   */
  function ActionState(o: IntakeOutcome): (s: IntakeState)
    ensures s.success == Some(true) <==> o.Submitted?
    ensures s.success.None? <==> s.error.Some?
    ensures o.Rejected? ==> s.error == Some(o.message)
    ensures o.StoreFailed? ==> s.error == Some(if IsConnectivityError(o.cause)
                                               then OwnerSubmitRoute.UnavailableMessage
                                               else OwnerSubmitRoute.FailedMessage)
  {
    match o
    case Rejected(message) => IntakeState(Some(message), None)
    case StoreFailed(cause, _) =>
      if IsConnectivityError(cause) then IntakeState(Some(OwnerSubmitRoute.UnavailableMessage), None)
      else IntakeState(Some(OwnerSubmitRoute.FailedMessage), None)
    case Submitted => IntakeState(None, Some(true))
  }

  /** Both copies give the same verdict: success exactly on a 200, the same message otherwise. */
  lemma ActionAgreesWithRoute(o: IntakeOutcome)
    ensures ActionState(o).success == Some(true) <==> OwnerSubmitRoute.RouteResponse(o).status == 200
    ensures OwnerSubmitRoute.RouteResponse(o).body.ErrorBody? ==>
              ActionState(o).error == Some(OwnerSubmitRoute.RouteResponse(o).body.error)
  {
  }

  /** `/uploads/${filename}` for each valid photo, in order. */
  function LocalUrls(id: string, valid: seq<Photo>): (urls: seq<string>)
    ensures |urls| == |valid|
    ensures forall i :: 0 <= i < |valid| ==> urls[i] == "/uploads/" + PhotoFileNames(id, valid)[i]
  {
    var names := PhotoFileNames(id, valid);
    seq(|valid|, i requires 0 <= i < |valid| => "/uploads/" + names[i])
  }

  /** The URLs of one submission are pairwise distinct. */
  lemma LocalUrlsDistinct(id: string, valid: seq<Photo>, i: nat, j: nat)
    requires i < |valid| && j < |valid| && i != j
    ensures LocalUrls(id, valid)[i] != LocalUrls(id, valid)[j]
  {
    var urls := LocalUrls(id, valid);
    var u := "/uploads/";
    if urls[i] == urls[j] {
      assert urls[i] == u + PhotoFileName(id, i, valid[i].name);
      assert urls[j] == u + PhotoFileName(id, j, valid[j].name);
      DropPrefix(u, PhotoFileName(id, i, valid[i].name), PhotoFileName(id, j, valid[j].name));
      PhotoFileNamesDistinct(id, i, j, valid[i].name, valid[j].name);
    }
  }

  /**
   * The write loop: each valid photo in turn is written under its file name
   * (`names[i]`, which the action derives as `${id}-${i}${ext}`) and its
   * `/uploads/` URL is pushed.
   */
  method WritePhotos(names: seq<string>) returns (photoUrls: seq<string>)
    ensures |photoUrls| == |names|
    ensures forall i :: 0 <= i < |names| ==> photoUrls[i] == "/uploads/" + names[i]
  {
    photoUrls := [];
    for i := 0 to |names|
      invariant |photoUrls| == i
      invariant forall k :: 0 <= k < i ==> photoUrls[k] == "/uploads/" + names[k]
    {
      photoUrls := photoUrls + ["/uploads/" + names[i]];
    }
  }

  /** URLs that are the `/uploads/` paths of the valid photos' file names, in order, are the recorded URLs. */
  lemma WrittenAreLocalUrls(id: string, valid: seq<Photo>, urls: seq<string>)
    requires |urls| == |valid|
    requires forall i :: 0 <= i < |valid| ==> urls[i] == "/uploads/" + PhotoFileNames(id, valid)[i]
    ensures urls == LocalUrls(id, valid)
  {
  }

  /**
   * The action. A rejected submission returns its message before any
   * directory or database write; a successful one adds exactly one
   * PENDING_REVIEW Property and one INTAKE Project pointing at it.
   */
  method SubmitOwnerIntake(db: Store.Database, form: IntakeForm, photos: seq<Photo>, id: string,
                           isEmail: string -> bool, toNumber: string -> JsNumber,
                           propertyFault: Option<string>, projectFault: Option<string>, now: int)
    returns (state: IntakeState)
    requires db.Valid()
    modifies db`properties, db`projects, db`nextSeq
    ensures db.Valid()
    ensures state == ActionState(Outcome(form, photos, isEmail, toNumber, propertyFault, projectFault))
    ensures Outcome(form, photos, isEmail, toNumber, propertyFault, projectFault).Rejected? ==>
      db.properties == old(db.properties) && db.projects == old(db.projects)
    ensures !Outcome(form, photos, isEmail, toNumber, propertyFault, projectFault).Rejected? ==>
      Recorded(Outcome(form, photos, isEmail, toNumber, propertyFault, projectFault),
               old(db.properties), old(db.projects), old(db.nextSeq), db.properties, db.projects,
               ParseIntake(form, isEmail, toNumber).value, LocalUrls(id, CheckPhotos(photos).value), now)
  {
    var parsed := ParseIntake(form, isEmail, toNumber);
    if parsed.Err? {
      return IntakeState(Some(parsed.error), None);
    }
    var checked := CheckPhotos(photos);
    if checked.Err? {
      return IntakeState(Some(checked.error), None);
    }
    var names := PhotoFileNames(id, checked.value);
    var photoUrls := WritePhotos(names);
    WrittenAreLocalUrls(id, checked.value, photoUrls);
    OutcomeOfChecked(form, photos, isEmail, toNumber, propertyFault, projectFault);
    var o := RecordIntake(db, parsed.value, photoUrls, propertyFault, projectFault, now);
    state := ActionState(o);
  }
}
