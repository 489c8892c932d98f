/**
 * The owner intake rules that the API route (src/app/api/owner/submit/route.ts)
 * and the server action (src/app/owner/submit/actions.ts) each define, word
 * for word the same: the form schema with its messages, the photo checks, the
 * photo file names, the record that is stored, and the classification of a
 * store failure. The two handlers differ only in where a photo goes and in
 * the shape of their answer; see OwnerSubmitRoute and OwnerSubmitAction.
 *
 * External collaborators are parameters: `isEmail` is the schema library's
 * e-mail check and `toNumber` is JavaScript's `Number(…)` conversion of a
 * string, which `z.coerce.number()` applies.
 */
module OwnerIntake {
  import opened Wrappers
  import opened Text
  import Query
  import Store

  /** A JavaScript number after coercion: NaN, or a finite value. */
  datatype JsNumber = NaN | Num(value: real)

  /** The form fields as `formData.get` returns them: the text, or null when the field is absent. */
  datatype IntakeForm = IntakeForm(
    ownerName: Option<string>, ownerEmail: Option<string>, title: Option<string>,
    description: Option<string>, address: Option<string>,
    baseNightlyRate: Option<string>, maxGuests: Option<string>, consent: Option<string>)

  /** What a successful parse yields. */
  datatype IntakeFields = IntakeFields(
    ownerName: string, ownerEmail: string, title: string, description: string, address: string,
    baseNightlyRate: int, maxGuests: int)

  /** An uploaded file: its name, its size in bytes and its MIME type. */
  datatype Photo = Photo(name: string, size: nat, mimeType: string)

  // ---------------------------------------------------------------- schema

  const NullMessage := "Expected string, received null"
  const NotANumberMessage := "Expected number, received nan"
  const NotAnIntegerMessage := "Expected integer, received float"
  const InvalidEmailMessage := "Invalid email"
  const ConsentMessage := "You must agree to the terms."
  const ValidationFallback := "Validation failed"

  /** A string field is present and its length lies in `1..max`. */
  predicate TextWithin(v: Option<string>, max: nat) {
    v.Some? && 1 <= |v.value| <= max
  }

  predicate IsInteger(x: real) {
    x.Floor as real == x
  }

  /** A coerced number is an integer in `min..max` (no upper bound when `max` is None). */
  predicate WholeWithin(n: JsNumber, min: int, max: Option<int>) {
    n.Num? && IsInteger(n.value) && min as real <= n.value && (max.Some? ==> n.value <= max.value as real)
  }

  /** `z.string().min(1, required).max(max)`: the messages for one field, in check order. */
  function TextIssues(v: Option<string>, required: string, max: nat, tooLong: string): (r: seq<string>)
    requires required != [] && tooLong != []
    ensures r == [] <==> TextWithin(v, max)
    ensures forall i :: 0 <= i < |r| ==> r[i] != []
  {
    match v
    case None => [NullMessage]
    case Some(s) => (if |s| < 1 then [required] else []) + (if |s| > max then [tooLong] else [])
  }

  /** `z.string().email("Invalid email")` */
  function EmailIssues(v: Option<string>, isEmail: string -> bool): (r: seq<string>)
    ensures r == [] <==> v.Some? && isEmail(v.value)
    ensures forall i :: 0 <= i < |r| ==> r[i] != []
  {
    match v
    case None => [NullMessage]
    case Some(s) => if isEmail(s) then [] else [InvalidEmailMessage]
  }

  /** `Number(null)` is 0: an absent numeric field coerces to zero. */
  function Coerce(v: Option<string>, toNumber: string -> JsNumber): JsNumber {
    match v
    case None => Num(0.0)
    case Some(s) => toNumber(s)
  }

  /**
   * `z.coerce.number().int().min(1, tooSmall)`, then `.max(limit, tooLarge)`
   * when `max` gives a limit with its message.
   */
  function NumberIssues(n: JsNumber, tooSmall: string, max: Option<(int, string)>): (r: seq<string>)
    requires tooSmall != [] && (max.Some? ==> max.value.1 != [])
    ensures r == [] <==> WholeWithin(n, 1, if max.Some? then Some(max.value.0) else None)
    ensures forall i :: 0 <= i < |r| ==> r[i] != []
  {
    match n
    case NaN => [NotANumberMessage]
    case Num(x) =>
      (if !IsInteger(x) then [NotAnIntegerMessage] else [])
      + (if x < 1.0 then [tooSmall] else [])
      + (if max.Some? && x > max.value.0 as real then [max.value.1] else [])
  }

  /** The form's `consent` box counts as ticked only when its value is exactly "on". */
  predicate Consented(consent: Option<string>) {
    consent == Some("on")
  }

  /** Every message the schema reports, field by field in schema order. */
  function IntakeIssues(form: IntakeForm, isEmail: string -> bool, toNumber: string -> JsNumber): (r: seq<string>)
    ensures forall i :: 0 <= i < |r| ==> r[i] != []
  {
    TextIssues(form.ownerName, "Name is required", 200, "String must contain at most 200 character(s)")
    + EmailIssues(form.ownerEmail, isEmail)
    + TextIssues(form.title, "Property title is required", 200, "String must contain at most 200 character(s)")
    + TextIssues(form.description, "Description is required", 5000, "String must contain at most 5000 character(s)")
    + TextIssues(form.address, "Address is required", 500, "String must contain at most 500 character(s)")
    + NumberIssues(Coerce(form.baseNightlyRate, toNumber), "Nightly rate must be at least 1", None)
    + NumberIssues(Coerce(form.maxGuests, toNumber), "Max guests must be at least 1",
                   Some((50, "Number must be less than or equal to 50")))
    + (if Consented(form.consent) then [] else [ConsentMessage])
  }

  /** The field bounds the schema enforces, stated directly. */
  predicate Acceptable(form: IntakeForm, isEmail: string -> bool, toNumber: string -> JsNumber) {
    && TextWithin(form.ownerName, 200)
    && form.ownerEmail.Some? && isEmail(form.ownerEmail.value)
    && TextWithin(form.title, 200)
    && TextWithin(form.description, 5000)
    && TextWithin(form.address, 500)
    && WholeWithin(Coerce(form.baseNightlyRate, toNumber), 1, None)
    && WholeWithin(Coerce(form.maxGuests, toNumber), 1, Some(50))
    && form.consent == Some("on")
  }

  /**
   * `ownerIntakeSchema.safeParse`, with the error flattened to one message.
   * It succeeds exactly when every bound holds, and then yields the fields
   * unchanged; on failure the message is the reported messages joined by
   * spaces, which is never empty, so the "Validation failed" fallback is
   * never the answer.
   */
  function ParseIntake(form: IntakeForm, isEmail: string -> bool, toNumber: string -> JsNumber)
    : (r: Result<IntakeFields, string>)
    ensures r.Ok? <==> Acceptable(form, isEmail, toNumber)
    ensures r.Ok? ==>
      && r.value.ownerName == form.ownerName.value && r.value.ownerEmail == form.ownerEmail.value
      && r.value.title == form.title.value && r.value.description == form.description.value
      && r.value.address == form.address.value
      && r.value.baseNightlyRate as real == Coerce(form.baseNightlyRate, toNumber).value
      && r.value.maxGuests as real == Coerce(form.maxGuests, toNumber).value
      && r.value.baseNightlyRate >= 1 && 1 <= r.value.maxGuests <= 50
    ensures r.Err? ==> r.error == Join(IntakeIssues(form, isEmail, toNumber), " ") && r.error != []
  {
    var issues := IntakeIssues(form, isEmail, toNumber);
    assert issues != [] ==> StartsWith(Join(issues, " "), issues[0]);
    if issues == [] then
      Ok(IntakeFields(
        form.ownerName.value, form.ownerEmail.value, form.title.value, form.description.value,
        form.address.value,
        Coerce(form.baseNightlyRate, toNumber).value.Floor, Coerce(form.maxGuests, toNumber).value.Floor))
    else
      Err(OrElse(Join(issues, " "), ValidationFallback))
  }

  // ---------------------------------------------------------------- photos

  const FourMiB: nat := 4 * 1024 * 1024
  const PhotoRequiredMessage := "At least one photo is required."
  const PhotosTooLargeMessage := "Total photo size must be under 4MB. Try smaller or fewer images."

  predicate NonEmptyFile(f: Photo) {
    f.size > 0
  }

  /** `photos.filter((f) => f.size > 0)` */
  function ValidPhotos(photos: seq<Photo>): seq<Photo> {
    Query.Where(photos, NonEmptyFile)
  }

  /** `validPhotos.reduce((sum, f) => sum + f.size, 0)` */
  function TotalSize(photos: seq<Photo>): nat {
    if photos == [] then 0 else photos[0].size + TotalSize(photos[1..])
  }

  /**
   * The photo checks: at least one non-empty file, and at most 4 MiB in all
   * (exactly 4 MiB passes). Zero-byte files are dropped and the rest kept.
   */
  function CheckPhotos(photos: seq<Photo>): (r: Result<seq<Photo>, string>)
    ensures r.Ok? <==> (exists i :: 0 <= i < |photos| && photos[i].size > 0)
                       && TotalSize(ValidPhotos(photos)) <= FourMiB
    ensures r.Ok? ==> r.value == ValidPhotos(photos) && r.value != []
    ensures r.Err? && r.error == PhotoRequiredMessage <==> forall i :: 0 <= i < |photos| ==> photos[i].size == 0
    ensures r.Err? ==> r.error == PhotoRequiredMessage || r.error == PhotosTooLargeMessage
  {
    if |photos| == 0 || (|photos| == 1 && photos[0].size == 0) then
      Err(PhotoRequiredMessage)
    else
      var valid := ValidPhotos(photos);
      if valid == [] then
        Err(PhotoRequiredMessage)
      else
        assert valid[0] in photos;
        if TotalSize(valid) > FourMiB then Err(PhotosTooLargeMessage) else Ok(valid)
  }

  // ---------------------------------------------------------------- file names

  /** The index of the last occurrence of `c` in `s`. */
  function LastIndexOf(s: string, c: char): (r: Option<nat>)
    ensures r.Some? ==> r.value < |s| && s[r.value] == c && forall j :: r.value < j < |s| ==> s[j] != c
    ensures r.None? ==> forall j :: 0 <= j < |s| ==> s[j] != c
  {
    if s == [] then None
    else if s[|s| - 1] == c then Some(|s| - 1)
    else LastIndexOf(s[..|s| - 1], c)
  }

  /** `path` without its trailing slashes. */
  function StripTrailingSlashes(path: string): (r: string)
    ensures |r| <= |path| && r == path[..|r|]
    ensures r == [] || r[|r| - 1] != '/'
  {
    if path != [] && path[|path| - 1] == '/' then StripTrailingSlashes(path[..|path| - 1]) else path
  }

  /** The last segment of a POSIX path. */
  function LastSegment(path: string): (r: string)
    ensures forall j :: 0 <= j < |r| ==> r[j] != '/'
  {
    var p := StripTrailingSlashes(path);
    match LastIndexOf(p, '/')
    case None => p
    case Some(k) => p[k + 1..]
  }

  /**
   * Node's POSIX `path.extname`: from the last dot of the last segment to
   * its end (a tail of the segment that starts with a dot and holds no other
   * one); empty when the segment has no dot after its first character
   * (".bashrc", "photo"), and for "..".
   */
  function ExtName(path: string): (e: string)
    ensures |e| <= |LastSegment(path)| && e == LastSegment(path)[|LastSegment(path)| - |e|..]
    ensures e == [] || e[0] == '.'
    ensures forall j :: 1 <= j < |e| ==> e[j] != '.' && e[j] != '/'
    ensures e == [] <==>
      LastSegment(path) == ".." || forall j :: 0 < j < |LastSegment(path)| ==> LastSegment(path)[j] != '.'
  {
    var part := LastSegment(path);
    match LastIndexOf(part, '.')
    case None => ""
    case Some(k) => if k == 0 || part == ".." then "" else part[k..]
  }

  /** `path.extname(file.name) || ".jpg"`: always starts with a dot. */
  function PhotoExt(name: string): (e: string)
    ensures |e| >= 1 && e[0] == '.'
    ensures ExtName(name) != [] ==> e == ExtName(name)
    ensures ExtName(name) == [] ==> e == ".jpg"
  {
    OrElse(ExtName(name), ".jpg")
  }

  /** `${id}-${i}${ext}` */
  function PhotoFileName(id: string, i: nat, name: string): string {
    id + "-" + NatText(i) + PhotoExt(name)
  }

  /** The file names of the valid photos, one per photo, in order. */
  function PhotoFileNames(id: string, valid: seq<Photo>): (names: seq<string>)
    ensures |names| == |valid|
    ensures forall i :: 0 <= i < |valid| ==> StartsWith(names[i], id + "-")
  {
    seq(|valid|, i requires 0 <= i < |valid| => PhotoFileName(id, i, valid[i].name))
  }

  /** A run of digits followed by a dot-led suffix: the digits are determined by the whole. */
  lemma DigitsBeforeDot(d1: string, e1: string, d2: string, e2: string)
    requires forall k :: 0 <= k < |d1| ==> IsDigit(d1[k])
    requires forall k :: 0 <= k < |d2| ==> IsDigit(d2[k])
    requires |e1| >= 1 && e1[0] == '.' && |e2| >= 1 && e2[0] == '.'
    requires d1 + e1 == d2 + e2
    ensures d1 == d2
  {
    var w := d1 + e1;
    assert w[|d1|] == '.' && w[|d2|] == '.';
    assert forall k :: 0 <= k < |d1| ==> IsDigit(w[k]);
    assert forall k :: 0 <= k < |d2| ==> IsDigit(w[k]);
    assert d1 == w[..|d1|] == d2;
  }

  lemma DropPrefix(p: string, x: string, y: string)
    requires p + x == p + y
    ensures x == y
  {
    assert x == (p + x)[|p|..];
    assert y == (p + y)[|p|..];
  }

  /** A name built as prefix, index and extension loses the prefix whole. */
  lemma CancelPrefix(p: string, x: string, e: string, y: string, f: string)
    requires p + x + e == p + y + f
    ensures x + e == y + f
  {
    assert x + e == (p + x + e)[|p|..];
    assert y + f == (p + y + f)[|p|..];
  }

  /** Two photos of one submission never share a file name: the index decides it. */
  lemma PhotoFileNamesDistinct(id: string, i: nat, j: nat, a: string, b: string)
    requires PhotoFileName(id, i, a) == PhotoFileName(id, j, b)
    ensures i == j
  {
    var di, dj, ea, eb := NatText(i), NatText(j), PhotoExt(a), PhotoExt(b);
    CancelPrefix(id + "-", di, ea, dj, eb);
    DigitsBeforeDot(di, ea, dj, eb);
    NatTextInjective(i, j);
  }

  // ---------------------------------------------------------------- storing

  /** The Property row a submission creates. */
  function NewProperty(fields: IntakeFields, photoUrls: seq<string>): (p: Store.Property)
    ensures p.status == Store.PendingReview && p.photos == photoUrls
  {
    Store.Property(fields.ownerName, fields.ownerEmail, fields.title, fields.description, fields.address,
                   photoUrls, Store.PendingReview, fields.baseNightlyRate, fields.maxGuests)
  }

  /** The thrown message names a connection failure to the database. */
  function IsConnectivityError(message: string): (b: bool)
    ensures b <==> (exists i :: OccursAt(message, "Can't reach database server", i))
                   || (exists i :: OccursAt(message, "P1001", i))
  {
    IncludesIff(message, "Can't reach database server");
    IncludesIff(message, "P1001");
    Includes(message, "Can't reach database server") || Includes(message, "P1001")
  }

  /**
   * How a submission ends, before either handler phrases its answer.
   * `Rejected`: a validation or photo check failed and nothing was written.
   * `StoreFailed`: a write threw `cause`; `propertyCreated` says whether the
   * Property row had already been written (the two writes are not in one
   * transaction). `Submitted`: both rows were written.
   */
  datatype IntakeOutcome = Rejected(message: string) | StoreFailed(cause: string, propertyCreated: bool) | Submitted

  /**
   * The checks in the handlers' order: schema, then photos, then the
   * Property write (`propertyFault` is what it throws, if anything), then the
   * Project write (`projectFault`).
   */
  function Outcome(form: IntakeForm, photos: seq<Photo>, isEmail: string -> bool, toNumber: string -> JsNumber,
                   propertyFault: Option<string>, projectFault: Option<string>): (o: IntakeOutcome)
    ensures o.Rejected? <==> !Acceptable(form, isEmail, toNumber) || CheckPhotos(photos).Err?
    ensures o.Rejected? && Acceptable(form, isEmail, toNumber) ==> o.message == CheckPhotos(photos).error
    ensures o.Rejected? && !Acceptable(form, isEmail, toNumber) ==> o.message == ParseIntake(form, isEmail, toNumber).error
    ensures o.Submitted? <==> !o.Rejected? && propertyFault.None? && projectFault.None?
    ensures o.StoreFailed? ==> (o.propertyCreated <==> propertyFault.None?)
  {
    match ParseIntake(form, isEmail, toNumber)
    case Err(message) => Rejected(message)
    case Ok(_) =>
      match CheckPhotos(photos)
      case Err(message) => Rejected(message)
      case Ok(_) => StoreOutcome(propertyFault, projectFault)
  }

  /** Once both checks pass, the outcome is decided by the two writes alone. */
  lemma OutcomeOfChecked(form: IntakeForm, photos: seq<Photo>, isEmail: string -> bool, toNumber: string -> JsNumber,
                         propertyFault: Option<string>, projectFault: Option<string>)
    requires ParseIntake(form, isEmail, toNumber).Ok? && CheckPhotos(photos).Ok?
    ensures Outcome(form, photos, isEmail, toNumber, propertyFault, projectFault) == StoreOutcome(propertyFault, projectFault)
  {
  }

  /** How the two writes end: the Property write first, then the Project write. */
  function StoreOutcome(propertyFault: Option<string>, projectFault: Option<string>): (o: IntakeOutcome)
    ensures !o.Rejected?
    ensures o.Submitted? <==> propertyFault.None? && projectFault.None?
    ensures o.StoreFailed? ==> (o.propertyCreated <==> propertyFault.None?)
    ensures o.StoreFailed? ==> o.cause == (if propertyFault.Some? then propertyFault.value else projectFault.value)
  {
    if propertyFault.Some? then StoreFailed(propertyFault.value, false)
    else if projectFault.Some? then StoreFailed(projectFault.value, true)
    else Submitted
  }

  /**
   * The tables after the writes ended in `o`: when the Property write
   * succeeded, the tables gain one PENDING_REVIEW Property under the next
   * fresh id and, when the Project write succeeded too, one INTAKE Project
   * under the id after it pointing at that Property; nothing else changes.
   */
  ghost predicate Recorded(o: IntakeOutcome,
                           properties0: map<Store.Id, Store.Property>, projects0: map<Store.Id, Store.Project>, seq0: nat,
                           properties: map<Store.Id, Store.Property>, projects: map<Store.Id, Store.Project>,
                           fields: IntakeFields, photoUrls: seq<string>, now: int)
  {
    if o.Submitted? || (o.StoreFailed? && o.propertyCreated) then
      var propertyId := Store.MintId(seq0);
      && propertyId !in properties0
      && properties == properties0[propertyId := NewProperty(fields, photoUrls)]
      && (o.StoreFailed? ==> projects == projects0)
      && (o.Submitted? ==>
            var projectId := Store.MintId(seq0 + 1);
            && projectId !in projects0
            && projects == projects0[projectId := Store.Project(propertyId, Store.Intake, now)])
    else
      properties == properties0 && projects == projects0
  }

  /**
   * The two writes both handlers make once the checks pass: one
   * PENDING_REVIEW Property holding the photo URLs, then one INTAKE Project
   * pointing at it. They are not one transaction: when the Project write
   * throws, the Property stays.
   */
  method RecordIntake(db: Store.Database, fields: IntakeFields, photoUrls: seq<string>,
                      propertyFault: Option<string>, projectFault: Option<string>, now: int)
    returns (o: IntakeOutcome)
    requires db.Valid()
    modifies db`properties, db`projects, db`nextSeq
    ensures db.Valid()
    ensures o == StoreOutcome(propertyFault, projectFault)
    ensures Recorded(o, old(db.properties), old(db.projects), old(db.nextSeq), db.properties, db.projects, fields, photoUrls, now)
  {
    if propertyFault.Some? {
      return StoreFailed(propertyFault.value, false);
    }
    var propertyId := db.InsertProperty(NewProperty(fields, photoUrls));
    if projectFault.Some? {
      return StoreFailed(projectFault.value, true);
    }
    var projectId := db.InsertProject(Store.Project(propertyId, Store.Intake, now));
    o := Submitted;
  }
}
