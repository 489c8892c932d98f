/**
 * `applyToProject`: a freelancer applies to a project that is waiting for
 * one. The form is checked, the project must be open, the freelancer's user
 * and profile are looked up by e-mail and created when missing, and one
 * application per project and freelancer is recorded.
 *
 * `isEmail` is the schema library's e-mail check. A store failure is not
 * caught by the action; the model has none.
 */
module FreelancerApply {
  import opened Wrappers
  import opened Text
  import opened Store
  import OwnerIntake

  /** The form fields as `formData.get` returns them: the text, or null when the field is absent. */
  datatype ApplyForm = ApplyForm(projectId: Option<string>, name: Option<string>, email: Option<string>,
                                 message: Option<string>)

  /** What a successful parse yields. */
  datatype ApplyFields = ApplyFields(projectId: string, name: string, email: string, message: string)

  /** `{ error?: string; success?: boolean }` */
  datatype ApplyState = ApplyState(error: Option<string>, success: Option<bool>)

  const AtLeastOneMessage := "String must contain at least 1 character(s)"
  const NameTooLongMessage := "String must contain at most 200 character(s)"
  const MessageTooLongMessage := "String must contain at most 2000 character(s)"
  const InvalidInputFallback := "Invalid input"
  const NotOpenMessage := "Project is not open for applications."
  const AlreadyAppliedMessage := "You have already applied to this project."

  // ---------------------------------------------------------------- schema

  /** `z.string().min(1)` with the library's own message. */
  function ProjectIdIssues(v: Option<string>): (r: seq<string>)
    ensures r == [] <==> v.Some? && v.value != []
    ensures forall i :: 0 <= i < |r| ==> r[i] != []
  {
    match v
    case None => [OwnerIntake.NullMessage]
    case Some(s) => if s == [] then [AtLeastOneMessage] else []
  }

  /**
   * `z.string().max(2000).optional()`. Optional admits an undefined value,
   * but an absent form field is null, which is refused like any non-string.
   */
  function MessageIssues(v: Option<string>): (r: seq<string>)
    ensures r == [] <==> v.Some? && |v.value| <= 2000
    ensures forall i :: 0 <= i < |r| ==> r[i] != []
  {
    match v
    case None => [OwnerIntake.NullMessage]
    case Some(s) => if |s| > 2000 then [MessageTooLongMessage] else []
  }

  /** Every message the schema reports, field by field in schema order. */
  function ApplyIssues(form: ApplyForm, isEmail: string -> bool): (r: seq<string>)
    ensures forall i :: 0 <= i < |r| ==> r[i] != []
  {
    ProjectIdIssues(form.projectId)
    + OwnerIntake.TextIssues(form.name, "Name is required", 200, NameTooLongMessage)
    + OwnerIntake.EmailIssues(form.email, isEmail)
    + MessageIssues(form.message)
  }

  /** The field bounds the schema enforces, stated directly. */
  predicate ApplyAcceptable(form: ApplyForm, isEmail: string -> bool) {
    && form.projectId.Some? && form.projectId.value != []
    && form.name.Some? && 1 <= |form.name.value| <= 200
    && form.email.Some? && isEmail(form.email.value)
    && form.message.Some? && |form.message.value| <= 2000
  }

  /**
   * `applySchema.safeParse`, with the error flattened to one message. It
   * succeeds exactly when every bound holds and then yields the fields
   * unchanged (the message included: it is never absent after a successful
   * parse); on failure the message is never empty, so the "Invalid input"
   * fallback is never the answer.
   */
  function ParseApply(form: ApplyForm, isEmail: string -> bool): (r: Result<ApplyFields, string>)
    ensures r.Ok? <==> ApplyAcceptable(form, isEmail)
    ensures r.Ok? ==> r.value == ApplyFields(form.projectId.value, form.name.value, form.email.value,
                                             form.message.value)
    ensures r.Err? ==> r.error == Join(ApplyIssues(form, isEmail), " ") && r.error != []
  {
    var issues := ApplyIssues(form, isEmail);
    assert issues != [] ==> StartsWith(Join(issues, " "), issues[0]);
    if issues == [] then
      Ok(ApplyFields(form.projectId.value, form.name.value, form.email.value, form.message.value))
    else
      Err(OrElse(Join(issues, " "), InvalidInputFallback))
  }

  // ---------------------------------------------------------------- the writes

  /** The tables the action may change, and the id counter. */
  datatype Tables = Tables(
    users: map<Id, User>, profiles: map<Id, FreelancerProfile>,
    applications: map<Id, FreelancerApplication>, nextSeq: nat)

  /** The project exists and is waiting for a freelancer. */
  predicate OpenForApplications(projects: map<Id, Project>, projectId: Id) {
    projectId in projects && projects[projectId].status == WaitingFreelancer
  }

  /** The user found by the normalised e-mail, or a new FREELANCER user; then the counter. */
  ghost function FindOrCreateUser(users: map<Id, User>, email: string, name: string, n: nat)
    : (Id, map<Id, User>, nat)
  {
    if EmailTaken(users, email) then (UserWithEmail(users, email), users, n)
    else (MintId(n), users[MintId(n) := User(email, Some(name), None, Freelancer)], n + 1)
  }

  /** The user's profile, or a new ACTIVE profile with no bio, skills or regions; then the counter. */
  ghost function FindOrCreateProfile(profiles: map<Id, FreelancerProfile>, userId: Id, n: nat)
    : (Id, map<Id, FreelancerProfile>, nat)
  {
    if HasProfile(profiles, userId) then (ProfileOf(profiles, userId), profiles, n)
    else (MintId(n), profiles[MintId(n) := FreelancerProfile(userId, None, [], [], Active)], n + 1)
  }

  /**
   * What the action answers and what the tables hold afterwards. A failed
   * check or a closed project changes nothing; after that the user and the
   * profile are kept even when the application turns out to be a duplicate.
   */
  ghost function Apply(form: ApplyForm, isEmail: string -> bool, projects: map<Id, Project>, t: Tables)
    : (r: (ApplyState, Tables))
    ensures r.0.error.Some? <==> r.0.success.None?
    ensures r.0.success.Some? ==> r.0.success == Some(true)
    ensures r.0.error.Some? ==> r.1.applications == t.applications
    ensures t.nextSeq <= r.1.nextSeq
  {
    match ParseApply(form, isEmail)
    case Err(msg) => (ApplyState(Some(msg), None), t)
    case Ok(f) =>
      if !OpenForApplications(projects, f.projectId) then (ApplyState(Some(NotOpenMessage), None), t)
      else Enroll(f, t)
  }

  /** The part of `Apply` after the checks: find or create the user and profile, then apply once. */
  ghost function Enroll(f: ApplyFields, t: Tables): (ApplyState, Tables) {
    var u := FindOrCreateUser(t.users, NormalizeEmail(f.email), f.name, t.nextSeq);
    var p := FindOrCreateProfile(t.profiles, u.0, u.2);
    var a := ApplyStep(t.applications, FreelancerApplication(f.projectId, p.0, Some(f.message), Applied), p.2);
    (a.0, Tables(u.1, p.1, a.1, a.2))
  }

  /**
   * The duplicate check and the insert: "already applied" with no change
   * when the pair has an application, else the new row under the next id.
   */
  ghost function ApplyStep(applications: map<Id, FreelancerApplication>, a: FreelancerApplication, n: nat)
    : (ApplyState, map<Id, FreelancerApplication>, nat)
  {
    if HasApplied(applications, a.projectId, a.freelancerId) then
      (ApplyState(Some(AlreadyAppliedMessage), None), applications, n)
    else
      (ApplyState(None, Some(true)), applications[MintId(n) := a], n + 1)
  }

  /** The invariants of the tables the action touches. */
  ghost predicate TablesValid(projects: map<Id, Project>, t: Tables) {
    && FreshFrom(t.users.Keys, t.nextSeq)
    && FreshFrom(t.profiles.Keys, t.nextSeq)
    && FreshFrom(t.applications.Keys, t.nextSeq)
    && UniqueEmails(t.users)
    && OneProfilePerUser(t.profiles)
    && ProfilesReferToUsers(t.profiles, t.users)
    && ApplicationsReferToRows(t.applications, projects, t.profiles)
  }

  /** The id of the profile the applicant ends up with, once the form is acceptable. */
  ghost function ApplicantProfile(form: ApplyForm, t: Tables): Id
    requires form.email.Some? && form.name.Some?
  {
    var u := FindOrCreateUser(t.users, NormalizeEmail(form.email.value), form.name.value, t.nextSeq);
    FindOrCreateProfile(t.profiles, u.0, u.2).0
  }

  /**
   * A failed check or a closed project leaves every table as it was and
   * answers with the schema's messages or "Project is not open for
   * applications.", in that order of precedence.
   */
  lemma RefusalChangesNothing(form: ApplyForm, isEmail: string -> bool, projects: map<Id, Project>, t: Tables)
    requires !ApplyAcceptable(form, isEmail) || !OpenForApplications(projects, form.projectId.value)
    ensures Apply(form, isEmail, projects, t).1 == t
    ensures Apply(form, isEmail, projects, t).0.error.Some? && Apply(form, isEmail, projects, t).0.success.None?
    ensures !ApplyAcceptable(form, isEmail) ==>
      Apply(form, isEmail, projects, t).0.error == Some(ParseApply(form, isEmail).error)
    ensures ApplyAcceptable(form, isEmail) ==>
      Apply(form, isEmail, projects, t).0 == ApplyState(Some(NotOpenMessage), None)
  {
  }

  /**
   * The action succeeds exactly when the form is acceptable, the project is
   * open and the applicant's profile has no application to it yet.
   */
  lemma ApplySucceedsIff(form: ApplyForm, isEmail: string -> bool, projects: map<Id, Project>, t: Tables)
    ensures Apply(form, isEmail, projects, t).0.success == Some(true) <==>
        && ApplyAcceptable(form, isEmail)
        && OpenForApplications(projects, form.projectId.value)
        && !HasApplied(t.applications, form.projectId.value, ApplicantProfile(form, t))
  {
    var r := ParseApply(form, isEmail);
  }

  /**
   * Finding or creating the user yields a user with that e-mail and keeps
   * the user invariants. A taken e-mail changes nothing; otherwise the one
   * new row is a FREELANCER user with that e-mail and name and no password,
   * under the next fresh id.
   */
  lemma UserStep(users: map<Id, User>, email: string, name: string, n: nat)
    requires FreshFrom(users.Keys, n) && UniqueEmails(users)
    ensures var (id, users', n') := FindOrCreateUser(users, email, name, n);
      && id in users' && users'[id].email == email
      && UniqueEmails(users') && FreshFrom(users'.Keys, n') && n <= n'
      && users.Keys <= users'.Keys && (forall k :: k in users ==> users'[k] == users[k])
      && (id !in users ==> id == MintId(n) && n' == n + 1)
      && (EmailTaken(users, email) ==> id in users && users' == users && n' == n)
      && (!EmailTaken(users, email) ==>
            && id !in users
            && users' == users[id := User(email, Some(name), None, Freelancer)])
  {
    if !EmailTaken(users, email) {
      FreshAdvance(users.Keys, n);
      assert users[MintId(n) := User(email, Some(name), None, Freelancer)].Keys == users.Keys + {MintId(n)};
    }
  }

  /**
   * Finding or creating the profile yields the user's profile and keeps the
   * profile invariants. An existing profile changes nothing; otherwise the
   * one new row is an ACTIVE profile of that user with no bio, skills or
   * regions, under the next fresh id.
   */
  lemma ProfileStep(profiles: map<Id, FreelancerProfile>, users: map<Id, User>, userId: Id, n: nat)
    requires FreshFrom(profiles.Keys, n) && OneProfilePerUser(profiles)
    requires ProfilesReferToUsers(profiles, users) && userId in users
    ensures var (id, profiles', n') := FindOrCreateProfile(profiles, userId, n);
      && id in profiles' && profiles'[id].userId == userId
      && OneProfilePerUser(profiles') && ProfilesReferToUsers(profiles', users)
      && FreshFrom(profiles'.Keys, n') && n <= n'
      && profiles.Keys <= profiles'.Keys
      && (id !in profiles ==> id == MintId(n) && n' == n + 1)
      && (HasProfile(profiles, userId) ==> id in profiles && profiles' == profiles && n' == n)
      && (!HasProfile(profiles, userId) ==>
            && id !in profiles
            && profiles' == profiles[id := FreelancerProfile(userId, None, [], [], Active)])
  {
    if !HasProfile(profiles, userId) {
      FreshAdvance(profiles.Keys, n);
      assert profiles[MintId(n) := FreelancerProfile(userId, None, [], [], Active)].Keys
        == profiles.Keys + {MintId(n)};
    }
  }

  /** A successful application is the one new APPLIED row, under an id not used before. */
  lemma ApplySuccessAdds(form: ApplyForm, isEmail: string -> bool, projects: map<Id, Project>, t: Tables)
    requires TablesValid(projects, t)
    requires Apply(form, isEmail, projects, t).0.success == Some(true)
    ensures exists id ::
      && id !in t.applications
      && Apply(form, isEmail, projects, t).1.applications ==
           t.applications[id := FreelancerApplication(form.projectId.value, ApplicantProfile(form, t),
                                                      Some(form.message.value), Applied)]
  {
    var f := ParseApply(form, isEmail).value;
    EnrollAdds(f, t);
  }

  /** `Enroll` adds its application under an id the table does not hold yet. */
  lemma EnrollAdds(f: ApplyFields, t: Tables)
    requires FreshFrom(t.applications.Keys, t.nextSeq)
    requires Enroll(f, t).0.success == Some(true)
    ensures var u := FindOrCreateUser(t.users, NormalizeEmail(f.email), f.name, t.nextSeq);
      var p := FindOrCreateProfile(t.profiles, u.0, u.2);
      && MintId(p.2) !in t.applications
      && Enroll(f, t).1.applications ==
           t.applications[MintId(p.2) := FreelancerApplication(f.projectId, p.0, Some(f.message), Applied)]
  {
    var u := FindOrCreateUser(t.users, NormalizeEmail(f.email), f.name, t.nextSeq);
    var p := FindOrCreateProfile(t.profiles, u.0, u.2);
    FreshAdvance(t.applications.Keys, p.2);
  }

  /** Recording a new application for a pair that has none keeps the application invariants. */
  lemma InsertStep(applications: map<Id, FreelancerApplication>, projects: map<Id, Project>,
                   profiles: map<Id, FreelancerProfile>, n: nat, a: FreelancerApplication)
    requires FreshFrom(applications.Keys, n) && OneApplicationPerPair(applications)
    requires ApplicationsReferToRows(applications, projects, profiles)
    requires a.projectId in projects && a.freelancerId in profiles
    requires !HasApplied(applications, a.projectId, a.freelancerId)
    ensures FreshFrom(applications[MintId(n) := a].Keys, n + 1)
    ensures OneApplicationPerPair(applications[MintId(n) := a])
    ensures ApplicationsReferToRows(applications[MintId(n) := a], projects, profiles)
  {
    FreshAdvance(applications.Keys, n);
    assert applications[MintId(n) := a].Keys == applications.Keys + {MintId(n)};
  }

  /** `Enroll` keeps the tables' invariants, in particular one application per project and freelancer. */
  lemma EnrollKeepsInvariants(f: ApplyFields, projects: map<Id, Project>, t: Tables)
    requires TablesValid(projects, t) && OneApplicationPerPair(t.applications)
    requires f.projectId in projects
    ensures TablesValid(projects, Enroll(f, t).1)
    ensures OneApplicationPerPair(Enroll(f, t).1.applications)
  {
    var u := FindOrCreateUser(t.users, NormalizeEmail(f.email), f.name, t.nextSeq);
    UserStep(t.users, NormalizeEmail(f.email), f.name, t.nextSeq);
    assert ProfilesReferToUsers(t.profiles, u.1);
    var p := FindOrCreateProfile(t.profiles, u.0, u.2);
    ProfileStep(t.profiles, u.1, u.0, u.2);
    assert ApplicationsReferToRows(t.applications, projects, p.1);
    if !HasApplied(t.applications, f.projectId, p.0) {
      var a := FreelancerApplication(f.projectId, p.0, Some(f.message), Applied);
      InsertStep(t.applications, projects, p.1, p.2, a);
    }
  }

  /** The action keeps the tables' invariants, in particular one application per project and freelancer. */
  lemma ApplyKeepsInvariants(form: ApplyForm, isEmail: string -> bool, projects: map<Id, Project>, t: Tables)
    requires TablesValid(projects, t) && OneApplicationPerPair(t.applications)
    ensures TablesValid(projects, Apply(form, isEmail, projects, t).1)
    ensures OneApplicationPerPair(Apply(form, isEmail, projects, t).1.applications)
  {
    var r := ParseApply(form, isEmail);
    if r.Ok? && OpenForApplications(projects, r.value.projectId) {
      EnrollKeepsInvariants(r.value, projects, t);
    }
  }

  /**
   * A first-time applicant (no user has the e-mail) with an acceptable form
   * for an open project is never told they have already applied: the
   * application is recorded.
   */
  lemma NewcomerIsNeverDuplicate(form: ApplyForm, isEmail: string -> bool, projects: map<Id, Project>, t: Tables)
    requires TablesValid(projects, t)
    requires ApplyAcceptable(form, isEmail) && OpenForApplications(projects, form.projectId.value)
    requires !EmailTaken(t.users, NormalizeEmail(form.email.value))
    ensures Apply(form, isEmail, projects, t).0 == ApplyState(None, Some(true))
  {
    var r := ParseApply(form, isEmail);
    var f := r.value;
    {
      var ne := NormalizeEmail(f.email);
      var uid := MintId(t.nextSeq);
      assert FindOrCreateUser(t.users, ne, f.name, t.nextSeq).0 == uid;
      assert FindOrCreateUser(t.users, ne, f.name, t.nextSeq).2 == t.nextSeq + 1;
      FreshAdvance(t.users.Keys, t.nextSeq);
      assert forall k :: k in t.profiles ==> t.profiles[k].userId != uid;
      assert !HasProfile(t.profiles, uid);
      var pid := MintId(t.nextSeq + 1);
      assert FindOrCreateProfile(t.profiles, uid, t.nextSeq + 1).0 == pid;
      assert pid !in t.profiles;
      assert forall k :: k in t.applications ==> t.applications[k].freelancerId != pid;
      assert !HasApplied(t.applications, f.projectId, pid);
    }
  }

  // ---------------------------------------------------------------- the action

  /** `user.findUnique` by e-mail, then `user.create` when there is none. */
  method FindOrAddUser(db: Database, email: string, name: string) returns (userId: Id)
    requires db.Valid()
    modifies db`users, db`nextSeq
    ensures db.Valid()
    ensures userId in db.users
    ensures (userId, db.users, db.nextSeq) == FindOrCreateUser(old(db.users), email, name, old(db.nextSeq))
  {
    if exists k :: k in db.users && db.users[k].email == email {
      userId :| userId in db.users && db.users[userId].email == email;
      assert userId == UserWithEmail(db.users, email);
    } else {
      userId := db.InsertUser(User(email, Some(name), None, Freelancer));
    }
  }

  /** `freelancerProfile.findUnique` by user, then `freelancerProfile.create` when there is none. */
  method FindOrAddProfile(db: Database, userId: Id) returns (profileId: Id)
    requires db.Valid() && userId in db.users
    modifies db`profiles, db`nextSeq
    ensures db.Valid()
    ensures profileId in db.profiles
    ensures (profileId, db.profiles, db.nextSeq) == FindOrCreateProfile(old(db.profiles), userId, old(db.nextSeq))
  {
    if exists k :: k in db.profiles && db.profiles[k].userId == userId {
      profileId :| profileId in db.profiles && db.profiles[profileId].userId == userId;
      assert profileId == ProfileOf(db.profiles, userId);
    } else {
      profileId := db.InsertProfile(FreelancerProfile(userId, None, [], [], Active));
    }
  }

  /** `freelancerApplication.findFirst` for the pair, then `freelancerApplication.create` when there is none. */
  method ApplyOnce(db: Database, a: FreelancerApplication) returns (state: ApplyState)
    requires db.Valid() && a.projectId in db.projects && a.freelancerId in db.profiles
    modifies db`applications, db`nextSeq
    ensures db.Valid()
    ensures (state, db.applications, db.nextSeq) == ApplyStep(old(db.applications), a, old(db.nextSeq))
  {
    if exists k :: k in db.applications && db.applications[k].projectId == a.projectId
                   && db.applications[k].freelancerId == a.freelancerId {
      return ApplyState(Some(AlreadyAppliedMessage), None);
    }
    var applicationId := db.InsertApplication(a);
    state := ApplyState(None, Some(true));
  }

  /** `Enroll` against the shared store. */
  method EnrollIn(db: Database, f: ApplyFields) returns (state: ApplyState)
    requires db.Valid() && f.projectId in db.projects
    modifies db`users, db`profiles, db`applications, db`nextSeq
    ensures db.Valid()
    ensures (state, Tables(db.users, db.profiles, db.applications, db.nextSeq))
         == Enroll(f, Tables(old(db.users), old(db.profiles), old(db.applications), old(db.nextSeq)))
  {
    var userId := FindOrAddUser(db, NormalizeEmail(f.email), f.name);
    var profileId := FindOrAddProfile(db, userId);
    state := ApplyOnce(db, FreelancerApplication(f.projectId, profileId, Some(f.message), Applied));
  }

  /**
   * The action against the shared store: each lookup is a query, each
   * creation an insert, in the order the handler performs them. The answer
   * and the new tables are those `Apply` describes; projects are only read.
   */
  method ApplyToProject(db: Database, form: ApplyForm, isEmail: string -> bool) returns (state: ApplyState)
    requires db.Valid()
    modifies db`users, db`profiles, db`applications, db`nextSeq
    ensures db.Valid()
    ensures (state, Tables(db.users, db.profiles, db.applications, db.nextSeq))
         == Apply(form, isEmail, db.projects, Tables(old(db.users), old(db.profiles), old(db.applications), old(db.nextSeq)))
  {
    var parsed := ParseApply(form, isEmail);
    if parsed.Err? {
      return ApplyState(Some(parsed.error), None);
    }
    var f := parsed.value;
    if !(f.projectId in db.projects && db.projects[f.projectId].status == WaitingFreelancer) {
      return ApplyState(Some(NotOpenMessage), None);
    }

    state := EnrollIn(db, f);
  }
}
