/**
 * `signUpAction`: self-service account creation for owners, freelancers and
 * guests. The e-mail is trimmed and lower-cased and the name trimmed; three
 * checks run in order; then the store is asked whether the e-mail is taken,
 * and the new user is created with the hashed password.
 *
 * `hash` is the password-hashing library; `lookupFault` and `createFault`
 * are what the two store calls throw, if they throw; `nodeEnv` is the
 * `NODE_ENV` setting.
 */
module Signup {
  import opened Wrappers
  import opened Text
  import opened Store

  /** The form fields as `formData.get(…)?.toString()` yields them; None when the field is absent. */
  datatype SignupForm = SignupForm(email: Option<string>, name: Option<string>, password: Option<string>,
                                   role: Option<string>)

  /** The checked and normalised fields. */
  datatype NewAccount = NewAccount(email: string, name: string, password: string, role: Role)

  /** `{ error?: string; success?: boolean }` */
  datatype SignupState = SignupState(error: Option<string>, success: Option<bool>)

  /** A thrown value: an `Error` with its message and its `code` property, or anything else. */
  datatype Thrown = ErrorObject(message: string, code: Option<string>) | OtherThrown

  const MissingFieldsMessage := "All fields are required."
  const InvalidRoleMessage := "Invalid role selected."
  const ShortPasswordMessage := "Password must be at least 6 characters long."
  const DuplicateMessage := "An account with this email already exists. " + "Please sign in instead."
  const UnreachableMessage :=
    "Cannot connect to database. "
    + "Please check your DATABASE_URL environment variable and ensure your database is accessible."
  const MigrationMessage :=
    "Database migration required. "
    + "Please run: npx prisma migrate dev (locally) "
    + "or ensure migrations are applied on your production database (Vercel/other hosting)."
  const GenericFailureMessage := "Failed to create account. Please try again."

  /** The roles a visitor may pick, each under its enum name: never OPERATOR. */
  function ParseRole(role: string): (r: Option<Role>)
    ensures r.Some? <==> role in {"OWNER", "FREELANCER", "GUEST"}
    ensures role == "OWNER" ==> r == Some(Owner)
    ensures role == "FREELANCER" ==> r == Some(Freelancer)
    ensures role == "GUEST" ==> r == Some(Guest)
    ensures r != Some(Operator)
  {
    if role == "OWNER" then Some(Owner)
    else if role == "FREELANCER" then Some(Freelancer)
    else if role == "GUEST" then Some(Guest)
    else None
  }

  /** A field counts as filled in when it is present and, after normalising, not empty. */
  predicate Filled(v: Option<string>) {
    v.Some? && v.value != []
  }

  /**
   * The three checks, in order: every field filled in (the e-mail and the
   * name after trimming), a selectable role, a password of six or more
   * characters. On success the fields come back normalised.
   */
  function CheckSignup(form: SignupForm): (r: Result<NewAccount, string>)
    ensures r.Ok? <==>
      && form.email.Some? && NormalizeEmail(form.email.value) != []
      && form.name.Some? && Trim(form.name.value) != []
      && form.password.Some? && |form.password.value| >= 6
      && form.role.Some? && form.role.value in {"OWNER", "FREELANCER", "GUEST"}
    ensures r.Ok? ==>
      && r.value.email == NormalizeEmail(form.email.value)
      && r.value.name == Trim(form.name.value)
      && r.value.password == form.password.value
      && Some(r.value.role) == ParseRole(form.role.value)
  {
    var email := MapOption(form.email, NormalizeEmail);
    var name := MapOption(form.name, Trim);
    if !Filled(email) || !Filled(name) || !Filled(form.password) || !Filled(form.role) then
      Err(MissingFieldsMessage)
    else
      match ParseRole(form.role.value)
      case None => Err(InvalidRoleMessage)
      case Some(role) =>
        if |form.password.value| < 6 then Err(ShortPasswordMessage)
        else Ok(NewAccount(email.value, name.value, form.password.value, role))
  }

  /**
   * The checks answer in order: a missing field first, then an unknown
   * role, then a short password; a blank e-mail or name counts as missing.
   */
  lemma CheckSignupOrder(form: SignupForm)
    ensures !Filled(MapOption(form.email, NormalizeEmail)) || !Filled(MapOption(form.name, Trim))
            || !Filled(form.password) || !Filled(form.role) ==>
              CheckSignup(form) == Err(MissingFieldsMessage)
    ensures Filled(form.email) && Filled(form.name) && Filled(form.password) && Filled(form.role)
            && NormalizeEmail(form.email.value) != [] && Trim(form.name.value) != []
            && form.role.value !in {"OWNER", "FREELANCER", "GUEST"} ==>
              CheckSignup(form) == Err(InvalidRoleMessage)
    ensures Filled(form.email) && Filled(form.name) && Filled(form.role)
            && NormalizeEmail(form.email.value) != [] && Trim(form.name.value) != []
            && form.role.value in {"OWNER", "FREELANCER", "GUEST"}
            && form.password.Some? && 0 < |form.password.value| < 6 ==>
              CheckSignup(form) == Err(ShortPasswordMessage)
  {
  }

  /** `?.` applied to an optional text. */
  function MapOption(v: Option<string>, f: string -> string): (r: Option<string>)
    ensures r.Some? <==> v.Some?
    ensures r.Some? ==> r.value == f(v.value)
  {
    match v
    case None => None
    case Some(s) => Some(f(s))
  }

  /** A unique-constraint failure: code P2002, or the message says so. */
  predicate UniqueViolation(e: Thrown) {
    e.ErrorObject? && (e.code == Some("P2002") || Includes(e.message, "Unique constraint"))
  }

  /** The database cannot be reached: code P1001, or the message says so. */
  predicate DatabaseUnreachable(e: Thrown) {
    e.ErrorObject? && (e.code == Some("P1001") || Includes(e.message, "Can't reach database"))
  }

  /** A table or column is missing: the message names one, or code P2021 or P2010. */
  predicate SchemaMissing(e: Thrown) {
    e.ErrorObject? &&
      (Includes(e.message, "column") || Includes(e.message, "Unknown column")
       || Includes(e.message, "does not exist") || e.code == Some("P2021") || e.code == Some("P2010"))
  }

  /** The development message: the raw message and the code, "N/A" when the code is absent or empty. */
  function DebugMessage(message: string, code: Option<string>): (m: string)
    ensures |m| > 7 + |message| && m[..7] == "Error: " && m[7..7 + |message|] == message
  {
    "Error: " + message + " (Code: " + OrElse(code.GetOr(""), "N/A") + ")"
  }

  /**
   * The message for a thrown failure, by the first rule that applies: a
   * unique-constraint error reads as a duplicate account, an unreachable
   * database and a missing table or column have their own advice, in
   * development the raw message and code are shown, and otherwise a generic
   * message.
   */
  function FailureMessage(e: Thrown, nodeEnv: Option<string>): (m: string)
    ensures m != []
    ensures UniqueViolation(e) ==> m == DuplicateMessage
    ensures !UniqueViolation(e) && DatabaseUnreachable(e) ==> m == UnreachableMessage
    ensures !UniqueViolation(e) && !DatabaseUnreachable(e) && SchemaMissing(e) ==> m == MigrationMessage
    ensures (e.ErrorObject? && !UniqueViolation(e) && !DatabaseUnreachable(e) && !SchemaMissing(e)
             && nodeEnv == Some("development")) ==> m == DebugMessage(e.message, e.code)
    ensures ((e.OtherThrown? || nodeEnv != Some("development"))
             && !UniqueViolation(e) && !DatabaseUnreachable(e) && !SchemaMissing(e)) ==> m == GenericFailureMessage
    ensures nodeEnv != Some("development") ==>
              m in {DuplicateMessage, UnreachableMessage, MigrationMessage, GenericFailureMessage}
  {
    if UniqueViolation(e) then DuplicateMessage
    else if DatabaseUnreachable(e) then UnreachableMessage
    else if SchemaMissing(e) then MigrationMessage
    else if e.ErrorObject? && nodeEnv == Some("development") then DebugMessage(e.message, e.code)
    else GenericFailureMessage
  }

  /**
   * The message names its cause: each fixed message is given for exactly
   * one rule, and the development message is none of them.
   */
  lemma {:induction false} FailureMessageNamesCause(e: Thrown, nodeEnv: Option<string>)
    ensures FailureMessage(e, nodeEnv) == DuplicateMessage <==> UniqueViolation(e)
    ensures FailureMessage(e, nodeEnv) == UnreachableMessage <==> !UniqueViolation(e) && DatabaseUnreachable(e)
    ensures FailureMessage(e, nodeEnv) == MigrationMessage <==>
              !UniqueViolation(e) && !DatabaseUnreachable(e) && SchemaMissing(e)
    ensures FailureMessage(e, nodeEnv) == GenericFailureMessage <==>
              !UniqueViolation(e) && !DatabaseUnreachable(e) && !SchemaMissing(e)
              && (e.OtherThrown? || nodeEnv != Some("development"))
  {
    var m := FailureMessage(e, nodeEnv);
    if e.ErrorObject? && !UniqueViolation(e) && !DatabaseUnreachable(e) && !SchemaMissing(e)
       && nodeEnv == Some("development") {
      // The development message starts with "E", each fixed message with another letter.
      assert m[0] == m[..7][0] == 'E';
      assert DuplicateMessage[0] == 'A' && UnreachableMessage[0] == 'C';
      assert MigrationMessage[0] == 'D' && GenericFailureMessage[0] == 'F';
    }
  }

  /**
   * What the action answers and what the user table and the id counter hold
   * afterwards. Only a success writes.
   */
  ghost function SignUp(form: SignupForm, users: map<Id, User>, n: nat, hash: string -> string,
                        lookupFault: Option<Thrown>, createFault: Option<Thrown>, nodeEnv: Option<string>)
    : (r: (SignupState, map<Id, User>, nat))
    ensures r.0.error.Some? <==> r.0.success.None?
    ensures r.0.success.Some? ==> r.0.success == Some(true) && r.2 == n + 1
    ensures r.0.error.Some? ==> r.1 == users && r.2 == n
  {
    match CheckSignup(form)
    case Err(msg) => (SignupState(Some(msg), None), users, n)
    case Ok(acct) => Register(acct, users, n, hash, lookupFault, createFault, nodeEnv)
  }

  /** The part of `SignUp` after the checks have passed: the two store calls. */
  ghost function Register(acct: NewAccount, users: map<Id, User>, n: nat, hash: string -> string,
                          lookupFault: Option<Thrown>, createFault: Option<Thrown>, nodeEnv: Option<string>)
    : (r: (SignupState, map<Id, User>, nat))
    ensures r.0.error.Some? <==> r.0.success.None?
    ensures r.0.success.Some? ==> r.0.success == Some(true) && r.2 == n + 1
    ensures r.0.error.Some? ==> r.1 == users && r.2 == n
  {
    if lookupFault.Some? then (SignupState(Some(FailureMessage(lookupFault.value, nodeEnv)), None), users, n)
    else if EmailTaken(users, acct.email) then (SignupState(Some(DuplicateMessage), None), users, n)
    else if createFault.Some? then (SignupState(Some(FailureMessage(createFault.value, nodeEnv)), None), users, n)
    else
      var u := User(acct.email, Some(acct.name), Some(hash(acct.password)), acct.role);
      (SignupState(None, Some(true)), users[MintId(n) := u], n + 1)
  }

  /** After the checks, a write happens exactly when neither store call throws and the e-mail is free. */
  lemma RegisterWritesIff(acct: NewAccount, users: map<Id, User>, n: nat, hash: string -> string,
                          lookupFault: Option<Thrown>, createFault: Option<Thrown>, nodeEnv: Option<string>)
    ensures var r := Register(acct, users, n, hash, lookupFault, createFault, nodeEnv);
      && (r.0.success == Some(true) <==> lookupFault.None? && createFault.None? && !EmailTaken(users, acct.email))
      && (r.0.success == Some(true) ==>
            r.1 == users[MintId(n) := User(acct.email, Some(acct.name), Some(hash(acct.password)), acct.role)]
            && r.2 == n + 1)
      && (r.0.success != Some(true) ==> r.1 == users && r.2 == n && r.0.error.Some?)
  {
  }

  /**
   * Sign-up succeeds exactly when the checks pass, neither store call
   * throws and no user has the normalised e-mail; the one new user has the
   * normalised e-mail and name, the hashed password and the chosen role.
   * Any other answer is an error and writes nothing.
   */
  lemma SignUpSucceedsIff(form: SignupForm, users: map<Id, User>, n: nat, hash: string -> string,
                          lookupFault: Option<Thrown>, createFault: Option<Thrown>, nodeEnv: Option<string>)
    ensures var r := SignUp(form, users, n, hash, lookupFault, createFault, nodeEnv);
      && (r.0.success == Some(true) <==>
            CheckSignup(form).Ok? && lookupFault.None? && createFault.None?
            && !EmailTaken(users, NormalizeEmail(form.email.value)))
      && (r.0.success == Some(true) ==>
            r.1 == users[MintId(n) := User(NormalizeEmail(form.email.value), Some(Trim(form.name.value)),
                                           Some(hash(form.password.value)), CheckSignup(form).value.role)])
      && (r.0.success != Some(true) ==> r.1 == users && r.2 == n && r.0.error.Some?)
  {
    var c := CheckSignup(form);
    if c.Ok? {
      RegisterWritesIff(c.value, users, n, hash, lookupFault, createFault, nodeEnv);
    }
  }

  /** The write keeps e-mails unique and fresh ids fresh, and never creates an operator. */
  lemma RegisterKeepsInvariants(acct: NewAccount, users: map<Id, User>, n: nat, hash: string -> string,
                                lookupFault: Option<Thrown>, createFault: Option<Thrown>, nodeEnv: Option<string>)
    requires FreshFrom(users.Keys, n) && UniqueEmails(users) && acct.role != Operator
    ensures var r := Register(acct, users, n, hash, lookupFault, createFault, nodeEnv);
      && FreshFrom(r.1.Keys, r.2) && UniqueEmails(r.1)
      && users.Keys <= r.1.Keys
      && (forall k :: k in r.1 && k !in users ==> r.1[k].role != Operator)
  {
    if lookupFault.None? && !EmailTaken(users, acct.email) && createFault.None? {
      FreshAdvance(users.Keys, n);
      var u := User(acct.email, Some(acct.name), Some(hash(acct.password)), acct.role);
      assert users[MintId(n) := u].Keys == users.Keys + {MintId(n)};
    }
  }

  /** Sign-up keeps e-mails unique and fresh ids fresh, and never creates an operator. */
  lemma SignUpKeepsInvariants(form: SignupForm, users: map<Id, User>, n: nat, hash: string -> string,
                              lookupFault: Option<Thrown>, createFault: Option<Thrown>, nodeEnv: Option<string>)
    requires FreshFrom(users.Keys, n) && UniqueEmails(users)
    ensures var r := SignUp(form, users, n, hash, lookupFault, createFault, nodeEnv);
      && FreshFrom(r.1.Keys, r.2) && UniqueEmails(r.1)
      && users.Keys <= r.1.Keys
      && (forall k :: k in r.1 && k !in users ==> r.1[k].role != Operator)
  {
    var c := CheckSignup(form);
    if c.Ok? {
      RegisterKeepsInvariants(c.value, users, n, hash, lookupFault, createFault, nodeEnv);
    }
  }

  /** A second sign-up with the same e-mail, however it is capitalised or padded, is refused. */
  lemma SecondSignUpRefused(form: SignupForm, users: map<Id, User>, n: nat, hash: string -> string,
                            nodeEnv: Option<string>, again: SignupForm)
    requires SignUp(form, users, n, hash, None, None, nodeEnv).0.success == Some(true)
    requires CheckSignup(again).Ok?
    requires NormalizeEmail(again.email.value) == NormalizeEmail(form.email.value)
    ensures var r := SignUp(form, users, n, hash, None, None, nodeEnv);
      SignUp(again, r.1, r.2, hash, None, None, nodeEnv).0 == SignupState(Some(DuplicateMessage), None)
  {
    SignUpSucceedsIff(form, users, n, hash, None, None, nodeEnv);
    var r := SignUp(form, users, n, hash, None, None, nodeEnv);
    var acct := CheckSignup(again).value;
    assert r.1[MintId(n)].email == acct.email;
    assert EmailTaken(r.1, acct.email);
  }

  /** The action against the shared store. */
  method SignUpAction(db: Database, form: SignupForm, hash: string -> string,
                      lookupFault: Option<Thrown>, createFault: Option<Thrown>, nodeEnv: Option<string>)
    returns (state: SignupState)
    requires db.Valid()
    modifies db`users, db`nextSeq
    ensures db.Valid()
    ensures (state, db.users, db.nextSeq)
         == SignUp(form, old(db.users), old(db.nextSeq), hash, lookupFault, createFault, nodeEnv)
  {
    var checked := CheckSignup(form);
    if checked.Err? {
      return SignupState(Some(checked.error), None);
    }
    var acct := checked.value;
    if lookupFault.Some? {
      return SignupState(Some(FailureMessage(lookupFault.value, nodeEnv)), None);
    }
    if exists k :: k in db.users && db.users[k].email == acct.email {
      return SignupState(Some(DuplicateMessage), None);
    }
    var hashed := hash(acct.password);
    if createFault.Some? {
      return SignupState(Some(FailureMessage(createFault.value, nodeEnv)), None);
    }
    var id := db.InsertUser(User(acct.email, Some(acct.name), Some(hashed), acct.role));
    state := SignupState(None, Some(true));
  }
}
