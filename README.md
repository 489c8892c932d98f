# Rental marketplace request handlers, modelled in Dafny

This project models the request-handling core of a small rental marketplace built on Next.js and
Prisma:

- Owners submit a property for review, through an API route and through a server action.
- Freelancers apply to projects that wait for one.
- Visitors sign up as owners, freelancers or guests.
- A single operator signs in to an admin area. That area is gated by an edge middleware, the
  auth library's callbacks and a server-side guard.
- The payment provider's webhook confirms paid bookings.
- A public API lists the published stays.
- The operator's project board filters projects by status.

The database is the class `Store.Database`. It has one map per table (users, freelancer profiles,
applications, properties, projects, listings, bookings) and a sequence for the event log. Its
`Valid()` invariant holds three facts about the rows:

- user e-mails are unique;
- each user has at most one freelancer profile;
- every profile and application refers to rows that exist.

It also keeps the id counter fresh for the users, freelancer profiles, applications, properties
and projects tables: the next minted id is in none of them. Listings and bookings are only read or
updated in place, so no fresh id is needed for them. `Valid()` does not say that a freelancer
applies to a project at most once. The action checks this before each insert, and
`FreelancerApply.ApplyKeepsInvariants` proves that one call of the specification function `Apply`
keeps it.

The read-only queries (the public stays list, the admin project board) are functions over the rows
in storage order. They use `Query.Where` and a stable `Query.OrderByDesc`. In that order a missing
date sorts first, as PostgreSQL puts NULLs first in a descending order.

Modules, one per handler plus shared pieces:

| module | models |
|---|---|
| `Wrappers`, `Text`, `Query`, `Store` | Option/Result, JavaScript string operations, the ORM's filter and order, tables and rows |
| `OwnerIntake` | the owner intake schema, the photo rules, the photo file names and the outcome, shared by both handlers |
| `OwnerSubmitRoute`, `OwnerSubmitAction` | `POST /api/owner/submit` and `submitOwnerIntake` |
| `FreelancerApply` | `applyToProject` |
| `Signup` | `signUpAction` |
| `Middleware`, `AuthConfig`, `OperatorGuard` | the edge middleware, the auth configuration, `requireOperator` and `getOperatorSession` |
| `StripeWebhook` | `POST /api/stripe/webhook` |
| `StaysApi` | `GET` and `OPTIONS /api/stays` |
| `AdminProjects` | the project board's status filter and query |

Collaborators whose code lies outside the modelled files, and those that are not deterministic,
are parameters:

- `isEmail`: the schema library's e-mail check.
- `toNumber`: JavaScript's `Number(…)`.
- `hash`: bcrypt.
- `verify`: the payment provider's signature check.
- `upload`: the blob or local or data-URL storage of one photo.
- The photo-name id.
- Store faults: `Option` parameters holding the thrown message.
- The environment variables.

State that handlers change in place is imperative Dafny:

- the photo loops;
- the find-or-create steps and the insert of `applyToProject`;
- the user insert of sign-up;
- the webhook's paired booking update and log append;
- the `jwt` and `session` callbacks that write the token and the session user.

Each such method is tied by its `ensures` either to a specification function, about which the
lemmas are stated, or directly to the new field values (the two callbacks). Examples are `FreelancerApply.Apply`, `Signup.SignUp`,
`OwnerIntake.Outcome` and `StripeWebhook.Fulfil`.

Behaviours of the code as written, which the model keeps:

- **Non-transactional intake.** The two intake writes are not in a transaction. When creating the
  project fails, the new property stays behind.
- **Null message rejected.** The apply schema's `message` is `.optional()`, which accepts
  `undefined` but not `null`. A form without a message field is therefore refused.
- **Unreachable fallbacks.** The "Validation failed" and "Invalid input" fallbacks cannot occur:
  every failed parse carries at least one message.
- **Operator e-mail compared as configured.** The operator e-mail from the environment is compared
  without being normalised. A configured address with an upper-case letter or surrounding spaces
  admits nobody.
- **Empty password locks everyone out.** An empty configured password also admits nobody, because
  an empty submitted password is refused first.
- **Middleware prefix versus matcher.** The middleware's prefix test would guard "/administrator",
  but its matcher never runs it there.
- **Unknown status filter.** An unknown `status` on the project board is ignored and every project
  is listed. The page still reports the raw value as the current status.
- **Webhook redelivery.** A redelivered webhook event is not recognised. It writes a second audit
  record and sends a second confirmation.

## Model

| member | source | states |
|---|---|---|
| Text.Trim | src/app/signup/actions.ts:11-12 | `trim` returns the slice of the input that is left once the white space before and after it is removed: everything before and after the slice is ECMAScript white space, neither end of the slice is; empty iff the input is all white space |
| Text.TrimUnique | src/app/signup/actions.ts:11-12 | any cut of a string into leading white space, a middle with no white space at either end and trailing white space has `trim` as its middle, so exactly the surrounding white space is removed |
| Text.TrimIdempotent | src/app/signup/actions.ts:12 | trimming twice is trimming once |
| Text.ToLower | src/app/signup/actions.ts:11 | `toLowerCase` keeps the length, leaves no upper-case letter, changes nothing that is not upper case and keeps white space where it was |
| Text.ToLowerIdempotent | src/app/signup/actions.ts:11 | lower-casing twice is lower-casing once |
| Text.NormalizeEmail | src/app/freelancer/projects/actions.ts:40 | the normalised e-mail is no longer than the input, has no surrounding space and no upper-case letter |
| Text.NormalizeEmailIdempotent | src/auth.ts:61 | normalising a normalised e-mail changes nothing, so stored and looked-up addresses agree |
| Text.Join | src/app/api/owner/submit/route.ts:39 | joining no messages gives the empty string; otherwise the result starts with the first message |
| Query.Where | src/app/api/stays/route.ts:15 | a `where` filter keeps only matching rows, keeps every matching row and invents none |
| Query.WhereCounts | src/app/admin/projects/page.tsx:44 | the filter keeps each matching row as many times as it occurs and adds nothing |
| Query.WhereAll | src/app/admin/projects/page.tsx:44 | a filter every row passes returns the rows unchanged |
| Query.OrderByDesc | src/app/api/stays/route.ts:17 | `orderBy … desc` returns a permutation of its input sorted by the key, descending, NULL first |
| Store.Database.InsertUser | src/app/signup/actions.ts:42-49 | inserting a user with an unused e-mail adds exactly that row under a fresh id and keeps the table invariants |
| Store.Database.InsertProfile | src/app/freelancer/projects/actions.ts:54-62 | inserting a profile for an existing user without one adds exactly that row under a fresh id |
| Store.Database.InsertApplication | src/app/freelancer/projects/actions.ts:72-78 | inserting an application for an existing project and profile adds exactly that row under a fresh id |
| Store.Database.InsertProperty | src/app/api/owner/submit/route.ts:107-119 | inserting a property adds exactly that row under a fresh id |
| Store.Database.InsertProject | src/app/api/owner/submit/route.ts:121-126 | inserting a project adds exactly that row under a fresh id |
| OwnerIntake.TextIssues | src/app/api/owner/submit/route.ts:11-15 | a text field has no issue iff it is present with length 1..max; each issue is a non-empty message |
| OwnerIntake.EmailIssues | src/app/api/owner/submit/route.ts:12 | the e-mail has no issue iff it is present and passes the e-mail check |
| OwnerIntake.NumberIssues | src/app/api/owner/submit/route.ts:16-17 | a coerced number has no issue iff it is a whole number ≥ 1 and within the maximum, if there is one |
| OwnerIntake.Coerce | src/app/api/owner/submit/route.ts:16-17 | defined as `Number(v)` through the `toNumber` parameter, with an absent field coercing to 0 as `Number(null)` does |
| OwnerIntake.IntakeIssues | src/app/api/owner/submit/route.ts:10-19 | every schema issue is a non-empty message |
| OwnerIntake.ParseIntake | src/app/api/owner/submit/route.ts:36-41 | the parse succeeds iff every field bound holds, yields the field values, and otherwise fails with the issues joined by spaces, never empty |
| OwnerIntake.CheckPhotos | src/app/api/owner/submit/route.ts:43-60 | photos pass iff some file is non-empty and the non-empty ones total at most 4 MiB (exactly 4 MiB passes); the passing photos are the non-empty ones in order; the two refusals carry their messages |
| OwnerIntake.ExtName | src/app/api/owner/submit/route.ts:69 | `path.extname` is the tail of the last path segment that starts at its last dot (a dot followed by no dot or slash); it is empty exactly when the segment has no dot after its first character or is ".." |
| OwnerIntake.PhotoExt | src/app/api/owner/submit/route.ts:69 | the extension is the file's own, or ".jpg" when it has none |
| OwnerIntake.PhotoFileNames | src/app/api/owner/submit/route.ts:67-71 | one name per valid photo, each starting with the submission id and a dash |
| OwnerIntake.PhotoFileNamesDistinct | src/app/api/owner/submit/route.ts:70 | two photos of one submission never get the same file name |
| OwnerIntake.NewProperty | src/app/api/owner/submit/route.ts:107-119 | the stored property is PENDING_REVIEW and carries the photo URLs |
| OwnerIntake.StoreOutcome | src/app/api/owner/submit/route.ts:107-142 | never a rejection; stored iff neither write throws; the cause is the first thrown message; the property exists iff its own write did not throw |
| OwnerIntake.IsConnectivityError | src/app/api/owner/submit/route.ts:133 | a failure counts as a lost connection exactly when "Can't reach database server" or "P1001" occurs somewhere in its message |
| OwnerIntake.OutcomeOfChecked | src/app/api/owner/submit/route.ts:36-126 | once the schema and the photo checks pass, only the two writes decide the outcome |
| OwnerIntake.RecordIntake | src/app/api/owner/submit/route.ts:107-126 | the two writes: the outcome is the writes' outcome; a failed first write changes nothing; otherwise one PENDING_REVIEW property with the given URLs under a fresh id, and unless the second write fails one INTAKE project under the next fresh id pointing at it |
| OwnerIntake.Recorded | src/app/api/owner/submit/route.ts:107-126 | defined as the tables after the writes: a PENDING_REVIEW property under the next fresh id when the first write succeeded, an INTAKE project under the id after it pointing at that property when the second did too, and nothing else changed |
| OwnerIntake.Outcome | src/app/api/owner/submit/route.ts:36-143 | a submission is rejected iff the schema or the photo checks fail, with the first failing check's message; it is stored iff neither write fails; a failed second write leaves the property behind |
| OwnerSubmitRoute.RouteResponse | src/app/api/owner/submit/route.ts:129-143 | 200 with success exactly when stored; 400 with the rejection message; 503 for a connectivity failure; 500 otherwise |
| OwnerSubmitRoute.RouteUrls | src/app/api/owner/submit/route.ts:67-102 | one uploaded URL per valid photo |
| OwnerSubmitRoute.UploadPhotos | src/app/api/owner/submit/route.ts:67-102 | the loop yields, in order, the upload of each valid photo under the file name given for it |
| OwnerSubmitRoute.UploadedAreRouteUrls | src/app/api/owner/submit/route.ts:67-102 | URLs that are, in order, the uploads of the valid photos under `${id}-${i}${ext}` are exactly the recorded URLs |
| OwnerSubmitRoute.Post | src/app/api/owner/submit/route.ts:21-144 | the answer is the outcome's response; a rejection writes nothing; success adds one PENDING_REVIEW property and one INTAKE project linked to it |
| OwnerSubmitAction.ActionState | src/app/owner/submit/actions.ts:103-111 | success exactly when stored; otherwise an error with the rejection, the unavailable or the generic message |
| OwnerSubmitAction.ActionAgreesWithRoute | src/app/owner/submit/actions.ts:104-111 | the action and the route succeed on the same outcomes and give the same error text |
| OwnerSubmitAction.LocalUrls | src/app/owner/submit/actions.ts:68-76 | one "/uploads/…" URL per valid photo |
| OwnerSubmitAction.LocalUrlsDistinct | src/app/owner/submit/actions.ts:71-75 | the local URLs of one submission are pairwise distinct |
| OwnerSubmitAction.WritePhotos | src/app/owner/submit/actions.ts:68-76 | the loop yields `/uploads/<file name>` for each file name, in order |
| OwnerSubmitAction.WrittenAreLocalUrls | src/app/owner/submit/actions.ts:68-76 | URLs that are, in order, `/uploads/${id}-${i}${ext}` for the valid photos are exactly the recorded URLs |
| OwnerSubmitAction.SubmitOwnerIntake | src/app/owner/submit/actions.ts:24-112 | the state is the outcome's state; a rejection writes nothing; success adds one PENDING_REVIEW property and one INTAKE project |
| FreelancerApply.ProjectIdIssues | src/app/freelancer/projects/actions.ts:10 | the project id passes iff present and non-empty |
| FreelancerApply.MessageIssues | src/app/freelancer/projects/actions.ts:13 | the message passes iff present with at most 2000 characters |
| FreelancerApply.ApplyIssues | src/app/freelancer/projects/actions.ts:9-14 | every schema issue is a non-empty message |
| FreelancerApply.ParseApply | src/app/freelancer/projects/actions.ts:25-29 | the parse succeeds iff every bound holds, yields the fields, and otherwise fails with the joined issues, never empty |
| FreelancerApply.RefusalChangesNothing | src/app/freelancer/projects/actions.ts:26-38 | an invalid form answers with the schema's joined messages, a valid form for a project not waiting for a freelancer answers "Project is not open for applications."; neither changes any table |
| FreelancerApply.ApplySucceedsIff | src/app/freelancer/projects/actions.ts:18-83 | applying succeeds iff the form is valid, the project waits for a freelancer and the applicant's profile has not applied to it |
| FreelancerApply.Apply | src/app/freelancer/projects/actions.ts:18-83 | the answer is either an error or success; an error never adds an application; the id counter never goes back |
| FreelancerApply.Enroll | src/app/freelancer/projects/actions.ts:40-82 | defined as the three steps after the project check in order: find or create the user, then the profile, then the duplicate check and insert, threading the id counter |
| FreelancerApply.FindOrCreateUser | src/app/freelancer/projects/actions.ts:40-50 | defined as the user with the normalised e-mail, or a new FREELANCER user with the name and no password under the next id (its properties are UserStep's) |
| FreelancerApply.FindOrCreateProfile | src/app/freelancer/projects/actions.ts:52-63 | defined as the user's profile, or a new ACTIVE profile with null bio and empty skills and regions under the next id (its properties are ProfileStep's) |
| FreelancerApply.ApplyStep | src/app/freelancer/projects/actions.ts:65-78 | defined as "already applied" with no change when the project and profile already have an application, else success with the application inserted under the next id |
| FreelancerApply.UserStep | src/app/freelancer/projects/actions.ts:40-50 | a taken e-mail yields that user and changes nothing; otherwise the one new row is a FREELANCER user with the e-mail and name and no password under the next fresh id; e-mails stay unique |
| FreelancerApply.ProfileStep | src/app/freelancer/projects/actions.ts:52-63 | an existing profile is yielded and nothing changes; otherwise the one new row is an ACTIVE profile of the user with a null bio and empty skills and regions under the next fresh id; one profile per user and valid references are kept |
| FreelancerApply.ApplySuccessAdds | src/app/freelancer/projects/actions.ts:72-78 | a successful application adds exactly one application, with the message, under a new id, and changes no other application |
| FreelancerApply.EnrollAdds | src/app/freelancer/projects/actions.ts:65-78 | past the project check, success adds exactly the one application for the applicant's profile |
| FreelancerApply.InsertStep | src/app/freelancer/projects/actions.ts:65-78 | inserting after a negative duplicate check keeps one application per project and freelancer |
| FreelancerApply.EnrollKeepsInvariants | src/app/freelancer/projects/actions.ts:40-78 | the find-or-create steps and the insert keep the table invariants |
| FreelancerApply.ApplyKeepsInvariants | src/app/freelancer/projects/actions.ts:18-83 | applying keeps unique e-mails, one profile per user, one application per pair and the references valid |
| FreelancerApply.NewcomerIsNeverDuplicate | src/app/freelancer/projects/actions.ts:40-70 | an applicant whose e-mail is new always succeeds on a valid form for an open project |
| FreelancerApply.FindOrAddUser | src/app/freelancer/projects/actions.ts:40-50 | the user step performed on the store |
| FreelancerApply.FindOrAddProfile | src/app/freelancer/projects/actions.ts:52-63 | the profile step performed on the store |
| FreelancerApply.ApplyOnce | src/app/freelancer/projects/actions.ts:65-78 | an existing application gives "already applied" and writes nothing; otherwise the one application is inserted |
| FreelancerApply.EnrollIn | src/app/freelancer/projects/actions.ts:40-82 | the steps after the project check leave the answer and the tables that `Enroll` specifies |
| FreelancerApply.ApplyToProject | src/app/freelancer/projects/actions.ts:18-83 | the answer and the new users, profiles and applications are those of the specification, and the projects are untouched |
| Signup.ParseRole | src/app/signup/actions.ts:20-22 | "OWNER", "FREELANCER" and "GUEST" select the role of that name, every other value is refused; OPERATOR is never selected |
| Signup.CheckSignup | src/app/signup/actions.ts:11-26 | the checks pass iff the normalised e-mail and trimmed name are non-empty, the password has ≥ 6 characters and the role is allowed; the account holds the normalised values |
| Signup.CheckSignupOrder | src/app/signup/actions.ts:16-26 | a missing field is reported first, then an unknown role, then a short password |
| Signup.FailureMessage | src/app/signup/actions.ts:53-91 | the first rule that applies decides: a unique-constraint failure (P2002) gives the duplicate message; then an unreachable database (P1001) the connection advice; then a missing column or table (P2021, P2010) the migration advice; then, in development only, "Error: " with the raw message and the code or "N/A"; anything else, and every non-Error, the generic message |
| Signup.FailureMessageNamesCause | src/app/signup/actions.ts:61-90 | each fixed message is given for exactly its own rule, so the answer names the cause; the development message is never mistaken for a fixed one |
| Signup.RegisterWritesIff | src/app/signup/actions.ts:28-52 | the user is created iff no store call fails and the e-mail is free, with the hashed password; otherwise nothing is written |
| Signup.SignUpSucceedsIff | src/app/signup/actions.ts:10-92 | sign-up succeeds iff the checks pass, no store call fails and the e-mail is free; exactly one user is added; any other answer is an error that writes nothing |
| Signup.SignUp | src/app/signup/actions.ts:10-92 | the answer is either an error or success; an error writes nothing; success consumes one id |
| Signup.Register | src/app/signup/actions.ts:28-52 | after the checks, the answer is either an error that writes nothing or success that consumes one id |
| Signup.RegisterKeepsInvariants | src/app/signup/actions.ts:28-52 | the write keeps e-mails unique and ids fresh and never creates an operator |
| Signup.SignUpKeepsInvariants | src/app/signup/actions.ts:10-92 | sign-up keeps e-mails unique and ids fresh and never creates an operator |
| Signup.SecondSignUpRefused | src/app/signup/actions.ts:29-36 | after a sign-up, another with the same normalised e-mail gets the duplicate message |
| Signup.SignUpAction | src/app/signup/actions.ts:10-92 | the answer and the new users are those of the specification |
| Middleware.FirstSetCookie | src/middleware.ts:15-19 | the token is found iff one of the cookie names is set to a non-empty value, and it is the value of the first such name in order, as the chain of alternatives picks it |
| Middleware.Decide | src/middleware.ts:4-30 | a redirect goes to "/admin/signin" with the original path as callback |
| Middleware.RedirectsIff | src/middleware.ts:7-26 | the middleware redirects exactly the guarded paths without any non-empty session cookie |
| Middleware.AnySessionCookiePasses | src/middleware.ts:15-22 | any one of the four cookies, non-empty, lets the request through |
| Middleware.SignInPageNeverRedirects | src/middleware.ts:8-10 | the redirect target is let through, so redirects do not loop |
| Middleware.HandleRedirectsIff | src/middleware.ts:32-34 | with the matcher, exactly the operator-area paths other than sign-in pages and without a session cookie are redirected |
| Middleware.Handle | src/middleware.ts:4-34 | the middleware runs only on paths the matcher accepts: on any other path the request passes; a redirect happens only on a matched path and is the one the middleware function decides |
| Middleware.MatcherNarrowsGuard | src/middleware.ts:13 | a single scenario, not an all-input statement: for any cookies without a session token, "/administrator" passes the prefix test and would be redirected, yet it is never redirected because the matcher excludes it |
| AuthConfig.Authorize | src/auth.ts:59-67 | sign-in succeeds iff both fields are present, the operator e-mail is configured, the normalised e-mail equals it and the password matches exactly; the user is the operator |
| AuthConfig.UnnormalisedOperatorEmailLocksOut | src/auth.ts:61-63 | a configured e-mail with an upper-case letter or surrounding space admits nobody |
| AuthConfig.NoPasswordLocksOut | src/auth.ts:60-63 | an empty configured password admits nobody |
| AuthConfig.OperatorSignsIn | src/auth.ts:59-67 | any spelling of the operator e-mail that normalises to it signs in with the right password |
| AuthConfig.Token.Jwt | src/auth.ts:71-77 | on sign-in the token takes the user's role and e-mail; otherwise it is unchanged |
| AuthConfig.SessionCallback | src/auth.ts:78-83 | the token's role is copied onto the session's user, if there is one, and nothing else changes |
| AuthConfig.Authorized | src/auth.ts:84-92 | a path needs a signed-in user iff it starts with "/admin" and is not a sign-in page |
| AuthConfig.GuardsAgree | src/auth.ts:84-92 | the middleware and the callback guard the same paths and both leave the sign-in pages open |
| AuthConfig.FinalSecret | src/auth.ts:10-36 | NEXTAUTH_SECRET, else AUTH_SECRET (empty counts as unset), else none in production and exactly the fixed development fallback elsewhere; never an empty secret |
| OperatorGuard.RequireOperator | src/server/auth.ts:9-19 | the session passes iff it has a user with role OPERATOR; otherwise "Unauthorized" without a user, else "Forbidden" |
| OperatorGuard.GetOperatorSession | src/server/auth.ts:24-30 | the session when it is an operator's, null otherwise |
| OperatorGuard.GuardsAdmitTheSame | src/server/auth.ts:9-30 | the two guards admit the same sessions and return the same session |
| OperatorGuard.SignInThenGuard | src/server/auth.ts:9-19 | a single scenario, not an all-input statement about the guard: one sign-in, then both callbacks, then the guard. A successful operator sign-in is admitted; after a refused one, the role already in the token decides |
| StripeWebhook.Classify | src/app/api/stripe/webhook/route.ts:9-41 | no secret gives 500; a secret but no signature gives 400 "Missing stripe-signature"; a failed check gives 400 "Webhook Error: " with the thrown message or "Unknown error"; a verified event leads to a confirmation exactly when it is a paid completed checkout naming a booking, and is otherwise acknowledged with 200 |
| StripeWebhook.StoredPaymentIntent | src/app/api/stripe/webhook/route.ts:50-53 | the stored payment intent is the id string, the object's id, or null |
| StripeWebhook.Confirmed | src/app/api/stripe/webhook/route.ts:45-55 | the booking becomes CONFIRMED with the session and intent recorded, other fields kept |
| StripeWebhook.Fulfil | src/app/api/stripe/webhook/route.ts:43-73 | 200 iff the booking exists and the transaction succeeds; then the booking is confirmed, one record is appended and the confirmation is sent; else 500 and nothing changes |
| StripeWebhook.ConfirmationRecord | src/app/api/stripe/webhook/route.ts:56-67 | the audit record is a "booking_confirmed" event on the booking carrying the session id, the amount and the currency |
| StripeWebhook.RedeliveryRepeatsSideEffects | src/app/api/stripe/webhook/route.ts:43-73 | a redelivered event leaves the booking as it was but appends a second record and sends a second confirmation |
| StripeWebhook.FulfilTouchesOneBooking | src/app/api/stripe/webhook/route.ts:44-55 | confirming changes no other booking and removes none |
| StripeWebhook.Post | src/app/api/stripe/webhook/route.ts:9-77 | an immediate answer changes nothing; a confirmation changes the bookings and log as `Fulfil` says |
| StaysApi.View | src/app/api/stays/route.ts:20-39 | a stay copies the listing's fields, is in "usd", has the first photo (or none) as hero image and the property's id, title and address |
| StaysApi.Get | src/app/api/stays/route.ts:13-44 | 200 with the CORS headers and one view per selected row, in order |
| StaysApi.Selected | src/app/api/stays/route.ts:14-18 | the query returns at most the stored listings, newest publication first |
| StaysApi.OnlyPublishedShown | src/app/api/stays/route.ts:14-18 | every stay shown is the view of a published listing |
| StaysApi.EveryPublishedShown | src/app/api/stays/route.ts:14-18 | every published listing is shown, as many times as it occurs |
| StaysApi.NewestFirst | src/app/api/stays/route.ts:17 | the stays are sorted by publication date, newest first, undated first |
| StaysApi.DraftsHidden | src/app/api/stays/route.ts:15 | only published listings are selected |
| StaysApi.Options | src/app/api/stays/route.ts:46-51 | the preflight answer is 204 with the same CORS headers and no body |
| AdminProjects.ParseProjectStatus | src/app/admin/projects/page.tsx:37-40 | a string parses iff it is exactly a status name, and then to that status |
| AdminProjects.FilterStatus | src/app/admin/projects/page.tsx:36-40 | the filter is the named status iff the parameter names one; absent, empty and unknown values give no filter |
| AdminProjects.StatusNamesRoundTrip | src/app/admin/projects/page.tsx:37-40 | each status name selects its own status, and names are distinct |
| AdminProjects.StatusOptionsSelect | src/app/admin/projects/page.tsx:8-15 | the first choice is no filter; every other choice selects its status; every status has a choice |
| AdminProjects.Page | src/app/admin/projects/page.tsx:30-94 | a connectivity failure shows the unavailable notice, any other failure propagates; otherwise the board, the choices and the raw status (or "") are shown |
| AdminProjects.Board | src/app/admin/projects/page.tsx:44-54 | the query returns at most the stored projects, most recently updated first |
| AdminProjects.BoardMatchesFilter | src/app/admin/projects/page.tsx:44 | every listed project has the chosen status |
| AdminProjects.BoardComplete | src/app/admin/projects/page.tsx:44 | every project with the chosen status is listed, as many times as it occurs |
| AdminProjects.UnfilteredListsAll | src/app/admin/projects/page.tsx:44 | without a filter the board is a permutation of all projects |
| AdminProjects.MostRecentFirst | src/app/admin/projects/page.tsx:53 | the board is ordered by `updatedAt`, descending |
| AdminProjects.UnknownStatusListsAll | src/app/admin/projects/page.tsx:87 | an unknown status lists every project while the raw value is reported as current, matching no choice |

## Left out

- Rendering: all pages and components. In the project board, only the query, the filter, the choices
  and the current status are modelled.
- The project lifecycle transitions (approve, assign, publish) and the booking-total calculation:
  src/app/admin/projects/[id]/actions.ts and the checkout code are not part of this model.
- Photo storage: the blob upload, its local fallback and the data-URL fallback of the route are one
  `upload` parameter. The directory creation and file writes of the action are reduced to the URLs
  they yield.
- The submission id (`Date.now()` and `Math.random()`) is a parameter. Row ids are minted from a
  counter rather than generated by the database.
- Text.ToLower: lower-cases the ASCII letters only. JavaScript's full Unicode case mapping is not
  modelled.
- OwnerIntake.NumberIssues: `Number(…)` is the `toNumber` parameter. Infinity is not distinguished
  from a finite number.
- OwnerIntake.EmailIssues: the schema library's e-mail pattern is the `isEmail` parameter.
- The password hash (bcrypt) and the payment provider's signature check are parameters.
- The confirmation e-mail is reported as the booking it is sent for, not sent.
- `revalidatePath`: cache invalidation has no effect in the model.
- The debug logging and telemetry request in src/auth.ts, and all console output.
- Concurrency and transaction isolation. Two concurrent applications or sign-ups may both pass their
  duplicate checks. In the model, requests run one at a time.
- StaysApi.Get: a store failure is not modelled. The listing query at src/app/api/stays/route.ts:14-18
  is outside any `try`, so a failure reaches the framework as a 500; the model always answers 200.
- FreelancerApply.ApplyToProject: a store failure is not modelled. The action does not catch one, so
  it propagates to the framework.
- The booking row keeps only the fields the webhook reads or writes.
- OwnerIntake.TextIssues, FreelancerApply.MessageIssues, Signup.CheckSignup: a length is the
  number of characters (code points). The schema library's limits and `password.length` count
  UTF-16 code units. The two differ outside the Basic Multilingual Plane. For example, a password of
  three emoji has length 6 in JavaScript and is accepted there, but has length 3 in the model and
  is refused.
- OwnerSubmitRoute.Post: a `request.formData()` that throws (src/app/api/owner/submit/route.ts:23)
  is not modelled. In the route it reaches the catch and answers 500 or 503.
- StripeWebhook.Post: the confirmation e-mail's booking lookup (src/server/email.ts:7) runs after
  the transaction has committed and outside any `try`. If it fails, the route answers 500 although
  the booking is already CONFIRMED. The model always answers 200 after a committed confirmation.
