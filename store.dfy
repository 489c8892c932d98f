/**
 * The relational store the request handlers read and write: one map per
 * table, keyed by row id. A `Database` object stands for the shared ORM
 * client; each `Insert…` method is one `create` call on one table.
 *
 * Row ids are minted by the store from a counter (`c0`, `c1`, …), so a new
 * row never reuses the key of an existing one.
 */
module Store {
  import opened Wrappers
  import Text

  type Id = string

  /** The id the store gives to the `n`-th row it creates. */
  function MintId(n: nat): Id {
    "c" + Text.NatText(n)
  }

  /** Different counter values give different ids. */
  lemma MintIdInjective(a: nat, b: nat)
    requires MintId(a) == MintId(b)
    ensures a == b
  {
    assert Text.NatText(a) == MintId(a)[1..];
    Text.NatTextInjective(a, b);
  }

  // ---------------------------------------------------------------- enums

  datatype Role = Owner | Freelancer | Guest | Operator

  /** Only `ACTIVE` is used by the code that is modelled. */
  datatype ProfileStatus = Active

  /** `Declined` is the enum value REJECTED. */
  datatype ApplicationStatus = Applied | Accepted | Declined

  datatype PropertyStatus = PendingReview | Approved | Rejected | PropertyListed

  /** The project lifecycle, in order. */
  datatype ProjectStatus = Intake | WaitingFreelancer | Assigned | ReadyToList | Listed {
    /** The enum value's name as stored and as written in URLs. */
    function Name(): string {
      match this
      case Intake => "INTAKE"
      case WaitingFreelancer => "WAITING_FREELANCER"
      case Assigned => "ASSIGNED"
      case ReadyToList => "READY_TO_LIST"
      case Listed => "LISTED"
    }
  }

  datatype ListingStatus = Draft | Published

  datatype BookingStatus = PendingPayment | Confirmed

  // ---------------------------------------------------------------- rows

  datatype User = User(email: string, name: Option<string>, password: Option<string>, role: Role)

  datatype FreelancerProfile = FreelancerProfile(
    userId: Id, bio: Option<string>, skills: seq<string>, regions: seq<string>, status: ProfileStatus)

  datatype FreelancerApplication = FreelancerApplication(
    projectId: Id, freelancerId: Id, message: Option<string>, status: ApplicationStatus)

  datatype Property = Property(
    ownerName: string, ownerEmail: string, title: string, description: string, address: string,
    photos: seq<string>, status: PropertyStatus, baseNightlyRate: int, maxGuests: int)

  /** `updatedAt` is a timestamp in milliseconds. */
  datatype Project = Project(propertyId: Id, status: ProjectStatus, updatedAt: int)

  datatype Listing = Listing(
    propertyId: Id, slug: string, title: string, description: string,
    nightlyRate: int, cleaningFee: int, maxGuests: int, status: ListingStatus,
    publishedAt: Option<int>)

  datatype Booking = Booking(
    listingId: Id, guestEmail: string, totalAmount: int, currency: string, status: BookingStatus,
    stripeSessionId: Option<string>, stripePaymentIntentId: Option<string>)

  /** The JSON payload of a `booking_confirmed` audit record. */
  datatype EventData = EventData(stripeSessionId: string, amountTotal: Option<int>, currency: Option<string>)

  datatype EventLog = EventLog(entityType: string, entityId: Id, eventType: string, data: EventData)

  // ---------------------------------------------------------------- table predicates

  /** No id minted from counter value `n` or later is a key of `keys`. */
  ghost predicate FreshFrom(keys: set<Id>, n: nat) {
    forall m: nat :: n <= m ==> MintId(m) !in keys
  }

  lemma FreshAdvance(keys: set<Id>, n: nat)
    requires FreshFrom(keys, n)
    ensures MintId(n) !in keys
    ensures FreshFrom(keys, n + 1)
    ensures FreshFrom(keys + {MintId(n)}, n + 1)
  {
    forall m: nat | n + 1 <= m
      ensures MintId(m) != MintId(n)
    {
      if MintId(m) == MintId(n) {
        MintIdInjective(m, n);
      }
    }
  }

  /** Some user has this email (the column is unique). */
  ghost predicate EmailTaken(users: map<Id, User>, email: string) {
    exists k :: k in users && users[k].email == email
  }

  ghost predicate UniqueEmails(users: map<Id, User>) {
    forall a, b :: a in users && b in users && users[a].email == users[b].email ==> a == b
  }

  /** The user has a freelancer profile (`userId` is unique). */
  ghost predicate HasProfile(profiles: map<Id, FreelancerProfile>, userId: Id) {
    exists k :: k in profiles && profiles[k].userId == userId
  }

  ghost predicate OneProfilePerUser(profiles: map<Id, FreelancerProfile>) {
    forall a, b :: a in profiles && b in profiles && profiles[a].userId == profiles[b].userId ==> a == b
  }

  /** The id of the user with this email. */
  ghost function UserWithEmail(users: map<Id, User>, email: string): (k: Id)
    requires EmailTaken(users, email)
    ensures k in users && users[k].email == email
  {
    var k :| k in users && users[k].email == email; k
  }

  /** The id of the user's freelancer profile. */
  ghost function ProfileOf(profiles: map<Id, FreelancerProfile>, userId: Id): (k: Id)
    requires HasProfile(profiles, userId)
    ensures k in profiles && profiles[k].userId == userId
  {
    var k :| k in profiles && profiles[k].userId == userId; k
  }

  /** The project/freelancer pair already has an application. */
  ghost predicate HasApplied(applications: map<Id, FreelancerApplication>, projectId: Id, freelancerId: Id) {
    exists k :: k in applications && applications[k].projectId == projectId
                && applications[k].freelancerId == freelancerId
  }

  /** No freelancer holds two applications to the same project. */
  ghost predicate OneApplicationPerPair(applications: map<Id, FreelancerApplication>) {
    forall a, b ::
      (a in applications && b in applications
       && applications[a].projectId == applications[b].projectId
       && applications[a].freelancerId == applications[b].freelancerId) ==> a == b
  }

  /** Foreign key: every profile belongs to an existing user. */
  ghost predicate ProfilesReferToUsers(profiles: map<Id, FreelancerProfile>, users: map<Id, User>) {
    forall k :: k in profiles ==> profiles[k].userId in users
  }

  /** Foreign keys: every application names an existing project and an existing profile. */
  ghost predicate ApplicationsReferToRows(
    applications: map<Id, FreelancerApplication>, projects: map<Id, Project>, profiles: map<Id, FreelancerProfile>)
  {
    forall k :: k in applications ==> applications[k].projectId in projects && applications[k].freelancerId in profiles
  }

  // ---------------------------------------------------------------- the store

  class Database {
    var users: map<Id, User>
    var profiles: map<Id, FreelancerProfile>
    var applications: map<Id, FreelancerApplication>
    var properties: map<Id, Property>
    var projects: map<Id, Project>
    var listings: map<Id, Listing>
    var bookings: map<Id, Booking>
    var eventLog: seq<EventLog>
    var nextSeq: nat

    /** Minted ids are never in use yet; emails and profile owners are unique; foreign keys hold. */
    ghost predicate Valid()
      reads this
    {
      && FreshFrom(users.Keys, nextSeq)
      && FreshFrom(profiles.Keys, nextSeq)
      && FreshFrom(applications.Keys, nextSeq)
      && FreshFrom(properties.Keys, nextSeq)
      && FreshFrom(projects.Keys, nextSeq)
      && UniqueEmails(users)
      && OneProfilePerUser(profiles)
      && ProfilesReferToUsers(profiles, users)
      && ApplicationsReferToRows(applications, projects, profiles)
    }

    constructor ()
      ensures Valid()
      ensures users == map[] && profiles == map[] && applications == map[]
      ensures properties == map[] && projects == map[] && listings == map[] && bookings == map[]
      ensures eventLog == []
    {
      users, profiles, applications := map[], map[], map[];
      properties, projects, listings, bookings := map[], map[], map[], map[];
      eventLog := [];
      nextSeq := 0;
    }

    /** `user.create`; the caller has checked that the email is free. */
    method InsertUser(u: User) returns (id: Id)
      requires Valid() && !EmailTaken(users, u.email)
      modifies this`users, this`nextSeq
      ensures Valid()
      ensures id == MintId(old(nextSeq)) && id !in old(users)
      ensures users == old(users)[id := u] && nextSeq == old(nextSeq) + 1
    {
      FreshAdvance(users.Keys, nextSeq);
      FreshAdvance(profiles.Keys, nextSeq);
      FreshAdvance(applications.Keys, nextSeq);
      FreshAdvance(properties.Keys, nextSeq);
      FreshAdvance(projects.Keys, nextSeq);
      id := MintId(nextSeq);
      users := users[id := u];
      assert users.Keys == old(users).Keys + {id};
      nextSeq := nextSeq + 1;
    }

    /** `freelancerProfile.create`; the caller has checked that the user exists and has none. */
    method InsertProfile(p: FreelancerProfile) returns (id: Id)
      requires Valid() && p.userId in users && !HasProfile(profiles, p.userId)
      modifies this`profiles, this`nextSeq
      ensures Valid()
      ensures id == MintId(old(nextSeq)) && id !in old(profiles)
      ensures profiles == old(profiles)[id := p] && nextSeq == old(nextSeq) + 1
    {
      FreshAdvance(users.Keys, nextSeq);
      FreshAdvance(profiles.Keys, nextSeq);
      FreshAdvance(applications.Keys, nextSeq);
      FreshAdvance(properties.Keys, nextSeq);
      FreshAdvance(projects.Keys, nextSeq);
      id := MintId(nextSeq);
      profiles := profiles[id := p];
      assert profiles.Keys == old(profiles).Keys + {id};
      nextSeq := nextSeq + 1;
    }

    /** `freelancerApplication.create`, for an existing project and profile. */
    method InsertApplication(a: FreelancerApplication) returns (id: Id)
      requires Valid() && a.projectId in projects && a.freelancerId in profiles
      modifies this`applications, this`nextSeq
      ensures Valid()
      ensures id == MintId(old(nextSeq)) && id !in old(applications)
      ensures applications == old(applications)[id := a] && nextSeq == old(nextSeq) + 1
    {
      FreshAdvance(users.Keys, nextSeq);
      FreshAdvance(profiles.Keys, nextSeq);
      FreshAdvance(applications.Keys, nextSeq);
      FreshAdvance(properties.Keys, nextSeq);
      FreshAdvance(projects.Keys, nextSeq);
      id := MintId(nextSeq);
      applications := applications[id := a];
      assert applications.Keys == old(applications).Keys + {id};
      nextSeq := nextSeq + 1;
    }

    /** `property.create` */
    method InsertProperty(p: Property) returns (id: Id)
      requires Valid()
      modifies this`properties, this`nextSeq
      ensures Valid()
      ensures id == MintId(old(nextSeq)) && id !in old(properties)
      ensures properties == old(properties)[id := p] && nextSeq == old(nextSeq) + 1
    {
      FreshAdvance(users.Keys, nextSeq);
      FreshAdvance(profiles.Keys, nextSeq);
      FreshAdvance(applications.Keys, nextSeq);
      FreshAdvance(properties.Keys, nextSeq);
      FreshAdvance(projects.Keys, nextSeq);
      id := MintId(nextSeq);
      properties := properties[id := p];
      assert properties.Keys == old(properties).Keys + {id};
      nextSeq := nextSeq + 1;
    }

    /** `project.create` */
    method InsertProject(p: Project) returns (id: Id)
      requires Valid()
      modifies this`projects, this`nextSeq
      ensures Valid()
      ensures id == MintId(old(nextSeq)) && id !in old(projects)
      ensures projects == old(projects)[id := p] && nextSeq == old(nextSeq) + 1
    {
      FreshAdvance(users.Keys, nextSeq);
      FreshAdvance(profiles.Keys, nextSeq);
      FreshAdvance(applications.Keys, nextSeq);
      FreshAdvance(properties.Keys, nextSeq);
      FreshAdvance(projects.Keys, nextSeq);
      id := MintId(nextSeq);
      projects := projects[id := p];
      assert projects.Keys == old(projects).Keys + {id};
      nextSeq := nextSeq + 1;
    }
  }
}
