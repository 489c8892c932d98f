/**
 * The operator's project board (`/admin/projects`): every project with its
 * property and listing, most recently updated first, optionally narrowed to
 * one status chosen through the `status` query parameter.
 *
 * The query's failure is the parameter `fault`: None when the query
 * succeeds, else the message of what it threw.
 */
module AdminProjects {
  import opened Wrappers
  import Query
  import opened Store
  import OwnerIntake

  /** A project row with the property and listing the page includes. */
  datatype ProjectRow = ProjectRow(id: Id, project: Project, property: Property, listing: Option<Listing>)

  /** The status filter's choices: a value for the query parameter and its label. */
  const StatusOptions: seq<(string, string)> := [
    ("", "All"),
    ("INTAKE", "Intake"),
    ("WAITING_FREELANCER", "Waiting freelancer"),
    ("ASSIGNED", "Assigned"),
    ("READY_TO_LIST", "Ready to list"),
    ("LISTED", "Listed")]

  /** `Object.values(ProjectStatus).includes(s)`: the status whose name is exactly `s`. */
  function ParseProjectStatus(s: string): (r: Option<ProjectStatus>)
    ensures r.Some? ==> r.value.Name() == s
    ensures r.None? ==> forall p: ProjectStatus :: p.Name() != s
  {
    if s == "INTAKE" then Some(Intake)
    else if s == "WAITING_FREELANCER" then Some(WaitingFreelancer)
    else if s == "ASSIGNED" then Some(Assigned)
    else if s == "READY_TO_LIST" then Some(ReadyToList)
    else if s == "LISTED" then Some(Listed)
    else None
  }

  /** The filter in force: the parameter when it names a status, no filter when it is absent, empty or unknown. */
  function FilterStatus(status: Option<string>): (r: Option<ProjectStatus>)
    ensures r.Some? <==> status.Some? && exists p: ProjectStatus :: p.Name() == status.value
    ensures r.Some? ==> r.value.Name() == status.value
  {
    if status.None? || status.value == [] then None else ParseProjectStatus(status.value)
  }

  /** Every status name parses back to its status, and no two statuses share a name. */
  lemma StatusNamesRoundTrip(p: ProjectStatus, q: ProjectStatus)
    ensures FilterStatus(Some(p.Name())) == Some(p)
    ensures p.Name() == q.Name() ==> p == q
  {
    assert p.Name() != [];
  }

  /**
   * The choices offered are "All" (no filter) and one per status, each
   * selecting its own status; every status can be chosen.
   */
  lemma StatusOptionsSelect()
    ensures FilterStatus(Some(StatusOptions[0].0)).None?
    ensures forall i :: 1 <= i < |StatusOptions| ==>
              FilterStatus(Some(StatusOptions[i].0)).Some?
              && FilterStatus(Some(StatusOptions[i].0)).value.Name() == StatusOptions[i].0
    ensures forall p: ProjectStatus :: exists i :: 1 <= i < |StatusOptions| && StatusOptions[i].0 == p.Name()
  {
    forall i | 1 <= i < |StatusOptions|
      ensures FilterStatus(Some(StatusOptions[i].0)).Some?
    {
      assert StatusOptions[i].0 == [Intake, WaitingFreelancer, Assigned, ReadyToList, Listed][i - 1].Name();
    }
    forall p: ProjectStatus
      ensures exists i :: 1 <= i < |StatusOptions| && StatusOptions[i].0 == p.Name()
    {
      match p
      case Intake => assert StatusOptions[1].0 == p.Name();
      case WaitingFreelancer => assert StatusOptions[2].0 == p.Name();
      case Assigned => assert StatusOptions[3].0 == p.Name();
      case ReadyToList => assert StatusOptions[4].0 == p.Name();
      case Listed => assert StatusOptions[5].0 == p.Name();
    }
  }

  /** `where: { status }` when a filter is in force; every row otherwise. */
  predicate Keep(filter: Option<ProjectStatus>, r: ProjectRow) {
    filter.None? || r.project.status == filter.value
  }

  function KeepFor(filter: Option<ProjectStatus>): ProjectRow -> bool {
    r => Keep(filter, r)
  }

  /** `orderBy: { updatedAt: "desc" }`. */
  function UpdatedRank(r: ProjectRow): Query.Rank {
    Query.At(r.project.updatedAt)
  }

  /** The rows the page lists: some of the rows, most recently updated first. */
  function Board(rows: seq<ProjectRow>, filter: Option<ProjectStatus>): (b: seq<ProjectRow>)
    ensures |b| <= |rows|
    ensures Query.SortedDesc(b, UpdatedRank)
  {
    Query.OrderByDesc(Query.Where(rows, KeepFor(filter)), UpdatedRank)
  }

  /** What the page shows. */
  datatype PageResult =
    | Unavailable
    | Thrown(message: string)
    | Shown(projects: seq<ProjectRow>, options: seq<(string, string)>, currentStatus: string)

  /**
   * The page: a connectivity failure shows the "cannot connect" notice, any
   * other failure propagates, and otherwise the board lists the rows. The
   * status the board reports as current is the raw parameter, not the filter.
   */
  function Page(rows: seq<ProjectRow>, status: Option<string>, fault: Option<string>): (r: PageResult)
    ensures r.Unavailable? <==> fault.Some? && OwnerIntake.IsConnectivityError(fault.value)
    ensures r.Thrown? <==> fault.Some? && !OwnerIntake.IsConnectivityError(fault.value)
    ensures r.Thrown? ==> r.message == fault.value
    ensures r.Shown? <==> fault.None?
    ensures r.Shown? ==>
      && r.projects == Board(rows, FilterStatus(status))
      && r.options == StatusOptions
      && r.currentStatus == status.GetOr("")
  {
    match fault
    case Some(message) =>
      if OwnerIntake.IsConnectivityError(message) then Unavailable else Thrown(message)
    case None =>
      Shown(Board(rows, FilterStatus(status)), StatusOptions, status.GetOr(""))
  }

  /** Every row listed has the chosen status. */
  lemma BoardMatchesFilter(rows: seq<ProjectRow>, filter: Option<ProjectStatus>)
    ensures forall r :: r in Board(rows, filter) ==> Keep(filter, r)
  {
    var kept := Query.Where(rows, KeepFor(filter));
    forall r | r in Board(rows, filter)
      ensures Keep(filter, r)
    {
      assert r in multiset(kept);
      var i :| 0 <= i < |kept| && kept[i] == r;
      assert KeepFor(filter)(kept[i]);
    }
  }

  /** Every row with the chosen status is listed, once per occurrence. */
  lemma BoardComplete(rows: seq<ProjectRow>, filter: Option<ProjectStatus>, r: ProjectRow)
    requires Keep(filter, r)
    ensures multiset(Board(rows, filter))[r] == multiset(rows)[r]
  {
    Query.WhereCounts(rows, KeepFor(filter));
    assert KeepFor(filter)(r);
  }

  /** Without a filter the board is a reordering of all the rows. */
  lemma UnfilteredListsAll(rows: seq<ProjectRow>)
    ensures multiset(Board(rows, None)) == multiset(rows)
  {
    forall i | 0 <= i < |rows|
      ensures KeepFor(None)(rows[i])
    {
    }
    Query.WhereAll(rows, KeepFor(None));
  }

  /** The most recently updated project comes first. */
  lemma MostRecentFirst(rows: seq<ProjectRow>, filter: Option<ProjectStatus>)
    ensures Query.SortedDesc(Board(rows, filter), UpdatedRank)
    ensures forall i, j :: 0 <= i < j < |Board(rows, filter)| ==>
              Board(rows, filter)[i].project.updatedAt >= Board(rows, filter)[j].project.updatedAt
  {
    var l := Board(rows, filter);
    forall i, j | 0 <= i < j < |l|
      ensures l[i].project.updatedAt >= l[j].project.updatedAt
    {
      assert Query.RankGe(UpdatedRank(l[i]), UpdatedRank(l[j]));
    }
  }

  /**
   * A status parameter that names no status (a lower-case "intake", say) is
   * ignored: the board lists every project while still reporting that value
   * as the current status, which none of the choices carries.
   */
  lemma UnknownStatusListsAll(rows: seq<ProjectRow>, status: string)
    requires ParseProjectStatus(status).None?
    ensures Page(rows, Some(status), None).projects == Board(rows, None)
    ensures Page(rows, Some(status), None).currentStatus == status
    ensures multiset(Page(rows, Some(status), None).projects) == multiset(rows)
    ensures status != [] ==> forall i :: 0 <= i < |StatusOptions| ==> StatusOptions[i].0 != status
  {
    UnfilteredListsAll(rows);
    StatusOptionsSelect();
    assert FilterStatus(Some(status)).None?;
    forall i | 0 <= i < |StatusOptions| && status != []
      ensures StatusOptions[i].0 != status
    {
      if i > 0 {
        assert FilterStatus(Some(StatusOptions[i].0)).Some?;
      }
    }
  }
}
