/** The dashboard's job table (frontend/src/components/dashboard/JobsList.tsx):
    the sort controls, the order of the rows, and what each row shows. */
module JobsList {
  import opened Wrappers
  import opened Text
  import opened JobTypes

  /** A row's job; `createdAt` is the time `new Date(createdAt)` stands for, in
      milliseconds. */
  datatype ListJob = ListJob(id: string, originalVideoName: string, status: JobStatus, progress: int, createdAt: int)

  datatype SortField = CreatedAt | Status
  datatype Direction = Asc | Desc

  function Flip(d: Direction): Direction {
    if d == Asc then Desc else Asc
  }

  /** The sort state after a click on a column header. */
  function NextSort(field: SortField, direction: Direction, clicked: SortField): (SortField, Direction) {
    if field == clicked then (field, Flip(direction)) else (clicked, Desc)
  }

  /** Every click sorts by the clicked column; a new column starts descending;
      clicking the same column twice restores its direction, and clicking a new
      column twice leaves it ascending. */
  lemma NextSortMeaning(field: SortField, direction: Direction, clicked: SortField)
    ensures NextSort(field, direction, clicked).0 == clicked
    ensures field != clicked ==> NextSort(field, direction, clicked).1 == Desc
    ensures field == clicked ==> NextSort(field, direction, clicked).1 != direction
    ensures var (f, d) := NextSort(field, direction, clicked);
      NextSort(f, d, clicked) == (clicked, if field == clicked then direction else Asc)
  {
  }

  /** The status order of the status sort. */
  function Rank(s: JobStatus): (r: nat)
    ensures r < 4
  {
    match s
    case PROCESSING => 0
    case QUEUED => 1
    case COMPLETED => 2
    case FAILED => 3
  }

  /** The comparator handed to `Array.prototype.sort`. */
  function Compare(field: SortField, direction: Direction, a: ListJob, b: ListJob): int {
    if field == CreatedAt then
      if direction == Asc then a.createdAt - b.createdAt else b.createdAt - a.createdAt
    else
      var diff := Rank(a.status) - Rank(b.status);
      if direction == Asc then diff else -diff
  }

  /** The number each job is sorted by. */
  function Key(field: SortField, direction: Direction, j: ListJob): int {
    var k := if field == CreatedAt then j.createdAt else Rank(j.status);
    if direction == Asc then k else -k
  }

  /** The comparator is a difference of keys, so it is a consistent total
      preorder and sorting by it is sorting by the key. */
  lemma CompareByKey(field: SortField, direction: Direction, a: ListJob, b: ListJob)
    ensures Compare(field, direction, a, b) == Key(field, direction, a) - Key(field, direction, b)
    ensures Compare(field, direction, a, b) == -Compare(field, direction, b, a)
  {
  }

  predicate SortedByKey(field: SortField, direction: Direction, s: seq<ListJob>) {
    forall i, j :: 0 <= i < j < |s| ==> Key(field, direction, s[i]) <= Key(field, direction, s[j])
  }

  /** Inserts a job after every job whose key is not larger, which keeps equal
      keys in their input order. */
  function Insert(field: SortField, direction: Direction, x: ListJob, s: seq<ListJob>): (r: seq<ListJob>)
    requires SortedByKey(field, direction, s)
    ensures SortedByKey(field, direction, r)
    ensures multiset(r) == multiset(s) + multiset{x}
    ensures |r| == |s| + 1
    ensures r[0] == x || (|s| > 0 && r[0] == s[0])
  {
    if |s| == 0 then [x]
    else if Key(field, direction, x) < Key(field, direction, s[0]) then [x] + s
    else
      assert s == [s[0]] + s[1..];
      [s[0]] + Insert(field, direction, x, s[1..])
  }

  /** `[...jobs].sort(comparator)`: a sorted copy; the jobs themselves are values
      and are left as they were. */
  function SortJobs(jobs: seq<ListJob>, field: SortField, direction: Direction): (r: seq<ListJob>)
    ensures SortedByKey(field, direction, r)
    ensures multiset(r) == multiset(jobs)
  {
    if |jobs| == 0 then []
    else
      var n := |jobs| - 1;
      assert jobs == jobs[..n] + [jobs[n]];
      Insert(field, direction, jobs[n], SortJobs(jobs[..n], field, direction))
  }

  /** What the sorted table shows: every job exactly as often as it was given,
      and for any two rows the comparator never puts the later one first; by
      date that is oldest first ascending and newest first descending, by status
      PROCESSING, QUEUED, COMPLETED, FAILED ascending and the reverse descending. */
  lemma {:induction false} SortedRows(jobs: seq<ListJob>, field: SortField, direction: Direction)
    ensures var r := SortJobs(jobs, field, direction);
      && multiset(r) == multiset(jobs) && |r| == |jobs|
      && (forall i, j :: 0 <= i < j < |r| ==> Compare(field, direction, r[i], r[j]) <= 0)
      && (field == CreatedAt && direction == Asc ==> forall i, j :: 0 <= i < j < |r| ==> r[i].createdAt <= r[j].createdAt)
      && (field == CreatedAt && direction == Desc ==> forall i, j :: 0 <= i < j < |r| ==> r[i].createdAt >= r[j].createdAt)
      && (field == Status && direction == Asc ==> forall i, j :: 0 <= i < j < |r| ==> Rank(r[i].status) <= Rank(r[j].status))
      && (field == Status && direction == Desc ==> forall i, j :: 0 <= i < j < |r| ==> Rank(r[i].status) >= Rank(r[j].status))
  {
    var r := SortJobs(jobs, field, direction);
    assert |multiset(r)| == |r| && |multiset(jobs)| == |jobs|;
    forall i, j | 0 <= i < j < |r| ensures Compare(field, direction, r[i], r[j]) <= 0 {
      CompareByKey(field, direction, r[i], r[j]);
    }
  }

  /** The arrow shown in a column header: only the active column has one. */
  function Indicator(field: SortField, direction: Direction, column: SortField): Option<string> {
    if field == column then Some(if direction == Asc then "↑" else "↓") else None
  }

  lemma OneIndicator(field: SortField, direction: Direction)
    ensures Indicator(field, direction, CreatedAt).Some? != Indicator(field, direction, Status).Some?
    ensures Indicator(field, direction, field) == Some(if direction == Asc then "↑" else "↓")
  {
  }

  /** The badge colour of a status name. */
  function StatusColor(status: string): string {
    if status == "PROCESSING" then "bg-blue-100 text-blue-800"
    else if status == "QUEUED" then "bg-yellow-100 text-yellow-800"
    else if status == "COMPLETED" then "bg-green-100 text-green-800"
    else if status == "FAILED" then "bg-red-100 text-red-800"
    else "bg-gray-100 text-gray-800"
  }

  /** Every name has a colour; the four statuses have four different ones and
      any other name gets gray. */
  lemma StatusColors(status: string)
    ensures StatusColor(status) == "bg-gray-100 text-gray-800" <==> status !in StatusNames
    ensures forall s, t :: StatusColor(StatusName(s)) == StatusColor(StatusName(t)) ==> s == t
  {
  }

  /** The name cell: the original name, or a placeholder for an empty one. */
  function DisplayName(name: string): (shown: string)
    ensures shown != ""
    ensures name != "" ==> shown == name
  {
    if name == "" then "Untitled Video" else name
  }

  /** The progress bar under the badge, as its width in percent. */
  function ProgressBar(j: ListJob): Option<int> {
    if j.status == PROCESSING && j.progress > 0 then Some(j.progress) else None
  }

  datatype Action = ViewLink(href: string, caption: string) | DisabledButton(caption: string)

  function ActionFor(j: ListJob): Action {
    if j.status == PROCESSING then ViewLink("/processing/" + j.id, "View Progress")
    else if j.status == COMPLETED then ViewLink("/results/" + j.id, "View Results")
    else if j.status == FAILED then DisabledButton("Failed")
    else DisabledButton("Queued")
  }

  /** A job being processed links to its progress page and a completed one to
      its results, both ending in the job's id; failed and queued jobs get a
      disabled button. A progress bar appears only for a job being processed
      that has made progress. */
  lemma ActionMeaning(j: ListJob)
    requires '/' !in j.id
    ensures ActionFor(j).ViewLink? <==> j.status == PROCESSING || j.status == COMPLETED
    ensures ActionFor(j).ViewLink? ==> LastSegment(ActionFor(j).href, '/') == j.id
    ensures j.status == PROCESSING ==> StartsWith(ActionFor(j).href, "/processing/")
    ensures j.status == COMPLETED ==> StartsWith(ActionFor(j).href, "/results/")
    ensures j.status == FAILED ==> ActionFor(j) == DisabledButton("Failed")
    ensures j.status == QUEUED ==> ActionFor(j) == DisabledButton("Queued")
    ensures ProgressBar(j).Some? ==> ActionFor(j).ViewLink? && ProgressBar(j).value > 0
  {
    if j.status == PROCESSING {
      assert "/processing/" + j.id == "/processing" + ['/'] + j.id;
      LastSegmentAfterSeparator("/processing", '/', j.id);
    } else if j.status == COMPLETED {
      assert "/results/" + j.id == "/results" + ['/'] + j.id;
      LastSegmentAfterSeparator("/results", '/', j.id);
    }
  }

  /** The table's sort state; clicks on the two sortable headers update it. */
  class SortControl {
    var field: SortField
    var direction: Direction

    constructor()
      ensures field == CreatedAt && direction == Desc
    {
      field := CreatedAt;
      direction := Desc;
    }

    method HandleSort(clicked: SortField)
      modifies this
      ensures (field, direction) == NextSort(old(field), old(direction), clicked)
    {
      if field == clicked {
        direction := if direction == Asc then Desc else Asc;
      } else {
        field := clicked;
        direction := Desc;
      }
    }

    /** The rows in the order currently shown. */
    function Rows(jobs: seq<ListJob>): seq<ListJob>
      reads this
    {
      SortJobs(jobs, field, direction)
    }
  }
}
