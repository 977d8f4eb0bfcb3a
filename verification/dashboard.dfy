/** The dashboard reductions of `views.py`: of the group-run log rows keep
    the latest per test group, then count PASS and FAIL/ERROR groups, per
    project for the project cards (`dashboard`) and per criticality for the
    charts (`dashboard_summary_api`). */
module Dashboard {
  import opened Text
  import opened Values

  /** A `TestGroupLog` row, with the columns the reductions read. Timestamps
      are instants on one clock; `None` is a missing value. */
  datatype LogRow = LogRow(
    projectId: Option<string>,
    groupId: Option<string>,
    status: Option<string>,
    criticality: Option<string>,
    started: Option<int>)

  /** The replacement rule of the reduction: a present timestamp beats a
      missing one and a later one beats an earlier one; ties do not replace. */
  predicate Newer(a: Option<int>, b: Option<int>) {
    a.Some? && (b.None? || a.value > b.value)
  }

  lemma NewerThanAllOlder(x: Option<int>, a: Option<int>, b: Option<int>)
    requires Newer(x, a) && !Newer(b, a)
    ensures Newer(x, b)
  {
  }

  /** The position of a group's entry in the reduction so far. */
  function IndexOf(entries: seq<LogRow>, gid: string): (r: Option<nat>)
    ensures r.Some? ==> r.value < |entries| && entries[r.value].groupId == Some(gid)
    ensures r.None? ==> forall i :: 0 <= i < |entries| ==> entries[i].groupId != Some(gid)
  {
    if entries == [] then None
    else if entries[|entries| - 1].groupId == Some(gid) then Some(|entries| - 1)
    else IndexOf(entries[..|entries| - 1], gid)
  }

  /** One turn of the loop over the rows: a row without a group is skipped,
      a new group is appended (a dict keeps insertion order), and a known
      group's row is replaced only by a newer one, in place. */
  function Offer(entries: seq<LogRow>, row: LogRow): seq<LogRow> {
    match row.groupId
    case None => entries
    case Some(g) =>
      match IndexOf(entries, g)
      case None => entries + [row]
      case Some(i) => if Newer(row.started, entries[i].started) then entries[i := row] else entries
  }

  /** `latest_by_group.values()` after the loop over `rows`. */
  function LatestByGroup(rows: seq<LogRow>): seq<LogRow> {
    if rows == [] then [] else Offer(LatestByGroup(rows[..|rows| - 1]), rows[|rows| - 1])
  }

  /** Row `k` is the first of its group with the newest timestamp: no row of
      the group is newer, and every earlier row of the group is older. */
  predicate FirstNewest(rows: seq<LogRow>, k: nat)
    requires k < |rows|
  {
    forall j :: 0 <= j < |rows| && rows[j].groupId == rows[k].groupId ==>
      !Newer(rows[j].started, rows[k].started) && (j < k ==> Newer(rows[k].started, rows[j].started))
  }

  predicate HasGroup(entries: seq<LogRow>, gid: string) {
    exists i :: 0 <= i < |entries| && entries[i].groupId == Some(gid)
  }

  predicate UniqueGroups(entries: seq<LogRow>) {
    forall i, j :: 0 <= i < j < |entries| ==> entries[i].groupId != entries[j].groupId
  }

  /** Every group id of `rows` has an entry. */
  predicate Covers(entries: seq<LogRow>, rows: seq<LogRow>) {
    forall k :: 0 <= k < |rows| && rows[k].groupId.Some? ==> HasGroup(entries, rows[k].groupId.value)
  }

  /** Entry `i` is row `origins[i]`, and that row is first-newest in its group. */
  predicate Tracks(entries: seq<LogRow>, origins: seq<nat>, rows: seq<LogRow>) {
    |origins| == |entries|
    && forall i :: 0 <= i < |entries| ==>
         entries[i].groupId.Some? && origins[i] < |rows| && rows[origins[i]] == entries[i] && FirstNewest(rows, origins[i])
  }

  /** The row index each entry of `LatestByGroup(rows)` was taken from. */
  ghost function Origins(rows: seq<LogRow>): seq<nat> {
    if rows == [] then []
    else
      var n := |rows| - 1;
      var o := Origins(rows[..n]);
      var e := LatestByGroup(rows[..n]);
      match rows[n].groupId
      case None => o
      case Some(g) =>
        match IndexOf(e, g)
        case None => o + [n]
        case Some(i) => if Newer(rows[n].started, e[i].started) && i < |o| then o[i := n] else o
  }

  /** The reduction keeps one entry per group id, exactly the non-null group
      ids of the rows, and each entry is the first row of its group carrying
      the newest timestamp. */
  lemma {:induction false} LatestByGroupSpec(rows: seq<LogRow>)
    ensures UniqueGroups(LatestByGroup(rows))
    ensures Tracks(LatestByGroup(rows), Origins(rows), rows)
    ensures Covers(LatestByGroup(rows), rows)
    decreases |rows|
  {
    if rows != [] {
      var n := |rows| - 1;
      var prev := rows[..n];
      LatestByGroupSpec(prev);
      var e0 := LatestByGroup(prev);
      var o0 := Origins(prev);
      match rows[n].groupId {
        case None =>
          KeptEntries(e0, o0, prev, rows);
          forall k | 0 <= k < |rows| && rows[k].groupId.Some?
            ensures HasGroup(e0, rows[k].groupId.value)
          {
            assert prev[k] == rows[k];
          }
        case Some(g) =>
          match IndexOf(e0, g) {
            case None => OfferNewGroup(e0, o0, prev, rows, g);
            case Some(p) =>
              if Newer(rows[n].started, e0[p].started) {
                OfferNewer(e0, o0, prev, rows, g, p);
              } else {
                OfferOlder(e0, o0, prev, rows, g, p);
              }
          }
      }
    }
  }

  /** A first-newest row of a prefix stays first-newest when the next row is
      of another group or is not newer. */
  lemma FirstNewestExtends(prev: seq<LogRow>, rows: seq<LogRow>, k: nat)
    requires |prev| + 1 == |rows| && prev == rows[..|prev|] && k < |prev|
    requires FirstNewest(prev, k)
    requires rows[|prev|].groupId == rows[k].groupId ==> !Newer(rows[|prev|].started, rows[k].started)
    ensures FirstNewest(rows, k)
  {
    forall j | 0 <= j < |rows| && rows[j].groupId == rows[k].groupId
      ensures !Newer(rows[j].started, rows[k].started) && (j < k ==> Newer(rows[k].started, rows[j].started))
    {
      if j < |prev| { assert prev[j] == rows[j]; }
    }
  }

  /** The entries other than `skip` keep tracking their rows. */
  lemma KeptEntries(e0: seq<LogRow>, o0: seq<nat>, prev: seq<LogRow>, rows: seq<LogRow>)
    requires |prev| + 1 == |rows| && prev == rows[..|prev|]
    requires Tracks(e0, o0, prev) && UniqueGroups(e0)
    requires forall i :: 0 <= i < |e0| && e0[i].groupId == rows[|prev|].groupId ==> !Newer(rows[|prev|].started, e0[i].started)
    ensures Tracks(e0, o0, rows)
  {
    forall i | 0 <= i < |e0|
      ensures e0[i].groupId.Some? && o0[i] < |rows| && rows[o0[i]] == e0[i] && FirstNewest(rows, o0[i])
    {
      assert prev[o0[i]] == rows[o0[i]];
      FirstNewestExtends(prev, rows, o0[i]);
    }
  }

  /** A group without an entry has no row in the prefix. */
  lemma NoEarlierRowOfGroup(e0: seq<LogRow>, prev: seq<LogRow>, g: string)
    requires Covers(e0, prev) && IndexOf(e0, g).None?
    ensures forall j :: 0 <= j < |prev| ==> prev[j].groupId != Some(g)
  {
  }

  lemma OfferNewGroup(e0: seq<LogRow>, o0: seq<nat>, prev: seq<LogRow>, rows: seq<LogRow>, g: string)
    requires |prev| + 1 == |rows| && prev == rows[..|prev|] && rows[|prev|].groupId == Some(g)
    requires UniqueGroups(e0) && Tracks(e0, o0, prev) && Covers(e0, prev)
    requires IndexOf(e0, g).None?
    ensures UniqueGroups(e0 + [rows[|prev|]])
    ensures Tracks(e0 + [rows[|prev|]], o0 + [|prev|], rows)
    ensures Covers(e0 + [rows[|prev|]], rows)
  {
    var n := |prev|;
    var x := rows[n];
    var e := e0 + [x];
    KeptEntries(e0, o0, prev, rows);
    NoEarlierRowOfGroup(e0, prev, g);
    forall j | 0 <= j < n
      ensures rows[j].groupId != x.groupId
    {
      assert prev[j] == rows[j];
    }
    assert FirstNewest(rows, n);
    forall k | 0 <= k < |rows| && rows[k].groupId.Some?
      ensures HasGroup(e, rows[k].groupId.value)
    {
      if k < n {
        assert prev[k] == rows[k];
        var i :| 0 <= i < |e0| && e0[i].groupId == rows[k].groupId;
        assert e[i] == e0[i];
      } else {
        assert e[|e0|] == x;
      }
    }
  }

  lemma OfferNewer(e0: seq<LogRow>, o0: seq<nat>, prev: seq<LogRow>, rows: seq<LogRow>, g: string, p: nat)
    requires |prev| + 1 == |rows| && prev == rows[..|prev|] && rows[|prev|].groupId == Some(g)
    requires UniqueGroups(e0) && Tracks(e0, o0, prev) && Covers(e0, prev)
    requires IndexOf(e0, g) == Some(p) && Newer(rows[|prev|].started, e0[p].started)
    ensures UniqueGroups(e0[p := rows[|prev|]])
    ensures Tracks(e0[p := rows[|prev|]], o0[p := |prev|], rows)
    ensures Covers(e0[p := rows[|prev|]], rows)
  {
    var n := |prev|;
    var x := rows[n];
    var e := e0[p := x];
    NewerRowIsFirstNewest(e0, o0, prev, rows, p);
    OthersKept(e0, o0, prev, rows, p);
    forall k | 0 <= k < |rows| && rows[k].groupId.Some?
      ensures HasGroup(e, rows[k].groupId.value)
    {
      if k < n {
        assert prev[k] == rows[k];
        var i :| 0 <= i < |e0| && e0[i].groupId == rows[k].groupId;
        assert e[i].groupId == e0[i].groupId;
      } else {
        assert e[p] == x;
      }
    }
  }

  /** A row newer than its group's current entry beats every earlier row of
      the group. */
  lemma NewerRowIsFirstNewest(e0: seq<LogRow>, o0: seq<nat>, prev: seq<LogRow>, rows: seq<LogRow>, p: nat)
    requires |prev| + 1 == |rows| && prev == rows[..|prev|]
    requires Tracks(e0, o0, prev) && p < |e0|
    requires rows[|prev|].groupId == e0[p].groupId && Newer(rows[|prev|].started, e0[p].started)
    ensures FirstNewest(rows, |prev|)
  {
    var n := |prev|;
    var x := rows[n];
    var kp := o0[p];
    assert FirstNewest(prev, kp);
    forall j | 0 <= j < |rows| && rows[j].groupId == x.groupId
      ensures !Newer(rows[j].started, x.started) && (j < n ==> Newer(x.started, rows[j].started))
    {
      if j < n {
        assert prev[j] == rows[j];
        NewerThanAllOlder(x.started, e0[p].started, rows[j].started);
      }
    }
  }

  /** Entries of other groups keep tracking their rows. */
  lemma OthersKept(e0: seq<LogRow>, o0: seq<nat>, prev: seq<LogRow>, rows: seq<LogRow>, p: nat)
    requires |prev| + 1 == |rows| && prev == rows[..|prev|]
    requires UniqueGroups(e0) && Tracks(e0, o0, prev) && p < |e0| && rows[|prev|].groupId == e0[p].groupId
    ensures forall i :: 0 <= i < |e0| && i != p ==> o0[i] < |rows| && rows[o0[i]] == e0[i] && FirstNewest(rows, o0[i])
  {
    forall i | 0 <= i < |e0| && i != p
      ensures o0[i] < |rows| && rows[o0[i]] == e0[i] && FirstNewest(rows, o0[i])
    {
      assert prev[o0[i]] == rows[o0[i]];
      FirstNewestExtends(prev, rows, o0[i]);
    }
  }

  lemma OfferOlder(e0: seq<LogRow>, o0: seq<nat>, prev: seq<LogRow>, rows: seq<LogRow>, g: string, p: nat)
    requires |prev| + 1 == |rows| && prev == rows[..|prev|] && rows[|prev|].groupId == Some(g)
    requires UniqueGroups(e0) && Tracks(e0, o0, prev) && Covers(e0, prev)
    requires IndexOf(e0, g) == Some(p) && !Newer(rows[|prev|].started, e0[p].started)
    ensures Tracks(e0, o0, rows)
    ensures Covers(e0, rows)
  {
    var n := |prev|;
    KeptEntries(e0, o0, prev, rows);
    forall k | 0 <= k < |rows| && rows[k].groupId.Some?
      ensures HasGroup(e0, rows[k].groupId.value)
    {
      if k < n { assert prev[k] == rows[k]; } else { assert e0[p].groupId == rows[n].groupId; }
    }
  }

  // --------------------------------------------------------------- counting

  /** `(row.get('status') or '').upper()`. */
  function StatusText(row: LogRow): string {
    match row.status
    case None => ""
    case Some(s) => Upper(s)
  }

  predicate Passing(row: LogRow) {
    StatusText(row) == "PASS"
  }

  predicate Failing(row: LogRow) {
    StatusText(row) == "FAIL" || StatusText(row) == "ERROR"
  }

  datatype GroupCounts = GroupCounts(total: nat, passed: nat, failed: nat)

  /** The dashboard's loop over the kept rows: the total counts PASS, FAIL
      and ERROR rows only, passed the PASS rows, failed the FAIL and ERROR
      rows; any other status (RUNNING, say) is not counted at all. */
  function CountGroups(entries: seq<LogRow>): (c: GroupCounts)
    ensures c.passed + c.failed == c.total
    ensures c.total <= |entries|
  {
    if entries == [] then GroupCounts(0, 0, 0)
    else
      var c := CountGroups(entries[..|entries| - 1]);
      var s := StatusText(entries[|entries| - 1]);
      GroupCounts(c.total + (if s == "PASS" || s == "FAIL" || s == "ERROR" then 1 else 0),
                  c.passed + (if s == "PASS" then 1 else 0),
                  c.failed + (if s == "FAIL" || s == "ERROR" then 1 else 0))
  }

  /** A row a chart or card count selects: failing or passing as asked, and
      in the given criticality bucket when one is given. */
  predicate Selected(row: LogRow, failing: bool, bucket: Option<Criticality>) {
    (if failing then Failing(row) else Passing(row)) && (bucket.None? || BucketOf(row) == bucket.value)
  }

  /** How many rows are selected, counted from the front. */
  function Tallied(entries: seq<LogRow>, failing: bool, bucket: Option<Criticality>): nat {
    if entries == [] then 0
    else (if Selected(entries[0], failing, bucket) then 1 else 0) + Tallied(entries[1..], failing, bucket)
  }

  /** One more row adds one exactly when it is selected. */
  lemma {:induction false} TalliedSnoc(entries: seq<LogRow>, row: LogRow, failing: bool, bucket: Option<Criticality>)
    ensures Tallied(entries + [row], failing, bucket)
            == Tallied(entries, failing, bucket) + (if Selected(row, failing, bucket) then 1 else 0)
    decreases |entries|
  {
    if entries == [] {
      assert entries + [row] == [row];
      assert [row][1..] == [];
    } else {
      assert (entries + [row])[0] == entries[0];
      assert (entries + [row])[1..] == entries[1..] + [row];
      TalliedSnoc(entries[1..], row, failing, bucket);
    }
  }

  /** The card counts are the numbers of passing and of failing rows. */
  lemma {:induction false} CountGroupsTallied(entries: seq<LogRow>)
    ensures CountGroups(entries).passed == Tallied(entries, false, None)
    ensures CountGroups(entries).failed == Tallied(entries, true, None)
    decreases |entries|
  {
    if entries != [] {
      var front, last := entries[..|entries| - 1], entries[|entries| - 1];
      assert entries == front + [last];
      CountGroupsTallied(front);
      TalliedSnoc(front, last, false, None);
      TalliedSnoc(front, last, true, None);
    }
  }

  /** No failure is counted exactly when no kept row failed or errored. */
  lemma {:induction false} NoFailedCount(entries: seq<LogRow>)
    ensures CountGroups(entries).failed == 0 <==> forall i :: 0 <= i < |entries| ==> !Failing(entries[i])
    decreases |entries|
  {
    if entries != [] {
      var front := entries[..|entries| - 1];
      NoFailedCount(front);
      assert forall i :: 0 <= i < |front| ==> front[i] == entries[i];
    }
  }

  /** A pass is counted exactly when some kept row passed. */
  lemma SomePassedCount(entries: seq<LogRow>)
    ensures CountGroups(entries).passed > 0 <==> exists i :: 0 <= i < |entries| && Passing(entries[i])
  {
    if CountGroups(entries).passed > 0 {
      var i := PassedWitness(entries);
    }
    if exists i :: 0 <= i < |entries| && Passing(entries[i]) {
      var i :| 0 <= i < |entries| && Passing(entries[i]);
      PassingIsCounted(entries, i);
    }
  }

  /** Where a counted pass comes from. */
  lemma {:induction false} PassedWitness(entries: seq<LogRow>) returns (i: nat)
    requires CountGroups(entries).passed > 0
    ensures i < |entries| && Passing(entries[i])
    decreases |entries|
  {
    var front := entries[..|entries| - 1];
    if Passing(entries[|front|]) {
      i := |front|;
    } else {
      assert CountGroups(entries).passed == CountGroups(front).passed;
      i := PassedWitness(front);
      assert front[i] == entries[i];
    }
  }

  /** A passing row is counted. */
  lemma {:induction false} PassingIsCounted(entries: seq<LogRow>, i: nat)
    requires i < |entries| && Passing(entries[i])
    ensures CountGroups(entries).passed > 0
    decreases |entries|
  {
    var front := entries[..|entries| - 1];
    if i < |front| {
      assert front[i] == entries[i];
      PassingIsCounted(front, i);
    }
  }

  /** Some group's latest run passed and none failed or errored. */
  predicate AllClear(entries: seq<LogRow>) {
    (exists i :: 0 <= i < |entries| && Passing(entries[i]))
    && forall i :: 0 <= i < |entries| ==> !Failing(entries[i])
  }

  datatype ProjectStatus = NoRun | Failed | Passed

  /** NORUN when no group has a finished run, FAILED when any failed or
      errored, PASSED otherwise. */
  function Overall(c: GroupCounts): (s: ProjectStatus)
    requires c.passed + c.failed == c.total
    ensures s == NoRun <==> c.total == 0
    ensures s == Failed <==> c.failed > 0
    ensures s == Passed <==> c.passed > 0 && c.failed == 0
  {
    if c.total == 0 then NoRun else if c.failed > 0 then Failed else Passed
  }

  datatype ProjectSummary = ProjectSummary(projectId: string, counts: GroupCounts, status: ProjectStatus)

  /** The log rows of one project, in their original order. */
  function RowsOf(rows: seq<LogRow>, projectId: string): (r: seq<LogRow>)
    ensures forall i :: 0 <= i < |r| ==> r[i].projectId == Some(projectId)
    ensures forall row :: row in r <==> row in rows && row.projectId == Some(projectId)
    ensures |r| <= |rows|
  {
    if rows == [] then []
    else RowsOf(rows[..|rows| - 1], projectId)
         + (if rows[|rows| - 1].projectId == Some(projectId) then [rows[|rows| - 1]] else [])
  }

  /** Filing keeps the order of the rows: the rows of a concatenation are
      the rows of its first part followed by those of its second. */
  lemma {:induction false} RowsOfAppend(a: seq<LogRow>, b: seq<LogRow>, projectId: string)
    ensures RowsOf(a + b, projectId) == RowsOf(a, projectId) + RowsOf(b, projectId)
    decreases |b|
  {
    if b == [] {
      assert a + b == a;
    } else {
      var front, last := b[..|b| - 1], b[|b| - 1];
      assert (a + b)[..|a + b| - 1] == a + front;
      assert (a + b)[|a + b| - 1] == last;
      RowsOfAppend(a, front, projectId);
    }
  }

  /** One project card of `dashboard`: the latest row per group among the
      project's rows, counted. The card counts the PASS and the FAIL/ERROR
      latest rows; a project is FAILED exactly when some group's latest run
      failed or errored, PASSED exactly when some group's latest run passed
      and none failed or errored, and NORUN when nothing was counted. */
  function SummarizeProject(rows: seq<LogRow>, projectId: string): (r: ProjectSummary)
    ensures r.projectId == projectId
    ensures r.counts.passed + r.counts.failed == r.counts.total
    ensures var latest := LatestByGroup(RowsOf(rows, projectId));
            r.counts.passed == Tallied(latest, false, None) && r.counts.failed == Tallied(latest, true, None)
    ensures var latest := LatestByGroup(RowsOf(rows, projectId));
            r.status == Failed <==> exists i :: 0 <= i < |latest| && Failing(latest[i])
    ensures r.status == Passed <==> AllClear(LatestByGroup(RowsOf(rows, projectId)))
    ensures r.status == NoRun <==> r.counts.total == 0
  {
    var latest := LatestByGroup(RowsOf(rows, projectId));
    var counts := CountGroups(latest);
    CountGroupsTallied(latest);
    NoFailedCount(latest);
    SomePassedCount(latest);
    ProjectSummary(projectId, counts, Overall(counts))
  }

  /** The project cards: the first 50 projects, each summarised. */
  function Dashboard(projects: seq<string>, rows: seq<LogRow>): (r: seq<ProjectSummary>)
    ensures |r| == if |projects| < 50 then |projects| else 50
    ensures forall i :: 0 <= i < |r| ==> r[i].projectId == projects[i]
    ensures forall i :: 0 <= i < |r| ==> r[i] == SummarizeProject(rows, projects[i])
  {
    var shown := if |projects| < 50 then projects else projects[..50];
    seq(|shown|, i requires 0 <= i < |shown| => SummarizeProject(rows, shown[i]))
  }

  // ----------------------------------------------------------- criticality

  datatype Criticality = Critical | High | Medium | Low

  /** `row.get('criticality') or 'Low'`, and any value that is not one of
      the four names is counted as Low. */
  function BucketOf(row: LogRow): (b: Criticality)
    ensures (row.criticality.None? || row.criticality == Some("")) ==> b == Low
    ensures row.criticality.Some? && row.criticality.value !in {"Critical", "High", "Medium"} ==> b == Low
    ensures row.criticality == Some("Critical") <==> b == Critical
    ensures row.criticality == Some("High") <==> b == High
    ensures row.criticality == Some("Medium") <==> b == Medium
  {
    match row.criticality
    case None => Low
    case Some(c) =>
      if c == "Critical" then Critical else if c == "High" then High else if c == "Medium" then Medium else Low
  }

  datatype Tally = Tally(critical: nat, high: nat, medium: nat, low: nat) {
    function Sum(): nat {
      critical + high + medium + low
    }
    function Get(b: Criticality): nat {
      match b
      case Critical => critical
      case High => high
      case Medium => medium
      case Low => low
    }
    function Bump(b: Criticality): (t: Tally)
      ensures t.Get(b) == Get(b) + 1
      ensures forall other :: other != b ==> t.Get(other) == Get(other)
      ensures t.Sum() == Sum() + 1
    {
      match b
      case Critical => this.(critical := critical + 1)
      case High => this.(high := high + 1)
      case Medium => this.(medium := medium + 1)
      case Low => this.(low := low + 1)
    }
  }

  datatype ChartData = ChartData(failed: Tally, passed: Tally, failedTotal: nat, passedTotal: nat)

  /** The bucket loop of `dashboard_summary_api` over the kept rows. Its
      bucket totals agree with the project cards' counts of the same rows. */
  function Buckets(entries: seq<LogRow>): (r: (Tally, Tally))
    ensures r.0.Sum() == CountGroups(entries).failed
    ensures r.1.Sum() == CountGroups(entries).passed
  {
    if entries == [] then (Tally(0, 0, 0, 0), Tally(0, 0, 0, 0))
    else
      var t := Buckets(entries[..|entries| - 1]);
      var last := entries[|entries| - 1];
      var s := StatusText(last);
      if s == "FAIL" || s == "ERROR" then (t.0.Bump(BucketOf(last)), t.1)
      else if s == "PASS" then (t.0, t.1.Bump(BucketOf(last)))
      else t
  }

  /** Each bucket holds the number of rows of its criticality that failed
      (first tally) or passed (second tally). */
  lemma {:induction false} BucketsTallied(entries: seq<LogRow>)
    ensures forall k :: Buckets(entries).0.Get(k) == Tallied(entries, true, Some(k))
    ensures forall k :: Buckets(entries).1.Get(k) == Tallied(entries, false, Some(k))
    decreases |entries|
  {
    if entries != [] {
      var front, last := entries[..|entries| - 1], entries[|entries| - 1];
      assert entries == front + [last];
      BucketsTallied(front);
      forall k
        ensures Buckets(entries).0.Get(k) == Tallied(entries, true, Some(k))
        ensures Buckets(entries).1.Get(k) == Tallied(entries, false, Some(k))
      {
        TalliedSnoc(front, last, true, Some(k));
        TalliedSnoc(front, last, false, Some(k));
      }
    }
  }

  /** `dashboard_summary_api`: the latest row per group over all rows, in
      buckets. Each reported total is the sum of its buckets, and the two
      totals together count exactly the groups whose latest status is PASS,
      FAIL or ERROR. */
  function ChartSummary(rows: seq<LogRow>): (r: ChartData)
    ensures r.failedTotal == r.failed.Sum() && r.passedTotal == r.passed.Sum()
    ensures r.failedTotal + r.passedTotal == CountGroups(LatestByGroup(rows)).total
    ensures r.failedTotal == CountGroups(LatestByGroup(rows)).failed
    ensures forall k :: r.failed.Get(k) == Tallied(LatestByGroup(rows), true, Some(k))
    ensures forall k :: r.passed.Get(k) == Tallied(LatestByGroup(rows), false, Some(k))
  {
    BucketsTallied(LatestByGroup(rows));
    var b := Buckets(LatestByGroup(rows));
    ChartData(b.0, b.1, b.0.Sum(), b.1.Sum())
  }
}
