/** The group-run state machine of `services.py`: `start_group_run_task`
    registers a PENDING entry, `get_group_run_status` reads it back, and
    `_execute_group_in_background` moves it through RUNNING to COMPLETED
    (or leaves it at ERROR when the group is missing), running the group's
    tests in ascending execution order and folding their statuses with
    ERROR > FAIL > PASS. The registry is a value here, and the worker a
    sequential computation over it. */
module GroupRun {
  import opened Values

  datatype Phase = Pending | Running | Completed | Errored

  /** What a finished test reports back to the group: its status and message. */
  datatype TestOutcome = TestOutcome(status: Status, message: string)

  /** One entry of `GROUP_RUN_STATUS`. `finalStatus` and `failedTests` are
      absent until the run completes. */
  datatype RunState = RunState(
    phase: Phase,
    total: nat,
    executed: nat,
    currentTestName: string,
    results: seq<TestOutcome>,
    finalStatus: Option<Status>,
    failedTests: Option<nat>)

  const PreparingName := "Preparing to run..."
  const GroupNotFoundName := "Group not found."
  const RunNotFoundMessage := "Run ID not found."

  function PendingState(): RunState {
    RunState(Pending, 0, 0, PreparingName, [], None, None)
  }

  type Registry = map<string, RunState>

  /** `start_group_run_task`: the entry for the new run id is PENDING with
      nothing counted yet, before any worker runs; other runs are untouched. */
  function StartRun(registry: Registry, runId: string): (r: Registry)
    ensures runId in r && r[runId].phase == Pending
    ensures r[runId].total == 0 && r[runId].executed == 0 && r[runId].results == []
    ensures r[runId].finalStatus.None? && r[runId].failedTests.None?
    ensures r.Keys == registry.Keys + {runId}
    ensures forall id :: id in registry && id != runId ==> r[id] == registry[id]
  {
    registry[runId := PendingState()]
  }

  datatype StatusReply = Known(state: RunState) | NotFound(message: string)

  /** `get_group_run_status`: the entry, or NOT_FOUND for an unknown id. */
  function GetStatus(registry: Registry, runId: string): (r: StatusReply)
    ensures r.Known? <==> runId in registry
    ensures r.Known? ==> r.state == registry[runId]
    ensures r.NotFound? ==> r.message == RunNotFoundMessage
  {
    if runId in registry then Known(registry[runId]) else NotFound(RunNotFoundMessage)
  }

  // --------------------------------------------------------------- ordering

  /** A test of the group as the worker receives it. Execution orders are
      not unique: the table's uniqueness is on (group, test case). */
  datatype GroupItem = GroupItem(id: string, executionOrder: int, testName: string)

  predicate Ordered(s: seq<GroupItem>) {
    forall i, j :: 0 <= i < j < |s| ==> s[i].executionOrder <= s[j].executionOrder
  }

  /** The items of one execution order, in sequence order. */
  function WithOrder(s: seq<GroupItem>, order: int): (r: seq<GroupItem>)
    ensures forall k :: 0 <= k < |r| ==> r[k].executionOrder == order
  {
    if s == [] then []
    else (if s[0].executionOrder == order then [s[0]] else []) + WithOrder(s[1..], order)
  }

  /** Places `x` before the first item whose order is not smaller, so that
      `x` precedes the equal-order items already placed. */
  function Insert(x: GroupItem, s: seq<GroupItem>): (r: seq<GroupItem>)
    ensures multiset(r) == multiset(s) + multiset{x}
    ensures |r| == |s| + 1
    ensures r[0] == x || (s != [] && r[0] == s[0])
  {
    if s == [] || x.executionOrder <= s[0].executionOrder then
      [x] + s
    else
      assert s == [s[0]] + s[1..];
      var rest := Insert(x, s[1..]);
      assert multiset([s[0]] + rest) == multiset{s[0]} + multiset(rest);
      [s[0]] + rest
  }

  /** An item no later than the head of an ordered sequence can go in front. */
  lemma ConsOrdered(a: GroupItem, t: seq<GroupItem>)
    requires Ordered(t)
    requires t == [] || a.executionOrder <= t[0].executionOrder
    ensures Ordered([a] + t)
  {
    var u := [a] + t;
    forall i, j | 0 <= i < j < |u| ensures u[i].executionOrder <= u[j].executionOrder {
      if i == 0 {
        assert u[j] == t[j - 1];
        assert t[0].executionOrder <= t[j - 1].executionOrder;
      } else {
        assert u[i] == t[i - 1] && u[j] == t[j - 1];
      }
    }
  }

  lemma OrderedTail(s: seq<GroupItem>)
    requires Ordered(s) && s != []
    ensures Ordered(s[1..])
  {
    forall i, j | 0 <= i < j < |s| - 1 ensures s[1..][i].executionOrder <= s[1..][j].executionOrder {
      assert s[1..][i] == s[i + 1] && s[1..][j] == s[j + 1];
    }
  }

  /** Inserting into an ordered sequence keeps it ordered. */
  lemma {:induction false} InsertOrdered(x: GroupItem, s: seq<GroupItem>)
    requires Ordered(s)
    ensures Ordered(Insert(x, s))
    decreases |s|
  {
    if s == [] || x.executionOrder <= s[0].executionOrder {
      ConsOrdered(x, s);
    } else {
      OrderedTail(s);
      InsertOrdered(x, s[1..]);
      ConsOrdered(s[0], Insert(x, s[1..]));
    }
  }

  /** `sorted(items, key=lambda x: x['execution_order'])`: Python's sort is
      stable, and so is this insertion sort. */
  function SortByOrder(s: seq<GroupItem>): (r: seq<GroupItem>)
    ensures Ordered(r)
    ensures multiset(r) == multiset(s)
    ensures |r| == |s|
  {
    if s == [] then []
    else
      var rest := SortByOrder(s[1..]);
      assert s == [s[0]] + s[1..];
      InsertOrdered(s[0], rest);
      Insert(s[0], rest)
  }

  lemma {:induction false} InsertKeepsOrderGroups(x: GroupItem, s: seq<GroupItem>, order: int)
    ensures WithOrder(Insert(x, s), order) == (if x.executionOrder == order then [x] else []) + WithOrder(s, order)
    decreases |s|
  {
    if s == [] || x.executionOrder <= s[0].executionOrder {
      assert ([x] + s)[1..] == s;
    } else {
      var rest := Insert(x, s[1..]);
      assert ([s[0]] + rest)[1..] == rest;
      InsertKeepsOrderGroups(x, s[1..], order);
      if x.executionOrder == order {
        assert s[0].executionOrder != order;
      }
    }
  }

  /** Stability: the tests sharing an execution order keep their relative
      order through the sort. */
  lemma {:induction false} SortIsStable(s: seq<GroupItem>, order: int)
    ensures WithOrder(SortByOrder(s), order) == WithOrder(s, order)
    decreases |s|
  {
    if s != [] {
      SortIsStable(s[1..], order);
      InsertKeepsOrderGroups(s[0], SortByOrder(s[1..]), order);
    }
  }

  // ------------------------------------------------------------ status fold

  /** The severity order ERROR > FAIL > PASS. */
  function Rank(s: Status): nat {
    match s
    case Pass => 0
    case Fail => 1
    case Error => 2
  }

  /** One step of the loop's status update: a FAIL replaces only a PASS, and
      an ERROR replaces anything. */
  function Combine(overall: Status, s: Status): (r: Status)
    ensures Rank(r) == if Rank(overall) >= Rank(s) then Rank(overall) else Rank(s)
  {
    if s == Fail then (if overall == Pass then Fail else overall)
    else if s == Error then Error
    else overall
  }

  function CombineAll(overall: Status, results: seq<TestOutcome>): Status
    decreases |results|
  {
    if results == [] then overall
    else CombineAll(Combine(overall, results[0].status), results[1..])
  }

  /** The reference verdict: ERROR if any test errored, else FAIL if any
      failed, else PASS. */
  function Worst(results: seq<TestOutcome>): Status {
    if exists i :: 0 <= i < |results| && results[i].status == Error then Error
    else if exists i :: 0 <= i < |results| && results[i].status == Fail then Fail
    else Pass
  }

  lemma {:induction false} CombineAllIsWorst(overall: Status, results: seq<TestOutcome>)
    ensures Rank(CombineAll(overall, results)) ==
            if Rank(overall) >= Rank(Worst(results)) then Rank(overall) else Rank(Worst(results))
    decreases |results|
  {
    if results != [] {
      var tail := results[1..];
      CombineAllIsWorst(Combine(overall, results[0].status), tail);
      assert forall i :: 0 <= i < |tail| ==> tail[i] == results[i + 1];
      if Worst(results) == Error {
        var i :| 0 <= i < |results| && results[i].status == Error;
        if i > 0 { assert tail[i - 1].status == Error; }
      } else if Worst(results) == Fail {
        var i :| 0 <= i < |results| && results[i].status == Fail;
        if i > 0 { assert tail[i - 1].status == Fail; }
      }
    }
  }

  /** Rank identifies the status. */
  lemma RankInjective(a: Status, b: Status)
    requires Rank(a) == Rank(b)
    ensures a == b
  {
  }

  /** The number of FAIL results; ERROR results are not counted. */
  function FailCount(results: seq<TestOutcome>): (n: nat)
    ensures n <= |results|
  {
    if results == [] then 0
    else (if results[0].status == Fail then 1 else 0) + FailCount(results[1..])
  }

  lemma FailCountAppend(results: seq<TestOutcome>, o: TestOutcome)
    ensures FailCount(results + [o]) == FailCount(results) + (if o.status == Fail then 1 else 0)
  {
    if results != [] {
      assert (results + [o])[1..] == results[1..] + [o];
    }
  }

  lemma CombineAllAppend(overall: Status, results: seq<TestOutcome>, o: TestOutcome)
    ensures CombineAll(overall, results + [o]) == Combine(CombineAll(overall, results), o.status)
    decreases |results|
  {
    if results != [] {
      assert (results + [o])[1..] == results[1..] + [o];
      CombineAllAppend(Combine(overall, results[0].status), results[1..], o);
    }
  }

  // ------------------------------------------------------------ the worker

  /** What running one test yields: the ad-hoc runner's outcome, or, if it
      raised, an ERROR with the exception text. */
  function OutcomeOf(run: string -> Result<TestOutcome, string>, item: GroupItem): (o: TestOutcome)
    ensures run(item.id).Ok? ==> o == run(item.id).value
    ensures run(item.id).Err? ==> o.status == Error
  {
    match run(item.id)
    case Ok(o) => o
    case Err(e) => TestOutcome(Error, "Execution failed: " + e)
  }

  /** The entry while the `k`-th test of `ordered` runs. */
  function SnapshotAt(start: RunState, ordered: seq<GroupItem>, total: nat, k: nat): (r: RunState)
    requires k < |ordered|
    ensures r.phase == Running && r.total == total && r.executed == k + 1
    ensures r.currentTestName == ordered[k].testName && r.results == start.results
  {
    start.(phase := Running, total := total, executed := k + 1, currentTestName := ordered[k].testName)
  }

  /** The loop of the worker over the tests in the order given: each test
      first publishes its position and name, then runs; the status and the
      FAIL count are updated after each test. */
  method RunInOrder(ordered: seq<GroupItem>, run: string -> Result<TestOutcome, string>, start: RunState, total: nat)
    returns (results: seq<TestOutcome>, overall: Status, failed: nat, snapshots: seq<RunState>)
    ensures |results| == |ordered| && |snapshots| == |ordered|
    ensures forall k :: 0 <= k < |ordered| ==> results[k] == OutcomeOf(run, ordered[k])
    ensures overall == Worst(results)
    ensures failed == FailCount(results)
    ensures forall k :: 0 <= k < |ordered| ==> snapshots[k] == SnapshotAt(start, ordered, total, k)
  {
    overall := Pass;
    failed := 0;
    results := [];
    snapshots := [];
    var i := 0;
    while i < |ordered|
      invariant 0 <= i <= |ordered|
      invariant |results| == i && |snapshots| == i
      invariant forall k :: 0 <= k < i ==> results[k] == OutcomeOf(run, ordered[k])
      invariant overall == CombineAll(Pass, results)
      invariant failed == FailCount(results)
      invariant forall k :: 0 <= k < i ==> snapshots[k] == SnapshotAt(start, ordered, total, k)
    {
      snapshots := snapshots + [SnapshotAt(start, ordered, total, i)];
      var outcome := OutcomeOf(run, ordered[i]);
      CombineAllAppend(Pass, results, outcome);
      FailCountAppend(results, outcome);
      results := results + [outcome];
      if outcome.status == Fail {
        failed := failed + 1;
      }
      overall := Combine(overall, outcome.status);
      i := i + 1;
    }
    CombineAllIsWorst(Pass, results);
    RankInjective(overall, Worst(results));
  }

  /** `_execute_group_in_background` on the run's entry `start`. A missing
      group marks the entry ERROR with "Group not found." and the run stops
      there: the cleanup then fails on the missing group, so the entry never
      reaches COMPLETED. Otherwise the entry goes RUNNING with the test
      count, each test in execution order first publishes its position and
      name (`snapshots[i]` is the entry while test `i` runs), a test that
      raises becomes an ERROR result and the loop goes on, and at the end
      the results, the folded status and the FAIL count are published. */
  method ExecuteGroup(groupFound: bool, items: seq<GroupItem>, run: string -> Result<TestOutcome, string>, start: RunState)
    returns (final: RunState, snapshots: seq<RunState>)
    ensures !groupFound ==> final == start.(phase := Errored, currentTestName := GroupNotFoundName) && snapshots == []
    ensures groupFound ==> final.phase == Completed && final.total == |items|
    ensures groupFound ==> |final.results| == |items|
    ensures groupFound ==> forall i :: 0 <= i < |items| ==> final.results[i] == OutcomeOf(run, SortByOrder(items)[i])
    ensures groupFound ==> final.finalStatus == Some(Worst(final.results))
    ensures groupFound ==> final.failedTests == Some(FailCount(final.results))
    ensures groupFound ==> |snapshots| == |items|
    ensures groupFound ==> forall i :: 0 <= i < |snapshots| ==>
              snapshots[i].phase == Running && snapshots[i].executed == i + 1
              && snapshots[i].currentTestName == SortByOrder(items)[i].testName
              && snapshots[i].total == |items| && snapshots[i].results == start.results
    ensures groupFound && items != [] ==> final.executed == |items|
  {
    if !groupFound {
      final := start.(phase := Errored, currentTestName := GroupNotFoundName);
      snapshots := [];
      return;
    }
    var ordered := SortByOrder(items);
    var results, overall, failed;
    results, overall, failed, snapshots := RunInOrder(ordered, run, start, |items|);
    var last := if ordered == [] then start.(phase := Running, total := |items|) else snapshots[|snapshots| - 1];
    final := last.(results := results, phase := Completed, finalStatus := Some(overall), failedTests := Some(failed));
  }
}
