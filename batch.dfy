/**
 * The batch runner: the Only filter, then the tests run in order, stopping
 * at the first failure with an error labelled by the test's position and
 * name.  The same object may appear several times in a batch; each run then
 * sees what the earlier runs of that object wrote, which is why the runner's
 * specification threads one state per object through the runs.
 */
module Batch {
  import opened Descriptors
  import opened Pipeline
  import opened RouteTests

  /** Every test listed has a descriptor in the state. */
  predicate Covers(runs: seq<RouteTest>, s: map<RouteTest, Descriptor>) {
    forall k :: 0 <= k < |runs| ==> runs[k] in s
  }

  /** The tests whose descriptor in `s` is flagged Only, in their original order. */
  function OnlyMarked(tests: seq<RouteTest>, s: map<RouteTest, Descriptor>): (r: seq<RouteTest>)
    requires Covers(tests, s)
    ensures forall k :: 0 <= k < |r| ==> r[k] in tests && s[r[k]].only
    ensures forall i :: 0 <= i < |tests| && s[tests[i]].only ==> tests[i] in r
    ensures |r| <= |tests|
  {
    if tests == [] then []
    else
      var last := tests[|tests| - 1];
      var rest := OnlyMarked(tests[..|tests| - 1], s);
      if s[last].only then rest + [last] else rest
  }

  /** At least one test of the batch is flagged Only. */
  predicate HasOnly(tests: seq<RouteTest>, s: map<RouteTest, Descriptor>)
    requires Covers(tests, s)
  {
    exists i :: 0 <= i < |tests| && s[tests[i]].only
  }

  /** The tests that are run: the Only-flagged ones when there are any, otherwise all of them. */
  function Selection(tests: seq<RouteTest>, s: map<RouteTest, Descriptor>): (r: seq<RouteTest>)
    requires Covers(tests, s)
    ensures forall k :: 0 <= k < |r| ==> r[k] in tests
  {
    if HasOnly(tests, s) then OnlyMarked(tests, s) else tests
  }

  /** The count the Only pass reports: how many tests it left out, when it applied at all. */
  function Excluded(tests: seq<RouteTest>, s: map<RouteTest, Descriptor>): (r: Option<nat>)
    requires Covers(tests, s)
    ensures r.Some? <==> HasOnly(tests, s)
    ensures r.Some? ==> r.value < |tests| && r.value == |tests| - |Selection(tests, s)|
  {
    HasOnlyIffMarked(tests, s);
    if HasOnly(tests, s) then Some(|tests| - |OnlyMarked(tests, s)|) else None
  }

  /** A batch is restricted exactly when the Only filter keeps something. */
  lemma HasOnlyIffMarked(tests: seq<RouteTest>, s: map<RouteTest, Descriptor>)
    requires Covers(tests, s)
    ensures HasOnly(tests, s) <==> |OnlyMarked(tests, s)| > 0
  {
    if HasOnly(tests, s) {
      var i :| 0 <= i < |tests| && s[tests[i]].only;
      assert tests[i] in OnlyMarked(tests, s);
    }
  }

  /** The positions of the Only-flagged tests, in increasing order. */
  function OnlyPositions(tests: seq<RouteTest>, s: map<RouteTest, Descriptor>): (idx: seq<nat>)
    requires Covers(tests, s)
    ensures forall k :: 0 <= k < |idx| ==> idx[k] < |tests| && s[tests[idx[k]]].only
    ensures forall k, l :: 0 <= k < l < |idx| ==> idx[k] < idx[l]
    ensures forall i :: 0 <= i < |tests| && s[tests[i]].only ==> i in idx
  {
    if tests == [] then []
    else
      var n := |tests| - 1;
      var rest := OnlyPositions(tests[..n], s);
      if s[tests[n]].only then rest + [n] else rest
  }

  /**
   * The filter keeps the original order: the k-th kept test is the test at
   * the k-th flagged position of the batch.
   */
  lemma {:induction false} OnlyMarkedKeepsOrder(tests: seq<RouteTest>, s: map<RouteTest, Descriptor>)
    requires Covers(tests, s)
    ensures |OnlyMarked(tests, s)| == |OnlyPositions(tests, s)|
    ensures forall k :: 0 <= k < |OnlyMarked(tests, s)| ==> OnlyMarked(tests, s)[k] == tests[OnlyPositions(tests, s)[k]]
  {
    if tests != [] {
      var n := |tests| - 1;
      var prefix := tests[..n];
      OnlyMarkedKeepsOrder(prefix, s);
      var kept, idx := OnlyMarked(prefix, s), OnlyPositions(prefix, s);
      forall k | 0 <= k < |kept| ensures tests[idx[k]] == kept[k] {
        assert tests[idx[k]] == prefix[idx[k]];
      }
      if s[tests[n]].only {
        assert OnlyMarked(tests, s) == kept + [tests[n]];
        assert OnlyPositions(tests, s) == idx + [n];
      } else {
        assert OnlyMarked(tests, s) == kept;
        assert OnlyPositions(tests, s) == idx;
      }
    }
  }

  /** The snapshot of a batch holds each object's own descriptor. */
  lemma SnapshotAt(tests: seq<RouteTest>, i: nat)
    requires i < |tests|
    ensures tests[i] in Snapshots(tests) && Snapshots(tests)[tests[i]] == tests[i].Snapshot()
  {
  }

  /** Filtering one more test of the batch appends it exactly when it is flagged. */
  lemma OnlyMarkedSnoc(tests: seq<RouteTest>, s: map<RouteTest, Descriptor>, i: nat)
    requires i < |tests| && Covers(tests, s)
    ensures Covers(tests[..i], s) && Covers(tests[..i + 1], s)
    ensures OnlyMarked(tests[..i + 1], s) ==
      if s[tests[i]].only then OnlyMarked(tests[..i], s) + [tests[i]] else OnlyMarked(tests[..i], s)
  {
    assert tests[..i + 1][..i] == tests[..i];
  }

  /** One step of the Only pass, read off the object itself. */
  lemma OnlyMarkedStep(tests: seq<RouteTest>, s: map<RouteTest, Descriptor>, i: nat)
    requires i < |tests| && s == Snapshots(tests)
    ensures Covers(tests[..i], s) && Covers(tests[..i + 1], s)
    ensures OnlyMarked(tests[..i + 1], s) ==
      if tests[i].only then OnlyMarked(tests[..i], s) + [tests[i]] else OnlyMarked(tests[..i], s)
  {
    SnapshotAt(tests, i);
    OnlyMarkedSnoc(tests, s, i);
  }

  /**
   * The Only pass over the batch: the tests to run and, when the filter
   * applied, how many tests it excluded.
   */
  method SelectTests(tests: seq<RouteTest>) returns (toRun: seq<RouteTest>, excluded: Option<nat>)
    ensures Covers(tests, Snapshots(tests))
    ensures toRun == Selection(tests, Snapshots(tests))
    ensures excluded == Excluded(tests, Snapshots(tests))
  {
    ghost var s := Snapshots(tests);
    assert Covers(tests, s);
    var marked := [];
    var hasOnly := false;
    var i := 0;
    while i < |tests|
      invariant 0 <= i <= |tests|
      invariant marked == OnlyMarked(tests[..i], s)
      invariant hasOnly <==> |marked| > 0
    {
      OnlyMarkedStep(tests, s, i);
      if tests[i].only {
        hasOnly := true;
        marked := marked + [tests[i]];
      }
      i := i + 1;
    }
    assert tests[..i] == tests;
    HasOnlyIffMarked(tests, s);
    if !hasOnly {
      toRun, excluded := tests, None;
    } else {
      toRun, excluded := marked, Some(|tests| - |marked|);
    }
  }

  /** The label of a failing test: a space and its name, or nothing when it has none. */
  function NameLabel(name: string): (tag: string)
    ensures name == "" ==> tag == ""
    ensures name != "" ==> |tag| == |name| + 1 && tag[0] == ' ' && tag[1..] == name
  {
    if name == "" then "" else " " + name
  }

  /** A batch either passes or stops at the failure of the test at `index` of the run list. */
  datatype BatchOutcome = AllPassed | BatchFailed(index: nat, tag: string, cause: Failure)

  /** The batch outcome together with the descriptor each object holds afterwards. */
  datatype BatchResult = BatchResult(outcome: BatchOutcome, state: map<RouteTest, Descriptor>)

  /**
   * A single run of a test, as a function of its position in the run list
   * and the descriptor it starts from.  The position lets the collaborators
   * differ from run to run, as a server whose state earlier requests changed.
   */
  type Runner = (nat, Descriptor) -> RunResult

  /** The `k`-th run is made against the collaborators `envs(k)`. */
  function Running(envs: nat -> Env): Runner {
    (k: nat, d: Descriptor) => Execute(d, envs(k))
  }

  /** The descriptors once the first `n` runs have been made, whatever their outcomes. */
  function StateAfter(runs: seq<RouteTest>, s0: map<RouteTest, Descriptor>, run: Runner, n: nat): (s: map<RouteTest, Descriptor>)
    requires n <= |runs| && Covers(runs, s0)
    ensures s.Keys == s0.Keys
  {
    if n == 0 then s0
    else
      var s := StateAfter(runs, s0, run, n - 1);
      s[runs[n - 1] := run(n - 1, s[runs[n - 1]]).after]
  }

  /** The descriptor the `k`-th run starts from. */
  function PreRunState(runs: seq<RouteTest>, s0: map<RouteTest, Descriptor>, run: Runner, k: nat): Descriptor
    requires k < |runs| && Covers(runs, s0)
  {
    StateAfter(runs, s0, run, k)[runs[k]]
  }

  /** The `k`-th run passes when started from the state the earlier runs leave. */
  predicate PassesAt(runs: seq<RouteTest>, s0: map<RouteTest, Descriptor>, run: Runner, k: nat)
    requires k < |runs| && Covers(runs, s0)
  {
    run(k, PreRunState(runs, s0, run, k)).outcome.Passed?
  }

  /** The position of the first run from `i` on that fails, if any. */
  function FirstFailure(runs: seq<RouteTest>, s0: map<RouteTest, Descriptor>, run: Runner, i: nat): (r: Option<nat>)
    requires i <= |runs| && Covers(runs, s0)
    ensures r.Some? ==> i <= r.value < |runs| && !PassesAt(runs, s0, run, r.value)
    ensures r.Some? ==> forall k :: i <= k < r.value ==> PassesAt(runs, s0, run, k)
    ensures r.None? <==> forall k :: i <= k < |runs| ==> PassesAt(runs, s0, run, k)
    decreases |runs| - i
  {
    if i == |runs| then None
    else if !PassesAt(runs, s0, run, i) then Some(i)
    else FirstFailure(runs, s0, run, i + 1)
  }

  /**
   * The whole batch: the runs are made in order until the first failure,
   * which is reported with its position, the label of the name the test
   * carries once it has run, and its cause; the state is the one left by
   * the runs made.
   */
  function RunBatch(runs: seq<RouteTest>, s0: map<RouteTest, Descriptor>, run: Runner): (b: BatchResult)
    requires Covers(runs, s0)
    ensures b.state.Keys == s0.Keys
    ensures b.outcome.BatchFailed? ==> b.outcome.index < |runs| && !PassesAt(runs, s0, run, b.outcome.index)
  {
    match FirstFailure(runs, s0, run, 0)
    case None => BatchResult(AllPassed, StateAfter(runs, s0, run, |runs|))
    case Some(k) =>
      var r := run(k, PreRunState(runs, s0, run, k));
      BatchResult(BatchFailed(k, NameLabel(r.after.name), r.outcome.failure), StateAfter(runs, s0, run, k + 1))
  }

  /** A run never renames its test, so the label can be read before or after the run. */
  lemma RunningKeepsNames(envs: nat -> Env)
    ensures forall k, d :: Running(envs)(k, d).after.name == d.name
  {
    forall k, d ensures Running(envs)(k, d).after.name == d.name {
      ExecuteWritesOnlyCapturedFields(d, envs(k));
    }
  }

  /**
   * Fail-fast: the batch passes exactly when every selected run passes;
   * otherwise it reports the first failing run, by its position in the run
   * list and, for a runner that keeps names as `Running` does, by the name
   * that test carried before it ran, and no later test has run.
   */
  lemma BatchFailsFast(runs: seq<RouteTest>, s0: map<RouteTest, Descriptor>, run: Runner)
    requires Covers(runs, s0)
    requires forall k, d :: run(k, d).after.name == d.name
    ensures var res := RunBatch(runs, s0, run);
      && (res.outcome.AllPassed? <==> forall k :: 0 <= k < |runs| ==> PassesAt(runs, s0, run, k))
      && (res.outcome.BatchFailed? ==>
            && res.outcome.index < |runs|
            && (forall k :: 0 <= k < res.outcome.index ==> PassesAt(runs, s0, run, k))
            && run(res.outcome.index, PreRunState(runs, s0, run, res.outcome.index)).outcome == Failed(res.outcome.cause)
            && res.outcome.tag == NameLabel(PreRunState(runs, s0, run, res.outcome.index).name)
            && res.state == StateAfter(runs, s0, run, res.outcome.index + 1))
  {
  }

  /** Runs of other objects leave a descriptor alone. */
  lemma {:induction false} StateAfterOthers(runs: seq<RouteTest>, s0: map<RouteTest, Descriptor>, run: Runner, n: nat, t: RouteTest)
    requires n <= |runs| && Covers(runs, s0) && t in s0
    requires forall j :: 0 <= j < n ==> runs[j] != t
    ensures StateAfter(runs, s0, run, n)[t] == s0[t]
  {
    if n > 0 {
      StateAfterOthers(runs, s0, run, n - 1, t);
    }
  }

  /** When no object appears twice, every run starts from the descriptor as it was before the batch. */
  lemma DistinctRunsStartFresh(runs: seq<RouteTest>, s0: map<RouteTest, Descriptor>, run: Runner, k: nat)
    requires k < |runs| && Covers(runs, s0)
    requires forall i, j :: 0 <= i < j < |runs| ==> runs[i] != runs[j]
    ensures PreRunState(runs, s0, run, k) == s0[runs[k]]
  {
    StateAfterOthers(runs, s0, run, k, runs[k]);
  }

  /** An object listed twice in a row starts its second run from what its first run left. */
  lemma RepeatedTestSeesEarlierRun(runs: seq<RouteTest>, s0: map<RouteTest, Descriptor>, run: Runner, k: nat)
    requires k + 1 < |runs| && Covers(runs, s0)
    requires runs[k] == runs[k + 1]
    ensures PreRunState(runs, s0, run, k + 1) == run(k, PreRunState(runs, s0, run, k)).after
  {
  }

  /**
   * One step of the batch, when every earlier run has passed: the `i`-th
   * run's result `r` replaces that test's descriptor and, when it passed,
   * extends the passing prefix.
   */
  lemma BatchStep(runs: seq<RouteTest>, s0: map<RouteTest, Descriptor>, run: Runner, i: nat, r: RunResult)
    requires i < |runs| && Covers(runs, s0)
    requires forall k :: 0 <= k < i ==> PassesAt(runs, s0, run, k)
    requires r == run(i, PreRunState(runs, s0, run, i))
    ensures StateAfter(runs, s0, run, i + 1) == StateAfter(runs, s0, run, i)[runs[i] := r.after]
    ensures r.outcome.Passed? ==> forall k :: 0 <= k < i + 1 ==> PassesAt(runs, s0, run, k)
  {
  }

  /** The first failing run decides the batch: its position, its label once it has run, its cause. */
  lemma BatchStopsAt(runs: seq<RouteTest>, s0: map<RouteTest, Descriptor>, run: Runner, i: nat, r: RunResult)
    requires i < |runs| && Covers(runs, s0)
    requires forall k :: 0 <= k < i ==> PassesAt(runs, s0, run, k)
    requires r == run(i, PreRunState(runs, s0, run, i)) && r.outcome.Failed?
    ensures RunBatch(runs, s0, run) ==
      BatchResult(BatchFailed(i, NameLabel(r.after.name), r.outcome.failure), StateAfter(runs, s0, run, i + 1))
  {
    assert !PassesAt(runs, s0, run, i);
    assert FirstFailure(runs, s0, run, 0) == Some(i);
  }

  /** A batch whose every run passes. */
  lemma BatchEnd(runs: seq<RouteTest>, s0: map<RouteTest, Descriptor>, run: Runner)
    requires Covers(runs, s0)
    requires forall k :: 0 <= k < |runs| ==> PassesAt(runs, s0, run, k)
    ensures RunBatch(runs, s0, run) == BatchResult(AllPassed, StateAfter(runs, s0, run, |runs|))
  {
  }

  /**
   * Runs the batch: the Only pass, then each selected test in order until
   * one fails.  `excluded` is the count the Only pass reports.  Each object
   * ends up holding the descriptor RunBatch gives it.
   */
  method RunTests(tests: seq<RouteTest>, envs: nat -> Env) returns (result: BatchOutcome, excluded: Option<nat>)
    modifies set t | t in tests
    ensures Covers(tests, old(Snapshots(tests)))
    ensures excluded == Excluded(tests, old(Snapshots(tests)))
    ensures BatchResult(result, Snapshots(tests)) == RunBatch(Selection(tests, old(Snapshots(tests))), old(Snapshots(tests)), Running(envs))
  {
    var toRun;
    toRun, excluded := SelectTests(tests);
    result := RunSelected(toRun, tests, envs, Running(envs));
  }

  /**
   * One run of one test of the batch, in terms of the runner `run` that
   * `Execute` defines: the test's descriptor is replaced by the run's, and
   * every other object of the batch keeps its own.
   */
  method RunOne(test: RouteTest, envs: nat -> Env, i: nat, ghost run: Runner, ghost tests: seq<RouteTest>) returns (outcome: Outcome)
    requires forall k, d {:trigger Execute(d, envs(k))} :: run(k, d) == Execute(d, envs(k))
    requires test in tests
    modifies test
    ensures RunResult(outcome, test.Snapshot()) == run(i, old(test.Snapshot()))
    ensures Snapshots(tests) == old(Snapshots(tests))[test := test.Snapshot()]
  {
    outcome := test.Run(envs(i));
  }

  /**
   * The loop state of the batch runner after its first `i` runs, all of
   * which passed: the selected tests belong to the batch, `run` is the run
   * of `envs`, and the objects hold the descriptors those runs left.
   */
  ghost predicate Reached(toRun: seq<RouteTest>, tests: seq<RouteTest>, envs: nat -> Env, run: Runner,
                          s0: map<RouteTest, Descriptor>, i: nat)
    reads set t | t in tests
  {
    && (forall k, d {:trigger Execute(d, envs(k))} :: run(k, d) == Execute(d, envs(k)))
    && (forall k :: 0 <= k < |toRun| ==> toRun[k] in tests)
    && i <= |toRun| && Covers(toRun, s0)
    && Snapshots(tests) == StateAfter(toRun, s0, run, i)
    && forall k :: 0 <= k < i ==> PassesAt(toRun, s0, run, k)
  }

  /**
   * The `i`-th iteration of the batch loop: runs the `i`-th selected test
   * and either continues with one more passing run or ends the batch with
   * the outcome RunBatch gives it.
   */
  method RunStep(toRun: seq<RouteTest>, tests: seq<RouteTest>, envs: nat -> Env, ghost run: Runner,
                 ghost s0: map<RouteTest, Descriptor>, i: nat)
      returns (done: bool, result: BatchOutcome)
    requires Reached(toRun, tests, envs, run, s0, i) && i < |toRun|
    modifies toRun[i]
    ensures !done ==> Reached(toRun, tests, envs, run, s0, i + 1)
    ensures done ==> BatchResult(result, Snapshots(tests)) == RunBatch(toRun, s0, run)
  {
    var test := toRun[i];
    var outcome := RunOne(test, envs, i, run, tests);
    ghost var r := RunResult(outcome, test.Snapshot());
    BatchStep(toRun, s0, run, i, r);
    done := outcome.Failed?;
    if done {
      BatchStopsAt(toRun, s0, run, i, r);
      result := BatchFailed(i, NameLabel(test.name), outcome.failure);
    } else {
      result := AllPassed;
    }
  }

  /** Before the first run the loop state holds trivially. */
  lemma BatchStart(toRun: seq<RouteTest>, tests: seq<RouteTest>, envs: nat -> Env, run: Runner)
    requires forall k, d {:trigger Execute(d, envs(k))} :: run(k, d) == Execute(d, envs(k))
    requires forall k :: 0 <= k < |toRun| ==> toRun[k] in tests
    ensures Reached(toRun, tests, envs, run, Snapshots(tests), 0)
  {
  }

  /** Once every selected test has run and passed, the batch has passed. */
  lemma BatchDone(toRun: seq<RouteTest>, tests: seq<RouteTest>, envs: nat -> Env, run: Runner, s0: map<RouteTest, Descriptor>, i: nat)
    requires Reached(toRun, tests, envs, run, s0, i) && i >= |toRun|
    ensures BatchResult(AllPassed, Snapshots(tests)) == RunBatch(toRun, s0, run)
  {
    BatchEnd(toRun, s0, run);
  }

  /** The run loop over the selected tests `toRun`, all of which belong to `tests`. */
  method RunSelected(toRun: seq<RouteTest>, tests: seq<RouteTest>, envs: nat -> Env, ghost run: Runner) returns (result: BatchOutcome)
    requires forall k, d {:trigger Execute(d, envs(k))} :: run(k, d) == Execute(d, envs(k))
    requires forall k :: 0 <= k < |toRun| ==> toRun[k] in tests
    modifies set t | t in tests
    ensures BatchResult(result, Snapshots(tests)) == RunBatch(toRun, old(Snapshots(tests)), run)
  {
    ghost var s0 := Snapshots(tests);
    BatchStart(toRun, tests, envs, run);
    var i := 0;
    while i < |toRun|
      invariant Reached(toRun, tests, envs, run, s0, i)
    {
      var done;
      done, result := RunStep(toRun, tests, envs, run, s0, i);
      if done {
        return;
      }
      i := i + 1;
    }
    BatchDone(toRun, tests, envs, run, s0, i);
    result := AllPassed;
  }
}
