/** What every interleaving of the task queue keeps. */
module TaskQueueSafety {
  import opened TaskQueue
  import opened Options

  predicate ClaimsOk(s: System) {
    forall k | 0 <= k < |s.claims| ::
      var c := s.claims[k];
      && c.task < |s.db.tasks| && s.db.tasks[c.task].started
      && c.pid < |s.procs| && s.procs[c.pid].client == s.db.tasks[c.task].client
  }

  // Tasks of one client are claimed in the order of their ids.
  predicate InOrder(s: System)
    requires ClaimsOk(s)
  {
    forall i, j | 0 <= i < j < |s.claims| ::
      s.db.tasks[s.claims[i].task].client == s.db.tasks[s.claims[j].task].client ==>
        s.claims[i].task < s.claims[j].task
  }

  predicate TasksOk(s: System) {
    && (forall t | 0 <= t < |s.db.tasks| :: s.db.tasks[t].ended ==> s.db.tasks[t].started)
    && (forall t | 0 <= t < |s.db.tasks| :: s.db.tasks[t].started ==>
        exists k | 0 <= k < |s.claims| :: s.claims[k].task == t)
  }

  // No started task has an older one of its client waiting.
  predicate OldestFirst(s: System) {
    forall a, b | 0 <= a < b < |s.db.tasks| ::
      s.db.tasks[a].client == s.db.tasks[b].client && s.db.tasks[b].started ==> s.db.tasks[a].started
  }

  predicate RunnersOk(s: System) {
    && 0 < |s.procs|
    && forall p | 0 <= p < |s.procs| :: s.procs[p].state.Running? ==> Claim(p, s.procs[p].state.task) in s.claims
  }

  predicate Safe(s: System) { ClaimsOk(s) && InOrder(s) && TasksOk(s) && OldestFirst(s) && RunnersOk(s) }

  // ----- Steps keep it --------------------------------------------------------------------

  // A step that starts no task: tasks may be added or ended, processes may change
  // state, but not into running something new.
  predicate Quiet(s: System, s': System) {
    && s'.claims == s.claims
    && |s'.db.tasks| >= |s.db.tasks| && |s'.procs| >= |s.procs|
    && (forall t | 0 <= t < |s.db.tasks| ::
         && s'.db.tasks[t].client == s.db.tasks[t].client && s'.db.tasks[t].started == s.db.tasks[t].started
         && (s'.db.tasks[t].ended ==> s.db.tasks[t].ended || s.db.tasks[t].started))
    && (forall t | |s.db.tasks| <= t < |s'.db.tasks| :: !s'.db.tasks[t].started && !s'.db.tasks[t].ended)
    && (forall p | 0 <= p < |s.procs| ::
         && s'.procs[p].client == s.procs[p].client
         && (s'.procs[p].state.Running? ==> s'.procs[p].state == s.procs[p].state))
    && (forall p | |s.procs| <= p < |s'.procs| :: !s'.procs[p].state.Running?)
  }

  lemma QuietSafe(s: System, s': System)
    requires Safe(s) && Quiet(s, s')
    ensures Safe(s')
  {
    assert ClaimsOk(s');
    assert InOrder(s');
    forall t | 0 <= t < |s'.db.tasks| && s'.db.tasks[t].started
      ensures exists k | 0 <= k < |s'.claims| :: s'.claims[k].task == t
    {
      assert s.db.tasks[t].started;
    }
  }

  // Process p starts the oldest waiting task t of its client.
  predicate Starts(s: System, s': System, p: nat, t: nat) {
    && p < |s.procs| && t < |s.db.tasks| && !s.db.tasks[t].started && s.db.tasks[t].client == s.procs[p].client
    && (forall k | 0 <= k < t :: s.db.tasks[k].client == s.procs[p].client ==> s.db.tasks[k].started)
    && s'.claims == s.claims + [Claim(p, t)]
    && s'.db.tasks == s.db.tasks[t := s.db.tasks[t].(started := true)]
    && |s'.procs| == |s.procs|
    && (forall q | 0 <= q < |s.procs| ::
         && s'.procs[q].client == s.procs[q].client
         && s'.procs[q].state == if q == p then Running(t) else s.procs[q].state)
  }

  lemma StartsClaims(s: System, s': System, p: nat, t: nat)
    requires Safe(s) && Starts(s, s', p, t)
    ensures ClaimsOk(s')
    ensures InOrder(s')
  {
    var n := |s.claims|;
    assert s'.claims[n] == Claim(p, t);
    assert forall k | 0 <= k < n :: s'.claims[k] == s.claims[k];
    forall i, j | 0 <= i < j < |s'.claims|
        && s'.db.tasks[s'.claims[i].task].client == s'.db.tasks[s'.claims[j].task].client
      ensures s'.claims[i].task < s'.claims[j].task
    {
      if j == n { StartedBefore(s, i, t); }
    }
  }

  lemma StartsSafe(s: System, s': System, p: nat, t: nat)
    requires Safe(s) && Starts(s, s', p, t)
    ensures Safe(s')
  {
    hide InOrder;
    StartsClaims(s, s', p, t);
    var n := |s.claims|;
    assert s'.claims[n] == Claim(p, t);
    forall u | 0 <= u < |s'.db.tasks| && s'.db.tasks[u].started
      ensures exists k | 0 <= k < |s'.claims| :: s'.claims[k].task == u
    {
      if u != t {
        var k :| 0 <= k < n && s.claims[k].task == u;
        assert s'.claims[k].task == u;
      }
    }
  }

  // What was claimed earlier for the client of a waiting task is older than the task.
  lemma StartedBefore(s: System, i: nat, t: nat)
    requires Safe(s) && i < |s.claims| && t < |s.db.tasks| && !s.db.tasks[t].started
    requires s.db.tasks[s.claims[i].task].client == s.db.tasks[t].client
    ensures s.claims[i].task < t
  {
    var c := s.claims[i];
    assert s.db.tasks[c.task].started;
  }

  lemma PollKeeps(s: System, pid: nat, late: bool)
    requires Safe(s) && Enabled(s, StartScript(pid, late))
    ensures Safe(Apply(s, StartScript(pid, late)))
  {
    var p := s.procs[pid];
    var s' := Apply(s, StartScript(pid, late));
    var (db, turn) := Poll(s.db, p.client, p.errors, p.tests, late);
    match turn
    case Start(t) =>
      assert NextTask(s.db.tasks, p.client, 0) == Some(t);
      assert Starts(s, s', pid, t);
      StartsSafe(s, s', pid, t);
    case _ =>
      assert Quiet(s, s');
      QuietSafe(s, s');
  }

  lemma RunningTask(s: System, pid: nat)
    requires Safe(s) && pid < |s.procs| && s.procs[pid].state.Running?
    ensures s.procs[pid].state.task < |s.db.tasks| && s.db.tasks[s.procs[pid].state.task].started
  {
    var c := Claim(pid, s.procs[pid].state.task);
    var k :| 0 <= k < |s.claims| && s.claims[k] == c;
  }

  lemma StepSafe(s: System, a: Step)
    requires Safe(s) && Enabled(s, a)
    ensures Safe(Apply(s, a))
  {
    if a.StartScript? {
      PollKeeps(s, a.pid, a.late);
    } else {
      if a.MarkEnded? { RunningTask(s, a.pid); }
      assert Quiet(s, Apply(s, a));
      QuietSafe(s, Apply(s, a));
    }
  }

  // Every run of every set of processes is safe.
  lemma {:induction false} RunSafe(s: System, run: seq<Step>)
    requires Safe(s) && Feasible(s, run)
    ensures Safe(After(s, run))
    decreases |run|
  {
    if run != [] {
      StepSafe(s, run[0]);
      RunSafe(Apply(s, run[0]), run[1..]);
    }
  }

  // A task is claimed at most once, whichever processes serve its client.
  lemma ClaimedOnce(run: seq<Step>, i: nat, j: nat)
    requires Feasible(START, run)
    requires var c := After(START, run).claims; i < |c| && j < |c| && c[i].task == c[j].task
    ensures i == j
  {
    RunSafe(START, run);
  }

  // Claims of one client come in increasing id, a claimed task is started and an
  // ended task was claimed.
  lemma ClaimOrder(run: seq<Step>)
    requires Feasible(START, run)
    ensures var s := After(START, run);
      && ClaimsOk(s) && InOrder(s)
      && forall t | 0 <= t < |s.db.tasks|
          && s.db.tasks[t].ended :: exists k | 0 <= k < |s.claims| :: s.claims[k].task == t
  {
    RunSafe(START, run);
  }

  // Two processes never run the same task.
  lemma OneRunner(run: seq<Step>, p: nat, q: nat)
    requires Feasible(START, run)
    requires var s := After(START, run);
      p < |s.procs| && q < |s.procs| && s.procs[p].state.Running? && s.procs[p].state == s.procs[q].state
    ensures p == q
  {
    hide Apply, After, Feasible, ClaimsOk, InOrder, TasksOk, OldestFirst;
    RunSafe(START, run);
    var s := After(START, run);
    var t := s.procs[p].state.task;
    var i :| 0 <= i < |s.claims| && s.claims[i] == Claim(p, t);
    var j :| 0 <= j < |s.claims| && s.claims[j] == Claim(q, t);
    ClaimedOnce(run, i, j);
  }

  // ----- Counters -------------------------------------------------------------------------

  function SumErrors(procs: seq<Proc>): nat {
    if procs == [] then 0 else procs[0].errors + SumErrors(procs[1..])
  }

  function SumTests(procs: seq<Proc>): nat {
    if procs == [] then 0 else procs[0].tests + SumTests(procs[1..])
  }

  lemma {:induction false} SumUpdate(procs: seq<Proc>, i: nat, p: Proc)
    requires i < |procs|
    ensures SumErrors(procs[i := p]) + procs[i].errors == SumErrors(procs) + p.errors
    ensures SumTests(procs[i := p]) + procs[i].tests == SumTests(procs) + p.tests
  {
    if i > 0 {
      SumUpdate(procs[1..], i - 1, p);
      assert procs[i := p][1..] == procs[1..][i - 1 := p];
    } else {
      assert procs[i := p][1..] == procs[1..];
    }
  }

  lemma {:induction false} SumAppend(procs: seq<Proc>, p: Proc)
    ensures SumErrors(procs + [p]) == SumErrors(procs) + p.errors
    ensures SumTests(procs + [p]) == SumTests(procs) + p.tests
  {
    if procs == [] {
      assert procs + [p] == [p];
    } else {
      SumAppend(procs[1..], p);
      assert (procs + [p])[1..] == procs[1..] + [p];
    }
  }

  // Everything recorded is committed, still local, or was lost when a process ended.
  predicate Balanced(s: System) {
    && s.recordedErrors == s.db.errors + SumErrors(s.procs) + s.lostErrors
    && s.recordedTests == s.db.tests + SumTests(s.procs) + s.lostTests
  }

  lemma LeaveBalanced(s: System, pid: nat)
    requires Balanced(s) && pid < |s.procs|
    ensures Balanced(Leave(s, pid))
  {
    SumUpdate(s.procs, pid, s.procs[pid].(state := Gone, errors := 0, tests := 0));
  }

  lemma NotedBalanced(s: System, pid: nat, errors: nat, tests: nat)
    requires Balanced(s) && pid < |s.procs|
    ensures Balanced(Noted(s, pid, errors, tests))
  {
    var p := s.procs[pid];
    SumUpdate(s.procs, pid, p.(errors := p.errors + errors, tests := p.tests + tests));
  }

  lemma PolledBalanced(s: System, pid: nat, late: bool)
    requires Balanced(s) && pid < |s.procs|
    ensures Balanced(Polled(s, pid, late))
  {
    hide Leave, Noted;
    var p := s.procs[pid];
    var (db, turn) := Poll(s.db, p.client, p.errors, p.tests, late);
    var q := p.(errors := 0, tests := 0);
    var s' := s.(db := db, procs := s.procs[pid := q]);
    SumUpdate(s.procs, pid, q);
    assert Balanced(s');
    match turn
    case Wait =>
    case Done => LeaveBalanced(s', pid);
    case GaveUp =>
      NotedBalanced(s', pid, 1, 0);
      NotedProcs(s', pid, 1, 0);
      LeaveBalanced(Noted(s', pid, 1, 0), pid);
    case Start(t) => SumUpdate(s.procs, pid, q.(state := Running(t)));
  }

  lemma NotedProcs(s: System, pid: nat, errors: nat, tests: nat)
    requires pid < |s.procs|
    ensures |Noted(s, pid, errors, tests).procs| == |s.procs|
  {}

  lemma StepBalanced(s: System, a: Step)
    requires Balanced(s) && Enabled(s, a)
    ensures Balanced(Apply(s, a))
  {
    hide Polled, Leave, Noted;
    match a
    case StartClient(client) => SumAppend(s.procs, Proc(client, if client < 1 then Gone else Idle, 0, 0));
    case StartScript(pid, late) => PolledBalanced(s, pid, late);
    case Record(pid, errors, tests) => NotedBalanced(s, pid, errors, tests);
    case BackToIdle(pid) => SumUpdate(s.procs, pid, s.procs[pid].(state := Idle));
    case Exit(pid) => LeaveBalanced(s, pid);
    case Fatal(pid) => LeaveBalanced(s.(db := s.db.(clients := Halted(s.db.clients))), pid);
    case _ =>
  }

  predicate Waiting(s: System, client: int) {
    exists t | 0 <= t < |s.db.tasks| :: s.db.tasks[t].client == client && !s.db.tasks[t].started
  }

  // The step ends no process that still holds counts.  A client that has waited too
  // long, is not told to halt and has no task to start always does: it records its
  // last error after writing the others.
  predicate KeepsCounts(s: System, a: Step)
    requires Enabled(s, a)
  {
    match a
    case Exit(pid) => s.procs[pid].errors == 0 && s.procs[pid].tests == 0
    case Fatal(pid) => s.procs[pid].errors == 0 && s.procs[pid].tests == 0
    case StartScript(pid, late) =>
      var c := s.procs[pid].client;
      late ==> (c in s.db.clients && s.db.clients[c]) || Waiting(s, c)
    case _ => true
  }

  predicate RunKeepsCounts(s: System, run: seq<Step>)
    requires Feasible(s, run)
    decreases |run|
  {
    run == [] || (KeepsCounts(s, run[0]) && RunKeepsCounts(Apply(s, run[0]), run[1..]))
  }

  lemma StepLoses(s: System, a: Step)
    requires Enabled(s, a)
    ensures var s' := Apply(s, a);
      && s.lostErrors <= s'.lostErrors && s.lostTests <= s'.lostTests
      && (KeepsCounts(s, a) <==> s'.lostErrors == s.lostErrors && s'.lostTests == s.lostTests)
  {}

  lemma {:induction false} RunLoses(s: System, run: seq<Step>)
    requires Feasible(s, run)
    ensures var s' := After(s, run);
      && s.lostErrors <= s'.lostErrors && s.lostTests <= s'.lostTests
      && (RunKeepsCounts(s, run) <==> s'.lostErrors == s.lostErrors && s'.lostTests == s.lostTests)
    decreases |run|
  {
    hide Apply, KeepsCounts;
    if run != [] {
      StepLoses(s, run[0]);
      RunLoses(Apply(s, run[0]), run[1..]);
    }
  }

  lemma {:induction false} RunBalanced(s: System, run: seq<Step>)
    requires Balanced(s) && Feasible(s, run)
    ensures Balanced(After(s, run))
    decreases |run|
  {
    hide Apply, Balanced;
    if run != [] {
      StepBalanced(s, run[0]);
      RunBalanced(Apply(s, run[0]), run[1..]);
    }
  }

  lemma StartBalanced()
    ensures Balanced(START) && START.lostErrors == 0 && START.lostTests == 0
  {}

  // Committed and local counts together equal everything recorded exactly when no
  // process ended with counts it had not written.
  lemma CountsConserved(s: System, run: seq<Step>)
    requires Feasible(s, run) && Balanced(s) && s.lostErrors == 0 && s.lostTests == 0
    ensures var s' := After(s, run);
      RunKeepsCounts(s, run) <==>
        && s'.db.errors + SumErrors(s'.procs) == s'.recordedErrors
        && s'.db.tests + SumTests(s'.procs) == s'.recordedTests
  {
    hide Apply, After, Feasible, RunKeepsCounts, SumErrors, SumTests, Enabled;
    RunBalanced(s, run);
    RunLoses(s, run);
  }

  // A client that gives up loses exactly the error that says so.
  lemma GivingUpLosesOne(s: System, pid: nat)
    requires Enabled(s, StartScript(pid, true)) && !KeepsCounts(s, StartScript(pid, true))
    ensures var s' := Apply(s, StartScript(pid, true));
      && s'.lostErrors == s.lostErrors + 1 && s'.lostTests == s.lostTests
      && s'.db.errors == s.db.errors + s.procs[pid].errors && s'.db.tests == s.db.tests + s.procs[pid].tests
  {}

  // What the supervisor prints at the end, its own counts and the committed ones, is
  // everything recorded, if no other process holds or lost any.
  lemma FinalSummary(s: System, run: seq<Step>)
    requires Feasible(s, run) && Balanced(s) && s.lostErrors == 0 && s.lostTests == 0
    requires RunKeepsCounts(s, run)
    requires var q := After(s, run).procs; q != [] && forall p | 0 < p < |q| :: q[p].errors == 0 && q[p].tests == 0
    ensures var s' := After(s, run);
      && s'.procs[0].errors + s'.db.errors == s'.recordedErrors
      && s'.procs[0].tests + s'.db.tests == s'.recordedTests
  {
    hide Apply, After, Feasible, RunKeepsCounts, Enabled;
    CountsConserved(s, run);
    NoneLeft(After(s, run).procs[1..]);
  }

  lemma {:induction false} NoneLeft(procs: seq<Proc>)
    requires forall p | 0 <= p < |procs| :: procs[p].errors == 0 && procs[p].tests == 0
    ensures SumErrors(procs) == 0 && SumTests(procs) == 0
  {
    if procs != [] { NoneLeft(procs[1..]); }
  }
}
