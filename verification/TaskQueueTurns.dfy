/** What one turn of a client does, case by case, and that a client that is told to halt
    starts nothing more. */
module TaskQueueTurns {
  import opened Options
  import opened TaskQueue
  import opened TaskQueueSafety

  // The client has been told to halt and has not yet signed off.
  predicate Halting(s: System, c: int) { c in s.db.clients && s.db.clients[c] }

  // Task t is the oldest of client c that nobody has started.
  predicate Oldest(s: System, c: int, t: nat) {
    && t < |s.db.tasks| && s.db.tasks[t].client == c && !s.db.tasks[t].started
    && forall k | 0 <= k < t :: s.db.tasks[k].client == c ==> s.db.tasks[k].started
  }

  // Whatever else happens, a turn writes the local counts to the database.
  lemma TurnWrites(s: System, pid: nat, late: bool)
    requires Enabled(s, StartScript(pid, late))
    ensures var s' := Apply(s, StartScript(pid, late));
      && s'.db.errors == s.db.errors + s.procs[pid].errors && s'.db.tests == s.db.tests + s.procs[pid].tests
      && |s'.procs| == |s.procs| && s'.procs[pid].errors == 0 && s'.procs[pid].tests == 0
      && forall p | 0 <= p < |s.procs| && p != pid :: s'.procs[p] == s.procs[p]
  {}

  // A client told to halt starts nothing, whether or not a task is waiting: it signs off
  // and ends.
  lemma HaltedTurn(s: System, pid: nat, late: bool)
    requires Enabled(s, StartScript(pid, late)) && Halting(s, s.procs[pid].client)
    ensures var s' := Apply(s, StartScript(pid, late));
      && s'.claims == s.claims && s'.db.tasks == s.db.tasks
      && s'.procs[pid].state == Gone && s'.db.clients == s.db.clients - {s.procs[pid].client}
  {}

  // Otherwise it starts its oldest waiting task, even when late.
  lemma WorkingTurn(s: System, pid: nat, late: bool) returns (t: nat)
    requires Enabled(s, StartScript(pid, late)) && !Halting(s, s.procs[pid].client) && Waiting(s, s.procs[pid].client)
    ensures Oldest(s, s.procs[pid].client, t)
    ensures var s' := Apply(s, StartScript(pid, late));
      && s'.claims == s.claims + [Claim(pid, t)] && s'.db.clients == s.db.clients
      && s'.procs[pid].state == Running(t)
      && s'.db.tasks == s.db.tasks[t := s.db.tasks[t].(started := true)]
  {
    t := NextTask(s.db.tasks, s.procs[pid].client, 0).value;
  }

  // With no task it waits, or signs off and ends when it has waited too long.
  lemma IdleTurn(s: System, pid: nat, late: bool)
    requires Enabled(s, StartScript(pid, late)) && !Halting(s, s.procs[pid].client) && !Waiting(s, s.procs[pid].client)
    ensures var s' := Apply(s, StartScript(pid, late));
      && s'.claims == s.claims && s'.db.tasks == s.db.tasks
      && s'.procs[pid].state == (if late then Gone else Idle)
      && s'.db.clients == (if late then s.db.clients - {s.procs[pid].client} else s.db.clients)
  {}

  // The supervisor's halt, and a fatal error of anyone, reach every client there is.
  lemma HaltReachesAll(s: System, a: Step, c: int)
    requires Enabled(s, a) && (a.HaltAll? || a.Fatal?) && c in s.db.clients
    ensures Halting(Apply(s, a), c)
  {}

  // A halt is never taken back: it lasts until the client has signed off.
  lemma HaltLasts(s: System, a: Step, c: int)
    requires Enabled(s, a) && Halting(s, c)
    ensures Halting(Apply(s, a), c) || c !in Apply(s, a).db.clients
  {}

  // While it lasts nobody claims a task for that client.
  lemma HaltedClaimsNothing(s: System, a: Step, c: int)
    requires Enabled(s, a) && Halting(s, c)
    ensures var s' := Apply(s, a);
      && |s.claims| <= |s'.claims| && s'.claims[..|s.claims|] == s.claims
      && |s.procs| <= |s'.procs| && (forall p | 0 <= p < |s.procs| :: s'.procs[p].client == s.procs[p].client)
      && forall i | |s.claims| <= i < |s'.claims| ::
           s'.claims[i].pid < |s'.procs| && s'.procs[s'.claims[i].pid].client != c
  {}

  // The client is listed all along the run.
  predicate Listed(s: System, run: seq<Step>, c: int)
    requires Feasible(s, run)
    decreases |run|
  {
    c in s.db.clients && (run == [] || Listed(Apply(s, run[0]), run[1..], c))
  }

  // From the halt on, until the client has signed off, no process of that client claims
  // a task, in any interleaving.
  lemma {:induction false} HaltedRun(s: System, run: seq<Step>, c: int)
    requires Feasible(s, run) && Halting(s, c) && Listed(s, run, c)
    ensures var s' := After(s, run);
      && |s.claims| <= |s'.claims| && s'.claims[..|s.claims|] == s.claims
      && |s.procs| <= |s'.procs| && (forall p | 0 <= p < |s.procs| :: s'.procs[p].client == s.procs[p].client)
      && forall i | |s.claims| <= i < |s'.claims| ::
           s'.claims[i].pid < |s'.procs| && s'.procs[s'.claims[i].pid].client != c
    decreases |run|
  {
    hide Apply, Enabled, Halting;
    if run != [] {
      var s1, s' := Apply(s, run[0]), After(s, run);
      HaltedClaimsNothing(s, run[0], c);
      HaltLasts(s, run[0], c);
      HaltedRun(s1, run[1..], c);
      assert s' == After(s1, run[1..]);
      assert s'.claims[..|s.claims|] == s'.claims[..|s1.claims|][..|s.claims|];
      forall i | |s.claims| <= i < |s'.claims|
        ensures s'.claims[i].pid < |s'.procs| && s'.procs[s'.claims[i].pid].client != c
      {
        if i < |s1.claims| { assert s'.claims[i] == s'.claims[..|s1.claims|][i]; }
      }
    }
  }
}
