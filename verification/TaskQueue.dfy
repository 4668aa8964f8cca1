/** The task queue of the multi-process tester: a supervisor and clients that meet
    only in one database, each transaction atomic.  A run is any sequence of steps
    of any processes. */
module TaskQueue {
  import opened Options

  datatype Task = Task(client: int, started: bool, ended: bool)

  // Task i has id i + 1; clients maps a client to its wantHalt flag.
  datatype Db = Db(tasks: seq<Task>, clients: map<int, bool>, errors: nat, tests: nat)

  // How one turn of startScript's loop ends.
  datatype Turn = Done | Start(task: nat) | GaveUp | Wait

  // The oldest task of a client that nobody has started, from position i on.
  function NextTask(tasks: seq<Task>, client: int, i: nat): (r: Option<nat>)
    requires i <= |tasks|
    ensures r.Some? ==>
      && i <= r.value < |tasks| && tasks[r.value].client == client && !tasks[r.value].started
      && forall k | i <= k < r.value :: tasks[k].client == client ==> tasks[k].started
    ensures r.None? ==> forall k | i <= k < |tasks| :: tasks[k].client == client ==> tasks[k].started
    decreases |tasks| - i
  {
    if i == |tasks| then None
    else if tasks[i].client == client && !tasks[i].started then Some(i)
    else NextTask(tasks, client, i + 1)
  }

  // One transaction of startScript; late is set after thirty idle seconds.
  function Poll(db: Db, client: int, errors: nat, tests: nat, late: bool): (Db, Turn) {
    var d := db.(errors := db.errors + errors, tests := db.tests + tests);
    if client in d.clients && d.clients[client] then (d.(clients := d.clients - {client}), Done)
    else match NextTask(d.tasks, client, 0)
      case Some(t) => (d.(tasks := d.tasks[t := d.tasks[t].(started := true)]), Start(t))
      case None => if late then (d.(clients := d.clients - {client}), GaveUp) else (d, Wait)
  }

  // ----- Processes and steps ------------------------------------------------------------

  datatype State = Idle | Running(task: nat) | Gone

  // Counts a process has not yet written to the database.
  datatype Proc = Proc(client: int, state: State, errors: nat, tests: nat)

  datatype Claim = Claim(pid: nat, task: nat)

  // Process 0 is the supervisor.  The last three fields are history: who started
  // which task, what was ever recorded, what was lost when a process ended.
  datatype System = System(db: Db, procs: seq<Proc>, claims: seq<Claim>,
    recordedErrors: nat, recordedTests: nat, lostErrors: nat, lostTests: nat)

  datatype Step =
    | StartClient(client: int)
    | InsertTask(client: int)
    | HaltAll
    | StartScript(pid: nat, late: bool)
    | Record(pid: nat, errors: nat, tests: nat)
    | MarkEnded(pid: nat)
    | DropClient(pid: nat)
    | BackToIdle(pid: nat)
    | Exit(pid: nat)
    | Fatal(pid: nat)

  const START := System(Db([], map[], 0, 0), [Proc(0, Idle, 0, 0)], [], 0, 0, 0, 0)

  predicate Alive(s: System, pid: nat) { pid < |s.procs| && s.procs[pid].state != Gone }

  predicate Enabled(s: System, a: Step) {
    match a
    case StartClient(_) => Alive(s, 0)
    case InsertTask(client) => Alive(s, 0) && client >= 0
    case HaltAll => Alive(s, 0)
    case StartScript(pid, _) => 0 < pid < |s.procs| && s.procs[pid].state == Idle
    case Record(pid, _, _) => Alive(s, pid)
    case MarkEnded(pid) => pid < |s.procs| && s.procs[pid].state.Running?
    case DropClient(pid) => pid < |s.procs| && s.procs[pid].state.Running?
    case BackToIdle(pid) =>
      pid < |s.procs| && s.procs[pid].state.Running? && s.procs[pid].state.task < |s.db.tasks|
          && s.db.tasks[s.procs[pid].state.task].ended
    case Exit(pid) => Alive(s, pid)
    case Fatal(pid) => Alive(s, pid)
  }

  function Halted(clients: map<int, bool>): map<int, bool> { map c | c in clients :: true }

  // A process ends: what it has not written is lost.
  function Leave(s: System, pid: nat): System
    requires pid < |s.procs|
  {
    var p := s.procs[pid];
    s.(procs := s.procs[pid := p.(state := Gone, errors := 0, tests := 0)],
       lostErrors := s.lostErrors + p.errors, lostTests := s.lostTests + p.tests)
  }

  function Noted(s: System, pid: nat, errors: nat, tests: nat): System
    requires pid < |s.procs|
  {
    var p := s.procs[pid];
    s.(procs := s.procs[pid := p.(errors := p.errors + errors, tests := p.tests + tests)],
       recordedErrors := s.recordedErrors + errors, recordedTests := s.recordedTests + tests)
  }

  // The transaction clears the local counts; giving up records one more error and exits.
  function Polled(s: System, pid: nat, late: bool): System
    requires pid < |s.procs|
  {
    var p := s.procs[pid];
    var (db, turn) := Poll(s.db, p.client, p.errors, p.tests, late);
    var q := p.(errors := 0, tests := 0);
    var s' := s.(db := db, procs := s.procs[pid := q]);
    match turn
    case Wait => s'
    case Done => Leave(s', pid)
    case GaveUp => Leave(Noted(s', pid, 1, 0), pid)
    case Start(t) =>
      s'.(procs := s.procs[pid := q.(state := Running(t))], claims := s.claims + [Claim(pid, t)])
  }

  function Apply(s: System, a: Step): System
    requires Enabled(s, a)
  {
    match a
    case StartClient(client) =>
      if client in s.db.clients then s
      else s.(db := s.db.(clients := s.db.clients[client := false]),
              procs := s.procs + [Proc(client, if client < 1 then Gone else Idle, 0, 0)])
    case InsertTask(client) => s.(db := s.db.(tasks := s.db.tasks + [Task(client, false, false)]))
    case HaltAll => s.(db := s.db.(clients := Halted(s.db.clients)))
    case StartScript(pid, late) => Polled(s, pid, late)
    case Record(pid, errors, tests) => Noted(s, pid, errors, tests)
    case MarkEnded(pid) =>
      var t := s.procs[pid].state.task;
      if t < |s.db.tasks| then s.(db := s.db.(tasks := s.db.tasks[t := s.db.tasks[t].(ended := true)])) else s
    case DropClient(pid) => s.(db := s.db.(clients := s.db.clients - {s.procs[pid].client}))
    case BackToIdle(pid) => s.(procs := s.procs[pid := s.procs[pid].(state := Idle)])
    case Exit(pid) => Leave(s, pid)
    case Fatal(pid) => Leave(s.(db := s.db.(clients := Halted(s.db.clients))), pid)
  }

  // ----- Runs -----------------------------------------------------------------------------

  predicate Feasible(s: System, run: seq<Step>)
    decreases |run|
  {
    run == [] || (Enabled(s, run[0]) && Feasible(Apply(s, run[0]), run[1..]))
  }

  function After(s: System, run: seq<Step>): System
    requires Feasible(s, run)
    decreases |run|
  {
    if run == [] then s else After(Apply(s, run[0]), run[1..])
  }

  // ----- The transaction itself -----------------------------------------------------------

  class Database {
    var tasks: seq<Task>
    var clients: map<int, bool>
    var errors: nat
    var tests: nat

    function Value(): Db
      reads this
    {
      Db(tasks, clients, errors, tests)
    }
  }

  class Client {
    const id: int
    var errors: nat
    var tests: nat

    constructor (id: int)
      ensures this.id == id && errors == 0 && tests == 0
    {
      this.id := id;
      errors, tests := 0, 0;
    }

    // One turn of startScript's loop, begun with BEGIN IMMEDIATE and committed.
    method StartScript(db: Database, totalTime: nat) returns (turn: Turn)
      modifies this, db
      ensures (db.Value(), turn) == Poll(old(db.Value()), id, old(errors), old(tests), totalTime > 30000)
      ensures errors == (if turn == GaveUp then 1 else 0) && tests == 0
      ensures turn == Done <==> old(id in db.clients && db.clients[id])
      ensures turn == Done || turn == GaveUp ==> db.tasks == old(db.tasks) && db.clients == old(db.clients) - {id}
      ensures turn.Start? ==>
        && turn.task < |old(db.tasks)| && old(db.tasks)[turn.task].client == id && !old(db.tasks)[turn.task].started
        && forall k | 0 <= k < turn.task :: old(db.tasks)[k].client == id ==> old(db.tasks)[k].started
    {
      if errors != 0 || tests != 0 {
        db.errors := db.errors + errors;
        db.tests := db.tests + tests;
        errors := 0;
        tests := 0;
      }
      if id in db.clients && db.clients[id] {
        db.clients := db.clients - {id};
        return Done;
      }
      var t := 0;
      while t < |db.tasks| && !(db.tasks[t].client == id && !db.tasks[t].started)
        invariant t <= |db.tasks|
        invariant NextTask(db.tasks, id, 0) == NextTask(db.tasks, id, t)
      {
        t := t + 1;
      }
      if t < |db.tasks| {
        db.tasks := db.tasks[t := db.tasks[t].(started := true)];
        return Start(t);
      }
      if totalTime > 30000 {
        errors := errors + 1;
        db.clients := db.clients - {id};
        return GaveUp;
      }
      return Wait;
    }
  }
}
