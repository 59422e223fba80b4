/** The two locks of the collector, and why no set of tasks can lock up. */
module Locks {
  datatype Lock = FiringLock | HostsLock

  datatype Instr = Read(lock: Lock) | Write(lock: Lock) | Release(lock: Lock)

  /** The collector's operations as they take and drop locks. */
  datatype Op = Snapshot | ApplyCounted | ApplyOnly | HostWrite | HostRead | ResolveFound | ResolveMissing | WatcherTake

  function Code(op: Op): seq<Instr> {
    match op
    case Snapshot => [Read(FiringLock), Release(FiringLock), Read(HostsLock), Release(HostsLock)]
    case ApplyCounted => [Write(FiringLock), Write(HostsLock), Release(HostsLock), Release(FiringLock)]
    case ApplyOnly => [Write(FiringLock), Release(FiringLock)]
    case HostWrite => [Write(HostsLock), Release(HostsLock)]
    case HostRead => [Read(HostsLock), Release(HostsLock)]
    case ResolveFound => [Write(FiringLock), Release(FiringLock), Write(HostsLock), Release(HostsLock)]
    case ResolveMissing => [Write(FiringLock), Release(FiringLock)]
    case WatcherTake => [Write(FiringLock), Release(FiringLock)]
  }

  /** A task is any sequence of operations. */
  function Program(ops: seq<Op>): seq<Instr> {
    if ops == [] then [] else Code(ops[0]) + Program(ops[1..])
  }

  /** Locks held, with the mode (true for writing), and the code still to run. */
  datatype Task = Task(held: map<Lock, bool>, rest: seq<Instr>)

  type State = map<nat, Task>

  predicate Acquires(i: Instr) { !i.Release? }

  /** Who else stands in the way: a writer, or any holder when the lock is wanted for writing. */
  ghost predicate Compatible(s: State, t: nat, i: Instr) {
    forall u <- s :: u != t && i.lock in s[u].held ==> i.Read? && !s[u].held[i.lock]
  }

  function Advance(k: Task): Task
    requires k.rest != []
  {
    var i := k.rest[0];
    Task(if i.Release? then k.held - {i.lock} else k.held[i.lock := i.Write?], k.rest[1..])
  }

  /** Task t takes a step if the lock it asks for, if any, can be shared with its present holders. */
  ghost function Step(s: State, t: nat): State {
    if t in s && s[t].rest != [] && (Acquires(s[t].rest[0]) ==> Compatible(s, t, s[t].rest[0]))
    then s[t := Advance(s[t])]
    else s
  }

  ghost function Run(s: State, ts: seq<nat>): State
    decreases |ts|
  {
    if ts == [] then s else Run(Step(s, ts[0]), ts[1..])
  }

  /** A task that cannot be refused under any policy, be it one that lets nobody share or that
      holds readers back for waiting writers: what it asks for is held by no other task. */
  ghost predicate CanRun(s: State, t: nat) {
    && t in s && s[t].rest != []
    && (Acquires(s[t].rest[0]) ==> forall u <- s :: u != t ==> s[t].rest[0].lock !in s[u].held)
  }

  /** Locks are released before the end, the firing lock is never asked for while holding anything,
      and a holder of the hosts lock asks for nothing. */
  predicate Orderly(held: map<Lock, bool>, code: seq<Instr>)
    decreases |code|
  {
    if code == [] then held == map[]
    else
      var i := code[0];
      if i.Release? then i.lock in held && Orderly(held - {i.lock}, code[1..])
      else
        && i.lock !in held && HostsLock !in held && (i.lock == FiringLock ==> held == map[])
        && Orderly(held[i.lock := i.Write?], code[1..])
  }

  lemma {:induction false} OrderlyThen(held: map<Lock, bool>, code: seq<Instr>, next: seq<Instr>)
    requires Orderly(held, code) && Orderly(map[], next)
    ensures Orderly(held, code + next)
    decreases |code|
  {
    if code == [] {
      assert code + next == next;
    } else {
      assert (code + next)[1..] == code[1..] + next;
      OrderlyThen(Advance(Task(held, code)).held, code[1..], next);
    }
  }

  lemma {:induction false} CodeOrderly(op: Op)
    ensures Orderly(map[], Code(op))
  {
    var f, h := map[FiringLock := true], map[HostsLock := true];
    assert Orderly(map[], []);
    assert forall l: Lock, b: bool :: map[l := b] - {l} == map[];
    match op
    case Snapshot =>
      assert Code(op)[1..] == [Release(FiringLock), Read(HostsLock), Release(HostsLock)];
      assert Code(op)[1..][1..] == [Read(HostsLock), Release(HostsLock)];
      assert Code(op)[1..][1..][1..] == [Release(HostsLock)];
      assert Orderly(map[HostsLock := false], [Release(HostsLock)]);
    case ApplyCounted =>
      assert Code(op)[1..] == [Write(HostsLock), Release(HostsLock), Release(FiringLock)];
      assert Code(op)[1..][1..] == [Release(HostsLock), Release(FiringLock)];
      assert Code(op)[1..][1..][1..] == [Release(FiringLock)];
      assert f[HostsLock := true] - {HostsLock} == f;
      assert Orderly(f, [Release(FiringLock)]);
    case ResolveFound =>
      assert Code(op)[1..] == [Release(FiringLock), Write(HostsLock), Release(HostsLock)];
      assert Code(op)[1..][1..] == [Write(HostsLock), Release(HostsLock)];
      assert Code(op)[1..][1..][1..] == [Release(HostsLock)];
      assert Orderly(h, [Release(HostsLock)]);
    case _ =>
      assert Code(op)[1..] == [Release(Code(op)[0].lock)];
  }

  lemma {:induction false} ProgramOrderly(ops: seq<Op>)
    ensures Orderly(map[], Program(ops))
  {
    if ops != [] {
      CodeOrderly(ops[0]);
      ProgramOrderly(ops[1..]);
      OrderlyThen(map[], Code(ops[0]), Program(ops[1..]));
    }
  }

  ghost predicate AllOrderly(s: State) {
    forall t <- s :: Orderly(s[t].held, s[t].rest)
  }

  lemma {:induction false} OrderlyThroughout(s: State, ts: seq<nat>)
    requires AllOrderly(s)
    ensures AllOrderly(Run(s, ts))
    decreases |ts|
  {
    if ts != [] {
      OrderlyThroughout(Step(s, ts[0]), ts[1..]);
    }
  }

  lemma {:induction false} SomeoneCanRun(s: State, t: nat) returns (r: nat)
    requires AllOrderly(s) && t in s && s[t].rest != []
    ensures CanRun(s, r)
  {
    if u :| u in s && HostsLock in s[u].held {
      r := u;
    } else if u :| u in s && FiringLock in s[u].held {
      r := u;
    } else {
      r := t;
    }
  }

  function Spawn(programs: map<nat, seq<Op>>): State {
    map u | u in programs :: Task(map[], Program(programs[u]))
  }

  /** Deadlock freedom: tasks running any operations, in any number, from the start and along any
      schedule: as long as one of them is not finished, some task cannot be refused its next step. */
  lemma DeadlockFree(programs: map<nat, seq<Op>>, ts: seq<nat>, t: nat)
    requires var s := Run(Spawn(programs), ts); t in s && s[t].rest != []
    ensures exists r :: CanRun(Run(Spawn(programs), ts), r)
  {
    var s := Spawn(programs);
    forall u | u in s ensures Orderly(s[u].held, s[u].rest) { ProgramOrderly(programs[u]); }
    OrderlyThroughout(s, ts);
    var r := SomeoneCanRun(Run(s, ts), t);
  }

  /** Two tasks, each holding one lock and asking for the other. */
  const CROSSED: State := map[
    0 := Task(map[FiringLock := true], [Write(HostsLock), Release(HostsLock), Release(FiringLock)]),
    1 := Task(map[HostsLock := true], [Write(FiringLock), Release(FiringLock), Release(HostsLock)])]

  /** Taking the locks the other way round in one operation would be enough to lose it. */
  lemma {:induction false} OppositeOrderDeadlocks()
    ensures forall r :: !CanRun(CROSSED, r)
  {
    assert 0 in CROSSED && 1 in CROSSED;
    assert FiringLock in CROSSED[0].held && HostsLock in CROSSED[1].held;
  }
}
