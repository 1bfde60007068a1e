/** The mutexes: what each step of the machine locks, and why no set of threads can block each
    other. A thread is here what it still has to do with locks. */
module Locks {
  import opened Machine

  datatype Lock = GlobalLock | BindLock(b: nat) | RootLock | ConnLock(c: nat) | WorkerLock(w: nat)

  /** Nested acquisitions climb: root, connection, then workers by number. */
  function Rank(l: Lock): nat {
    match l
    case GlobalLock => 0
    case BindLock(_) => 1
    case RootLock => 2
    case ConnLock(_) => 3
    case WorkerLock(w) => 4 + w
  }

  /** `Outside` waits for something other than a mutex: the descriptor, or the end of a thread. */
  datatype Op = Acquire(l: Lock) | Release(l: Lock) | CondWait | CondBroadcast | Outside

  function Locked(l: Lock, inner: seq<Op>): seq<Op> {
    [Acquire(l)] + inner + [Release(l)]
  }

  // ---- what the code locks ------------------------------------------------------------------

  /** fsock_workers_lock and fsock_workers_unlock from worker i on (src/core/global.c:29-37). */
  function LockWorkers(i: nat): seq<Op>
    decreases WORKERS - i
  {
    if WORKERS <= i then [] else [Acquire(WorkerLock(i))] + LockWorkers(i + 1)
  }

  function UnlockWorkers(i: nat): seq<Op>
    decreases WORKERS - i
  {
    if WORKERS <= i then [] else [Release(WorkerLock(i))] + UnlockWorkers(i + 1)
  }

  /** A read decision, under the root's lock. */
  function DecisionOps(decides: bool): seq<Op> {
    if decides then LockWorkers(0) + UnlockWorkers(0) else []
  }

  function TakeOps(root: Root): seq<Op>
    requires root.events != []
  {
    var r := TakeRoot(root);
    Locked(RootLock, DecisionOps(0 < r.rcvhwm && r.stopRead && r.rcvqsz < r.rcvhwm))
  }

  /** The insertion of a send (src/core/global.c:271-278). */
  function InsertOps(conn: Conn, c: nat): seq<Op> {
    Locked(ConnLock(c), if conn.writing then [] else Locked(WorkerLock(conn.thr), []))
  }

  /** The lock operations of a step, in order. */
  function StepOps(s: State, step: Step): seq<Op>
    requires Enabled(s, step)
  {
    match step
    case AddConn(_, incoming) =>
      if incoming then Locked(BindLock(0), []) + Locked(RootLock, []) + Locked(GlobalLock, [])
      else Locked(GlobalLock, []) + Locked(RootLock, [])
    case AttachConn(c) => Locked(WorkerLock(s.conns[c].thr), [])
    case Swap(w) => Locked(WorkerLock(w), [])
    case ScheduleHalt(w) => Locked(WorkerLock(w), []) + [Outside]
    case Read(c, frames) =>
      var q := ReadRoot(s.root, c, frames);
      Locked(RootLock, DecisionOps(0 < q.rcvhwm < q.rcvqsz))
    case Close(c) => Locked(ConnLock(c), [])
    case WriteTest(w) => Locked(ConnLock(s.workers[w].hand.c), [])
    case WriteAgain(w) => Locked(ConnLock(s.workers[w].hand.c), [])
    case WriteAccount(_) => Locked(RootLock, [])
    case WriteWake(w) => if s.workers[w].hand.cast then [CondBroadcast] else []
    case WriteStop(w) => Locked(ConnLock(s.workers[w].hand.c), [])
    case SendWait(_) => Locked(RootLock, [CondWait])
    case SendInsert(u) => InsertOps(s.conns[s.users[u].c], s.users[u].c)
    case SendCount(_) => Locked(RootLock, [])
    case GetEnter(_, dontwait) =>
      if s.root.events != [] then TakeOps(s.root) else Locked(RootLock, []) + if dontwait then [] else [Outside]
    case GetWoken(_) => if s.root.events != [] then TakeOps(s.root) else Locked(RootLock, [])
    case _ => []
  }

  /** The same inside a broadcast, which holds the root's lock and sends with UNSAFE. */
  function UnsafeOps(s: State, step: Step): seq<Op>
    requires Enabled(s, step)
  {
    match step
    case SendWait(_) => [CondWait]
    case SendInsert(u) => InsertOps(s.conns[s.users[u].c], s.users[u].c)
    case _ => []
  }

  /** One step on its own, or a broadcast with the steps of its sends. */
  datatype Work = Alone(s: State, step: Step) | Broadcast(sends: seq<(State, Step)>)

  ghost predicate Possible(work: Work) {
    match work
    case Alone(s, step) => Enabled(s, step)
    case Broadcast(sends) => forall i :: 0 <= i < |sends| ==> Enabled(sends[i].0, sends[i].1)
  }

  function SendsOps(sends: seq<(State, Step)>): seq<Op>
    requires forall i :: 0 <= i < |sends| ==> Enabled(sends[i].0, sends[i].1)
  {
    if sends == [] then [] else UnsafeOps(sends[0].0, sends[0].1) + SendsOps(sends[1..])
  }

  function WorkOps(work: Work): seq<Op>
    requires Possible(work)
  {
    match work
    case Alone(s, step) => StepOps(s, step)
    case Broadcast(sends) => Locked(RootLock, SendsOps(sends))
  }

  // ---- the discipline -----------------------------------------------------------------------

  /** From the locks `held` the operations lead to `end`, acquiring upwards only; the condition
      wait holds just the root's lock, and nothing else is waited for with a lock held. */
  ghost predicate Disciplined(held: set<Lock>, ops: seq<Op>, end: set<Lock>)
    decreases |ops|
  {
    if ops == [] then held == end
    else
      match ops[0]
      case Acquire(l) => (forall h :: h in held ==> Rank(h) < Rank(l)) && Disciplined(held + {l}, ops[1..], end)
      case Release(l) => l in held && Disciplined(held - {l}, ops[1..], end)
      case CondWait => held == {RootLock} && Disciplined(held, ops[1..], end)
      case CondBroadcast => Disciplined(held, ops[1..], end)
      case Outside => held == {} && Disciplined(held, ops[1..], end)
  }

  lemma {:induction false} Chained(held: set<Lock>, a: seq<Op>, mid: set<Lock>, b: seq<Op>, end: set<Lock>)
    requires Disciplined(held, a, mid) && Disciplined(mid, b, end)
    ensures Disciplined(held, a + b, end)
    decreases |a|
  {
    if a == [] {
      assert a + b == b;
    } else {
      assert (a + b)[0] == a[0] && (a + b)[1..] == a[1..] + b;
      match a[0] {
        case Acquire(l) => Chained(held + {l}, a[1..], mid, b, end);
        case Release(l) => Chained(held - {l}, a[1..], mid, b, end);
        case _ => Chained(held, a[1..], mid, b, end);
      }
    }
  }

  lemma LockedOk(held: set<Lock>, l: Lock, inner: seq<Op>)
    requires forall h :: h in held ==> Rank(h) < Rank(l)
    requires Disciplined(held + {l}, inner, held + {l})
    ensures Disciplined(held, Locked(l, inner), held)
  {
    assert held + {l} - {l} == held;
    assert [Release(l)][1..] == [] && [Acquire(l)][1..] == [];
    Chained(held + {l}, inner, held + {l}, [Release(l)], held);
    Chained(held, [Acquire(l)], held + {l}, inner + [Release(l)], held);
    assert [Acquire(l)] + (inner + [Release(l)]) == Locked(l, inner);
  }

  /** The workers' locks from number i on. */
  function From(i: nat): set<Lock> {
    set w: nat | i <= w < WORKERS :: WorkerLock(w)
  }

  lemma {:induction false} LockWorkersOk(i: nat)
    ensures Disciplined({RootLock} + (From(0) - From(i)), LockWorkers(i), {RootLock} + From(0))
    decreases WORKERS - i
  {
    if WORKERS <= i {
      assert From(i) == {};
    } else {
      LockWorkersOk(i + 1);
      assert {RootLock} + (From(0) - From(i)) + {WorkerLock(i)} == {RootLock} + (From(0) - From(i + 1));
    }
  }

  lemma {:induction false} UnlockWorkersOk(i: nat)
    ensures Disciplined({RootLock} + From(i), UnlockWorkers(i), {RootLock})
    decreases WORKERS - i
  {
    if WORKERS <= i {
      assert {RootLock} + From(i) == {RootLock};
    } else {
      UnlockWorkersOk(i + 1);
      assert {RootLock} + From(i) - {WorkerLock(i)} == {RootLock} + From(i + 1);
    }
  }

  lemma DecisionOk(decides: bool)
    ensures Disciplined({} + {RootLock}, DecisionOps(decides), {} + {RootLock})
  {
    if decides {
      LockWorkersOk(0);
      UnlockWorkersOk(0);
      assert {RootLock} + (From(0) - From(0)) == {RootLock} == {} + {RootLock};
      Chained({RootLock}, LockWorkers(0), {RootLock} + From(0), UnlockWorkers(0), {RootLock});
    }
  }

  lemma PlainOk(l: Lock)
    ensures Disciplined({}, Locked(l, []), {})
  {
    LockedOk({}, l, []);
  }

  lemma DecidingOk(decides: bool)
    ensures Disciplined({}, Locked(RootLock, DecisionOps(decides)), {})
  {
    DecisionOk(decides);
    LockedOk({}, RootLock, DecisionOps(decides));
  }

  lemma InsertOk(held: set<Lock>, conn: Conn, c: nat)
    requires held <= {RootLock}
    ensures Disciplined(held, InsertOps(conn, c), held)
  {
    if !conn.writing {
      LockedOk(held + {ConnLock(c)}, WorkerLock(conn.thr), []);
    }
    LockedOk(held, ConnLock(c), if conn.writing then [] else Locked(WorkerLock(conn.thr), []));
  }

  lemma ThenOutside(l: Lock)
    ensures Disciplined({}, Locked(l, []) + [Outside], {})
  {
    PlainOk(l);
    assert [Outside][1..] == [];
    Chained({}, Locked(l, []), {}, [Outside], {});
  }

  lemma AddOk()
    ensures Disciplined({}, Locked(BindLock(0), []) + Locked(RootLock, []) + Locked(GlobalLock, []), {})
    ensures Disciplined({}, Locked(GlobalLock, []) + Locked(RootLock, []), {})
  {
    var b, r, g := Locked(BindLock(0), []), Locked(RootLock, []), Locked(GlobalLock, []);
    PlainOk(BindLock(0));
    PlainOk(RootLock);
    PlainOk(GlobalLock);
    Chained({}, g, {}, r, {});
    Chained({}, b, {}, r, {});
    Chained({}, b + r, {}, g, {});
  }

  lemma WaitOk()
    ensures Disciplined({}, Locked(RootLock, [CondWait]), {})
  {
    assert [CondWait][1..] == [];
    LockedOk({}, RootLock, [CondWait]);
  }

  lemma StepOk(s: State, step: Step)
    requires Enabled(s, step)
    ensures Disciplined({}, StepOps(s, step), {})
  {
    match step {
      case AddConn(_, _) => AddOk();
      case AttachConn(c) => PlainOk(WorkerLock(s.conns[c].thr));
      case Swap(w) => PlainOk(WorkerLock(w));
      case ScheduleHalt(w) => ThenOutside(WorkerLock(w));
      case Read(c, frames) =>
        var q := ReadRoot(s.root, c, frames);
        DecidingOk(0 < q.rcvhwm < q.rcvqsz);
      case Close(c) => PlainOk(ConnLock(c));
      case WriteTest(w) => PlainOk(ConnLock(s.workers[w].hand.c));
      case WriteAgain(w) => PlainOk(ConnLock(s.workers[w].hand.c));
      case WriteAccount(_) => PlainOk(RootLock);
      case WriteWake(_) => assert [CondBroadcast][1..] == [];
      case WriteStop(w) => PlainOk(ConnLock(s.workers[w].hand.c));
      case SendWait(_) => WaitOk();
      case SendInsert(u) => InsertOk({}, s.conns[s.users[u].c], s.users[u].c);
      case SendCount(_) => PlainOk(RootLock);
      case GetEnter(_, dontwait) =>
        PlainOk(RootLock);
        ThenOutside(RootLock);
        assert Locked(RootLock, []) + [] == Locked(RootLock, []);
        GetOk(s.root);
      case GetWoken(_) =>
        PlainOk(RootLock);
        GetOk(s.root);
      case _ =>
    }
  }

  lemma GetOk(root: Root)
    ensures root.events != [] ==> Disciplined({}, TakeOps(root), {})
  {
    if root.events != [] {
      var r := TakeRoot(root);
      DecidingOk(0 < r.rcvhwm && r.stopRead && r.rcvqsz < r.rcvhwm);
    }
  }

  lemma {:induction false} SendsOk(sends: seq<(State, Step)>)
    requires forall i :: 0 <= i < |sends| ==> Enabled(sends[i].0, sends[i].1)
    ensures Disciplined({RootLock}, SendsOps(sends), {RootLock})
    decreases |sends|
  {
    if sends != [] {
      var s, step := sends[0].0, sends[0].1;
      SendsOk(sends[1..]);
      if step.SendInsert? {
        InsertOk({RootLock}, s.conns[s.users[step.u].c], s.users[step.u].c);
      }
      assert [CondWait][1..] == [];
      Chained({RootLock}, UnsafeOps(s, step), {RootLock}, SendsOps(sends[1..]), {RootLock});
    }
  }

  /** Everything the code does keeps the discipline. */
  lemma WorkOk(work: Work)
    requires Possible(work)
    ensures Disciplined({}, WorkOps(work), {})
  {
    match work {
      case Alone(s, step) => StepOk(s, step);
      case Broadcast(sends) =>
        SendsOk(sends);
        assert {} + {RootLock} == {RootLock};
        LockedOk({}, RootLock, SendsOps(sends));
    }
  }
}
