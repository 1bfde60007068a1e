/** What the mutexes are for: whatever a step changes of the shared state it changes under the lock
    of the socket, connection or worker that it belongs to, and it takes no other lock. */
module Guards {
  import opened Machine
  import opened Flow
  import Locks
  import Broadcast

  /** What the root's lock guards. */
  predicate SameRoot(s: State, t: State) {
    && |t.conns| == |s.conns|
    && t.root.sndqsz == s.root.sndqsz && t.root.rcvqsz == s.root.rcvqsz && t.root.events == s.root.events
    && t.root.stopRead == s.root.stopRead && t.root.stopWrite == s.root.stopWrite
    && t.root.wantEfd == s.root.wantEfd && t.root.wantWcond == s.root.wantWcond
  }

  /** What a connection's lock guards: its list, `writing`, and the flag of a closed connection. */
  predicate SameConn(conn: Conn, conn': Conn) {
    conn'.ol == conn.ol && conn'.writing == conn.writing && conn'.zombie == conn.zombie
  }

  predicate Takes(ops: seq<Locks.Op>, l: Locks.Lock) {
    Locks.Acquire(l) in ops
  }

  lemma TakesLocked(l: Locks.Lock, inner: seq<Locks.Op>, k: Locks.Lock)
    ensures Takes(Locks.Locked(l, inner), k) <==> k == l || Takes(inner, k)
  {
  }

  lemma {:induction false} TakesWorkers(i: nat, k: Locks.Lock)
    ensures Takes(Locks.LockWorkers(i), k) <==> k.WorkerLock? && i <= k.w < WORKERS
    ensures !Takes(Locks.UnlockWorkers(i), k)
    decreases WORKERS - i
  {
    if i < WORKERS {
      TakesWorkers(i + 1, k);
    }
  }

  lemma TakesDeciding(decides: bool, k: Locks.Lock)
    ensures Takes(Locks.Locked(Locks.RootLock, Locks.DecisionOps(decides)), k) <==>
              k == Locks.RootLock || (decides && k.WorkerLock? && k.w < WORKERS)
  {
    TakesWorkers(0, k);
    TakesLocked(Locks.RootLock, Locks.DecisionOps(decides), k);
  }

  /** A decision about all readers is made: reading is stopped, or restarted. */
  predicate Decides(s: State, step: Step)
    requires Enabled(s, step)
  {
    var t := Apply(s, step);
    || (step.Read? && 0 < s.root.rcvhwm < t.root.rcvqsz)
    || (TakeStep(s, step) && s.root.events != [] && s.root.stopRead && 0 < s.root.rcvhwm && t.root.rcvqsz < s.root.rcvhwm)
  }

  lemma ReadRcv(s: State, c: nat, frames: seq<Frame>)
    requires Wired(s) && c < |s.conns|
    ensures ReadStep(s, c, frames).root.rcvqsz == ReadRoot(s.root, c, frames).rcvqsz
  {
  }

  lemma TakeRcv(s: State, u: nat)
    requires Wired(s) && u < |s.users| && s.root.events != []
    ensures TakeEvent(s, u).root.rcvqsz == TakeRoot(s.root).rcvqsz
  {
  }

  /** Exactly these steps lock worker w. */
  predicate TouchesWorker(s: State, step: Step, w: nat)
    requires Enabled(s, step)
  {
    || step == Swap(w) || step == ScheduleHalt(w)
    || (step.AttachConn? && s.conns[step.c].thr == w)
    || (step.SendInsert? && s.conns[s.users[step.u].c].thr == w && !s.conns[s.users[step.u].c].writing)
    || (Decides(s, step) && w < WORKERS)
  }

  /** And these connection c. */
  predicate TouchesConn(s: State, step: Step, c: nat)
    requires Enabled(s, step)
  {
    || step == Close(c) || (step.SendInsert? && s.users[step.u].c == c)
    || ((step.WriteTest? || step.WriteAgain? || step.WriteStop?) && s.workers[step.w].hand.c == c)
  }

  lemma GetTakes(s: State, step: Step, l: Locks.Lock)
    requires Enabled(s, step) && (step.GetEnter? || step.GetWoken?)
    ensures Takes(Locks.StepOps(s, step), l) <==> l == Locks.RootLock || (l.WorkerLock? && TouchesWorker(s, step, l.w))
  {
    TakesLocked(Locks.RootLock, [], l);
    if s.root.events != [] {
      var r := TakeRoot(s.root);
      TakeRcv(s, step.u);
      TakesDeciding(0 < r.rcvhwm && r.stopRead && r.rcvqsz < r.rcvhwm, l);
    }
  }

  lemma ReadTakes(s: State, step: Step, l: Locks.Lock)
    requires Enabled(s, step) && step.Read?
    ensures Takes(Locks.StepOps(s, step), l) <==> l == Locks.RootLock || (l.WorkerLock? && TouchesWorker(s, step, l.w))
  {
    var q := ReadRoot(s.root, step.c, step.frames);
    ReadRcv(s, step.c, step.frames);
    TakesDeciding(0 < q.rcvhwm < q.rcvqsz, l);
  }

  lemma UserTakes(s: State, step: Step, l: Locks.Lock)
    requires Enabled(s, step) && !WorkerStep(step) && !WriteStep(step)
    requires !step.AddConn? && !step.Read? && !step.GetEnter? && !step.GetWoken?
    ensures Takes(Locks.StepOps(s, step), l) <==> RightLock(s, step, l)
  {
  }

  lemma LoopTakes(s: State, step: Step, l: Locks.Lock)
    requires Enabled(s, step) && (WorkerStep(step) || step.AddConn?)
    ensures Takes(Locks.StepOps(s, step), l) <==> RightLock(s, step, l)
  {
  }

  lemma HandlerTakes(s: State, step: Step, l: Locks.Lock)
    requires Enabled(s, step) && WriteStep(step)
    ensures Takes(Locks.StepOps(s, step), l) <==> RightLock(s, step, l)
  {
  }

  /** The locks that a step needs: the root's for the steps that a broadcast keeps out, a
      connection's and a worker's as above, those for finding a worker and for the bind's table only
      when a connection is made. */
  predicate RightLock(s: State, step: Step, l: Locks.Lock)
    requires Enabled(s, step)
  {
    match l
    case GlobalLock => step.AddConn?
    case BindLock(b) => b == 0 && step.AddConn? && step.incoming
    case RootLock => Broadcast.Locks(step)
    case ConnLock(c) => TouchesConn(s, step, c)
    case WorkerLock(w) => TouchesWorker(s, step, w)
  }

  lemma TakesExactly(s: State, step: Step, l: Locks.Lock)
    requires Enabled(s, step)
    ensures Takes(Locks.StepOps(s, step), l) <==> RightLock(s, step, l)
  {
    if step.GetEnter? || step.GetWoken? {
      GetTakes(s, step, l);
    } else if step.Read? {
      ReadTakes(s, step, l);
    } else if WorkerStep(step) || step.AddConn? {
      LoopTakes(s, step, l);
    } else if WriteStep(step) {
      HandlerTakes(s, step, l);
    } else {
      UserTakes(s, step, l);
    }
  }

  // ---- all at once ------------------------------------------------------------------------------

  /** The locks held after these operations, from the locks `held`. */
  function HeldAfter(held: set<Locks.Lock>, ops: seq<Locks.Op>): set<Locks.Lock>
    decreases |ops|
  {
    if ops == [] then held
    else
      HeldAfter(match ops[0] case Acquire(l) => held + {l} case Release(l) => held - {l} case _ => held, ops[1..])
  }

  /** At some moment all the locks that are taken are held together. */
  ghost predicate Together(ops: seq<Locks.Op>) {
    exists k :: 0 <= k <= |ops| && forall l :: Takes(ops, l) ==> l in HeldAfter({}, ops[..k])
  }

  lemma {:induction false} HeldWorkers(held: set<Locks.Lock>, i: nat)
    ensures HeldAfter(held, Locks.LockWorkers(i)) == held + Locks.From(i)
    decreases WORKERS - i
  {
    if i < WORKERS {
      HeldWorkers(held + {Locks.WorkerLock(i)}, i + 1);
    }
  }

  lemma NoneTogether(ops: seq<Locks.Op>)
    requires forall op :: op in ops ==> !op.Acquire?
    ensures Together(ops)
  {
    assert forall l :: Takes(ops, l) ==> l in HeldAfter({}, ops[..0]);
  }

  lemma OneTogether(l: Locks.Lock, more: seq<Locks.Op>)
    requires forall op :: op in more ==> !op.Acquire?
    ensures Together([Locks.Acquire(l)] + more)
  {
    var ops := [Locks.Acquire(l)] + more;
    assert ops[..1] == [Locks.Acquire(l)] && ops[..1][1..] == [];
    assert HeldAfter({}, ops[..1]) == {l};
    assert forall k :: Takes(ops, k) ==> k in HeldAfter({}, ops[..1]);
  }

  lemma TwoTogether(l: Locks.Lock, m: Locks.Lock, more: seq<Locks.Op>)
    requires forall op :: op in more ==> !op.Acquire?
    ensures Together([Locks.Acquire(l), Locks.Acquire(m)] + more)
  {
    var ops := [Locks.Acquire(l), Locks.Acquire(m)] + more;
    assert ops[..2] == [Locks.Acquire(l), Locks.Acquire(m)] && ops[..2][1..] == [Locks.Acquire(m)];
    assert [Locks.Acquire(m)][1..] == [] && {l} + {m} == {l, m};
    var none: set<Locks.Lock> := {};
    assert none + {l} == {l} && HeldAfter({l}, [Locks.Acquire(m)]) == {l, m};
    assert HeldAfter(none, ops[..2]) == {l, m};
    assert forall k :: Takes(ops, k) ==> k in HeldAfter({}, ops[..2]);
  }

  lemma ClimbTogether(l: Locks.Lock, climb: seq<Locks.Op>, more: seq<Locks.Op>, all: set<Locks.Lock>)
    requires HeldAfter({l}, climb) == all
    requires forall k :: Takes([Locks.Acquire(l)] + climb + more, k) ==> k in all
    ensures Together([Locks.Acquire(l)] + climb + more)
  {
    var up := [Locks.Acquire(l)] + climb;
    var ops := up + more;
    var none: set<Locks.Lock> := {};
    assert ops[..|up|] == up && up[0] == Locks.Acquire(l) && up[1..] == climb && none + {l} == {l};
    assert HeldAfter({}, ops[..|up|]) == all;
  }

  lemma DecidingTogether(decides: bool)
    ensures Together(Locks.Locked(Locks.RootLock, Locks.DecisionOps(decides)))
  {
    var root, climb, release := Locks.RootLock, Locks.LockWorkers(0), [Locks.Release(Locks.RootLock)];
    var ops := Locks.Locked(root, Locks.DecisionOps(decides));
    if decides {
      var more := Locks.UnlockWorkers(0) + release;
      assert ops == [Locks.Acquire(root)] + climb + more;
      HeldWorkers({root}, 0);
      forall l | Takes(ops, l)
        ensures l in {root} + Locks.From(0)
      {
        TakesDeciding(decides, l);
      }
      ClimbTogether(root, climb, more, {root} + Locks.From(0));
    } else {
      assert ops == [Locks.Acquire(root)] + release;
      OneTogether(root, release);
    }
  }

  lemma LockedTogether(l: Locks.Lock, more: seq<Locks.Op>)
    requires forall op :: op in more ==> !op.Acquire?
    ensures Together(Locks.Locked(l, [])) && Together(Locks.Locked(l, more)) && Together(Locks.Locked(l, []) + more)
  {
    var release := [Locks.Release(l)];
    OneTogether(l, release);
    OneTogether(l, more + release);
    OneTogether(l, release + more);
    assert Locks.Locked(l, []) == [Locks.Acquire(l)] + release;
    assert Locks.Locked(l, more) == [Locks.Acquire(l)] + (more + release);
    assert Locks.Locked(l, []) + more == [Locks.Acquire(l)] + (release + more);
  }

  lemma InsertTogether(conn: Conn, c: nat)
    ensures Together(Locks.InsertOps(conn, c))
  {
    var outer, inner := Locks.ConnLock(c), Locks.WorkerLock(conn.thr);
    if conn.writing {
      LockedTogether(outer, []);
    } else {
      var more := [Locks.Release(inner), Locks.Release(outer)];
      TwoTogether(outer, inner, more);
      assert Locks.InsertOps(conn, c) == [Locks.Acquire(outer), Locks.Acquire(inner)] + more;
    }
  }

  lemma GetTogether(s: State, step: Step)
    requires Enabled(s, step) && (step.GetEnter? || step.GetWoken?)
    ensures Together(Locks.StepOps(s, step))
  {
    if s.root.events != [] {
      var r := TakeRoot(s.root);
      DecidingTogether(0 < r.rcvhwm && r.stopRead && r.rcvqsz < r.rcvhwm);
    } else {
      LockedTogether(Locks.RootLock, [Locks.Outside]);
      assert Locks.Locked(Locks.RootLock, []) + [] == Locks.Locked(Locks.RootLock, []);
    }
  }

  /** But for making a connection, which is done bit by bit, each step is one critical section: there
      is a moment at which it holds all the locks it takes. */
  lemma OneSection(s: State, step: Step)
    requires Enabled(s, step) && !step.AddConn?
    ensures Together(Locks.StepOps(s, step))
  {
    match step {
      case GetEnter(_, _) => GetTogether(s, step);
      case GetWoken(_) => GetTogether(s, step);
      case Read(c, frames) =>
        var q := ReadRoot(s.root, c, frames);
        DecidingTogether(0 < q.rcvhwm < q.rcvqsz);
      case SendInsert(u) => InsertTogether(s.conns[s.users[u].c], s.users[u].c);
      case SendWait(_) => LockedTogether(Locks.RootLock, [Locks.CondWait]);
      case SendCount(_) => LockedTogether(Locks.RootLock, []);
      case AttachConn(c) => LockedTogether(Locks.WorkerLock(s.conns[c].thr), []);
      case Swap(w) => LockedTogether(Locks.WorkerLock(w), []);
      case ScheduleHalt(w) => LockedTogether(Locks.WorkerLock(w), [Locks.Outside]);
      case Close(c) => LockedTogether(Locks.ConnLock(c), []);
      case WriteTest(w) => LockedTogether(Locks.ConnLock(s.workers[w].hand.c), []);
      case WriteAgain(w) => LockedTogether(Locks.ConnLock(s.workers[w].hand.c), []);
      case WriteStop(w) => LockedTogether(Locks.ConnLock(s.workers[w].hand.c), []);
      case WriteAccount(_) => LockedTogether(Locks.RootLock, []);
      case AddConn(_, _) => assert false;
      case Pop(_) => NoneTogether(Locks.StepOps(s, step));
      case Exec(_) => NoneTogether(Locks.StepOps(s, step));
      case WriteEnter(_) => NoneTogether(Locks.StepOps(s, step));
      case WriteSome(_, _) => NoneTogether(Locks.StepOps(s, step));
      case WriteWake(_) => NoneTogether(Locks.StepOps(s, step));
      case SendEnter(_, _, _, _) => NoneTogether(Locks.StepOps(s, step));
      case SendGate(_) => NoneTogether(Locks.StepOps(s, step));
      case GetTimeout(_) => NoneTogether(Locks.StepOps(s, step));
      case GetInterrupt(_) => NoneTogether(Locks.StepOps(s, step));
      case GetPoll(_) => NoneTogether(Locks.StepOps(s, step));
      case GetUnsignal(_) => NoneTogether(Locks.StepOps(s, step));
    }
  }

  // ---- what they protect ----------------------------------------------------------------------

  lemma LoopSame(s: State, step: Step)
    requires Enabled(s, step) && WorkerStep(step)
    ensures SameRoot(s, Apply(s, step))
  {
  }

  lemma HandlerSame(s: State, step: Step)
    requires Enabled(s, step) && WriteStep(step) && !step.WriteAccount?
    ensures SameRoot(s, Apply(s, step))
  {
  }

  /** Root fields change only under the root's lock. */
  lemma RootGuarded(s: State, step: Step)
    requires Enabled(s, step) && !SameRoot(s, Apply(s, step))
    ensures Takes(Locks.StepOps(s, step), Locks.RootLock)
  {
    TakesExactly(s, step, Locks.RootLock);
    if WorkerStep(step) {
      LoopSame(s, step);
    } else if WriteStep(step) && !step.WriteAccount? {
      HandlerSame(s, step);
    }
  }

  lemma DecideConns(s: State, on: bool, c: nat)
    requires Wired(s) && c < |s.conns|
    ensures c < |DecideAll(s, on).conns| && SameConn(s.conns[c], DecideAll(s, on).conns[c])
  {
    BulkConns(Flagged(s, on), on, |s.conns|, c);
  }

  lemma ReadConns(s: State, d: nat, frames: seq<Frame>, c: nat)
    requires Wired(s) && d < |s.conns| && c < |s.conns|
    ensures c < |ReadStep(s, d, frames).conns| && SameConn(s.conns[c], ReadStep(s, d, frames).conns[c])
  {
    DecideConns(SetConn(s, d, s.conns[d].(parsed := s.conns[d].parsed + frames)).(root := ReadRoot(s.root, d, frames)),
                false, c);
  }

  lemma TakeConns(s: State, u: nat, c: nat)
    requires Wired(s) && u < |s.users| && c < |s.conns|
    ensures c < |TakeEvent(s, u).conns| && SameConn(s.conns[c], TakeEvent(s, u).conns[c])
  {
    if s.root.events != [] {
      DecideConns(SetUser(s, u, Ready).(root := TakeRoot(s.root)), true, c);
    }
  }

  lemma ExecConns(s: State, w: nat, c: nat)
    requires Enabled(s, Exec(w)) && c < |s.conns|
    ensures c < |Apply(s, Exec(w)).conns| && SameConn(s.conns[c], Apply(s, Exec(w)).conns[c])
  {
    var t := s.workers[w].cur[0];
    assert SameConn(s.conns[t.c], Execute(s.conns[t.c], t));
  }

  lemma AttachConns(s: State, d: nat, c: nat)
    requires Enabled(s, AttachConn(d)) && c < |s.conns|
    ensures c < |Apply(s, AttachConn(d)).conns| && SameConn(s.conns[c], Apply(s, AttachConn(d)).conns[c])
  {
  }

  lemma CloseConns(s: State, d: nat, c: nat)
    requires Enabled(s, Close(d)) && c < |s.conns| && c != d
    ensures c < |Apply(s, Close(d)).conns| && SameConn(s.conns[c], Apply(s, Close(d)).conns[c])
  {
  }

  lemma QueueConns(s: State, step: Step, c: nat)
    requires Enabled(s, step) && c < |s.conns| && (step.Swap? || step.Pop? || step.ScheduleHalt? || step.AddConn?)
    ensures c < |Apply(s, step).conns| && SameConn(s.conns[c], Apply(s, step).conns[c])
  {
  }

  lemma LoopConns(s: State, step: Step, c: nat)
    requires Enabled(s, step) && c < |s.conns| && (WorkerStep(step) || step.AddConn?) && step != Close(c)
    ensures c < |Apply(s, step).conns| && SameConn(s.conns[c], Apply(s, step).conns[c])
  {
    match step {
      case Exec(w) => ExecConns(s, w, c);
      case AttachConn(d) => AttachConns(s, d, c);
      case Close(d) => CloseConns(s, d, c);
      case Swap(_) => QueueConns(s, step, c);
      case Pop(_) => QueueConns(s, step, c);
      case ScheduleHalt(_) => QueueConns(s, step, c);
      case AddConn(_, _) => QueueConns(s, step, c);
    }
  }

  lemma HandlerConns(s: State, step: Step, c: nat)
    requires Enabled(s, step) && c < |s.conns| && WriteStep(step) && !TouchesConn(s, step, c)
    ensures c < |Apply(s, step).conns| && SameConn(s.conns[c], Apply(s, step).conns[c])
  {
  }

  lemma UserConns(s: State, step: Step, c: nat)
    requires Enabled(s, step) && c < |s.conns| && !TakeStep(s, step) && !TouchesConn(s, step, c)
    requires !WorkerStep(step) && !WriteStep(step) && !step.AddConn? && !step.Read?
    ensures c < |Apply(s, step).conns| && SameConn(s.conns[c], Apply(s, step).conns[c])
  {
  }

  /** A connection's list and flags change only under its lock. */
  lemma ConnGuarded(s: State, step: Step, c: nat)
    requires Enabled(s, step) && c < |s.conns|
    ensures c < |Apply(s, step).conns|
    ensures !SameConn(s.conns[c], Apply(s, step).conns[c]) ==> Takes(Locks.StepOps(s, step), Locks.ConnLock(c))
  {
    TakesExactly(s, step, Locks.ConnLock(c));
    if TouchesConn(s, step, c) {
      ConnStays(s, step, c);
    } else if WorkerStep(step) || step.AddConn? {
      LoopConns(s, step, c);
    } else if WriteStep(step) {
      HandlerConns(s, step, c);
    } else if step.Read? {
      ReadConns(s, step.c, step.frames, c);
    } else if TakeStep(s, step) {
      TakeConns(s, step.u, c);
    } else {
      UserConns(s, step, c);
    }
  }

  lemma ConnStays(s: State, step: Step, c: nat)
    requires Enabled(s, step) && c < |s.conns| && TouchesConn(s, step, c)
    ensures c < |Apply(s, step).conns|
  {
  }

  // ---- the shared queues

  /** Only the shared queue of worker w matters. */
  predicate SameJobs(s: State, t: State, w: nat) {
    w < |s.workers| == |t.workers| && t.workers[w].jobs == s.workers[w].jobs
  }

  lemma ReadJobs(s: State, step: Step, w: nat)
    requires Enabled(s, step) && step.Read? && w < |s.workers| && !Decides(s, step)
    ensures SameJobs(s, Apply(s, step), w)
  {
    ReadRcv(s, step.c, step.frames);
  }

  lemma TakeJobs(s: State, step: Step, w: nat)
    requires Enabled(s, step) && TakeStep(s, step) && w < |s.workers| && !Decides(s, step)
    ensures SameJobs(s, Apply(s, step), w)
  {
    if s.root.events != [] {
      TakeRcv(s, step.u);
    }
  }

  lemma LoopJobs(s: State, step: Step, w: nat)
    requires Enabled(s, step) && w < |s.workers| && (WorkerStep(step) || step.AddConn?) && !TouchesWorker(s, step, w)
    ensures SameJobs(s, Apply(s, step), w)
  {
  }

  lemma HandlerJobs(s: State, step: Step, w: nat)
    requires Enabled(s, step) && w < |s.workers| && WriteStep(step)
    ensures SameJobs(s, Apply(s, step), w)
  {
  }

  lemma UserJobs(s: State, step: Step, w: nat)
    requires Enabled(s, step) && w < |s.workers| && !TakeStep(s, step) && !TouchesWorker(s, step, w)
    requires !WorkerStep(step) && !WriteStep(step) && !step.AddConn? && !step.Read?
    ensures SameJobs(s, Apply(s, step), w)
  {
  }

  /** A worker's shared queue changes only under its lock. */
  lemma WorkerGuarded(s: State, step: Step, w: nat)
    requires Enabled(s, step) && w < |s.workers| == WORKERS
    ensures !SameJobs(s, Apply(s, step), w) ==> Takes(Locks.StepOps(s, step), Locks.WorkerLock(w))
  {
    TakesExactly(s, step, Locks.WorkerLock(w));
    if !TouchesWorker(s, step, w) {
      if WorkerStep(step) || step.AddConn? {
        LoopJobs(s, step, w);
      } else if WriteStep(step) {
        HandlerJobs(s, step, w);
      } else if step.Read? {
        ReadJobs(s, step, w);
      } else if TakeStep(s, step) {
        TakeJobs(s, step, w);
      } else {
        UserJobs(s, step, w);
      }
    }
  }

  lemma {:induction false} WorkersDoNotWait(i: nat)
    ensures forall op :: op in Locks.LockWorkers(i) + Locks.UnlockWorkers(i) ==> op.Acquire? || op.Release?
    decreases WORKERS - i
  {
    if i < WORKERS {
      WorkersDoNotWait(i + 1);
      forall op | op in Locks.LockWorkers(i) + Locks.UnlockWorkers(i)
        ensures op.Acquire? || op.Release?
      {
        assert op in Locks.LockWorkers(i + 1) + Locks.UnlockWorkers(i + 1) || op == Locks.Acquire(Locks.WorkerLock(i))
            || op == Locks.Release(Locks.WorkerLock(i));
      }
    }
  }

  /** What else a step waits for or wakes. */
  predicate RightWaits(s: State, step: Step)
    requires Enabled(s, step)
  {
    var ops, t := Locks.StepOps(s, step), Apply(s, step);
    && (Locks.Outside in ops <==>
          step.ScheduleHalt? || (step.GetEnter? && step.u < |t.users| && t.users[step.u].Polling?))
    && (Locks.CondWait in ops <==> step.SendWait?)
    && (Locks.CondBroadcast in ops <==> step.WriteWake? && s.workers[step.w].hand.cast)
  }

  lemma DecidingWaits(decides: bool)
    ensures forall op :: op in Locks.Locked(Locks.RootLock, Locks.DecisionOps(decides)) ==> op.Acquire? || op.Release?
  {
    WorkersDoNotWait(0);
  }

  lemma GetWaits(s: State, step: Step)
    requires Enabled(s, step) && (step.GetEnter? || step.GetWoken?)
    ensures RightWaits(s, step)
  {
    if s.root.events != [] {
      var r := TakeRoot(s.root);
      DecidingWaits(0 < r.rcvhwm && r.stopRead && r.rcvqsz < r.rcvhwm);
      TakeMoves(s, step.u);
    }
  }

  lemma TakeMoves(s: State, u: nat)
    requires Wired(s) && u < |s.users| && s.root.events != []
    ensures u < |TakeEvent(s, u).users| && TakeEvent(s, u).users[u] == Ready
  {
  }

  lemma ReadWaits(s: State, step: Step)
    requires Enabled(s, step) && step.Read?
    ensures RightWaits(s, step)
  {
    var q := ReadRoot(s.root, step.c, step.frames);
    DecidingWaits(0 < q.rcvhwm < q.rcvqsz);
  }

  lemma AddWaits(s: State, step: Step)
    requires Enabled(s, step) && step.AddConn?
    ensures RightWaits(s, step)
  {
  }

  lemma LoopWaits(s: State, step: Step)
    requires Enabled(s, step) && WorkerStep(step)
    ensures RightWaits(s, step)
  {
  }

  lemma HandlerWaits(s: State, step: Step)
    requires Enabled(s, step) && WriteStep(step)
    ensures RightWaits(s, step)
  {
  }

  lemma UserWaits(s: State, step: Step)
    requires Enabled(s, step) && !WorkerStep(step) && !WriteStep(step)
    requires !step.AddConn? && !step.Read? && !step.GetEnter? && !step.GetWoken?
    ensures RightWaits(s, step)
  {
  }

  /** A reader that goes to wait for the descriptor and whoever joins a worker wait outside all
      locks, a sender waits on the condition, and the handler that found the request for it makes
      the broadcast. */
  lemma WaitsExactly(s: State, step: Step)
    requires Enabled(s, step)
    ensures RightWaits(s, step)
  {
    if step.GetEnter? || step.GetWoken? {
      GetWaits(s, step);
    } else if step.Read? {
      ReadWaits(s, step);
    } else if step.AddConn? {
      AddWaits(s, step);
    } else if WorkerStep(step) {
      LoopWaits(s, step);
    } else if WriteStep(step) {
      HandlerWaits(s, step);
    } else {
      UserWaits(s, step);
    }
  }

  // ---- the sends of a broadcast --------------------------------------------------------------------

  /** Under the root's lock a send takes the same locks but that one. */
  lemma UnsafeExactly(s: State, step: Step, l: Locks.Lock)
    requires Enabled(s, step)
    requires step.SendEnter? || step.SendGate? || step.SendWait? || step.SendInsert? || step.SendCount?
    ensures Takes(Locks.UnsafeOps(s, step), l) <==> l != Locks.RootLock && RightLock(s, step, l)
  {
  }

  /** The broadcast takes the root's lock first, gives it back last, and takes it once; in between
      it takes the locks of its sends. */
  lemma {:induction false} BroadcastTakes(sends: seq<(State, Step)>, l: Locks.Lock)
    requires forall i :: 0 <= i < |sends| ==> Enabled(sends[i].0, sends[i].1)
    ensures Takes(Locks.SendsOps(sends), l) <==> exists i :: 0 <= i < |sends| && Takes(Locks.UnsafeOps(sends[i].0, sends[i].1), l)
  {
    if sends != [] {
      BroadcastTakes(sends[1..], l);
      var first, rest := Locks.UnsafeOps(sends[0].0, sends[0].1), sends[1..];
      if i :| 0 <= i < |rest| && Takes(Locks.UnsafeOps(rest[i].0, rest[i].1), l) {
        assert rest[i] == sends[i + 1];
      }
      if i :| 0 <= i < |sends| && Takes(Locks.UnsafeOps(sends[i].0, sends[i].1), l) {
        assert i == 0 || sends[i] == rest[i - 1];
      }
    }
  }
}
