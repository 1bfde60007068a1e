/** Any number of threads doing any work of the library, each lock held by one at a time: no
    reachable state has a cycle of waiting threads, and every thread can be brought to the end
    of its work, or to the condition wait, without new work being started. */
module Deadlock {
  import opened Counts
  import opened Locks

  /** `Asleep` in the condition wait; `Rouses` after a broadcast, having to lock the root again. */
  datatype Mode = Runs | Asleep | Rouses

  datatype Thread = Thread(held: set<Lock>, todo: seq<Op>, mode: Mode)

  datatype Move = Begin(t: nat, work: Work) | Do(t: nat) | Regain(t: nat)

  predicate Free(ts: seq<Thread>, l: Lock) {
    forall t :: 0 <= t < |ts| ==> l !in ts[t].held
  }

  ghost predicate Can(ts: seq<Thread>, m: Move) {
    && m.t < |ts|
    && var me := ts[m.t];
       match m
       case Begin(_, work) => me.mode == Runs && me.todo == [] && Possible(work)
       case Do(_) => me.mode == Runs && me.todo != [] && (me.todo[0].Acquire? ==> Free(ts, me.todo[0].l))
       case Regain(_) => me.mode == Rouses && Free(ts, RootLock)
  }

  function Roused(ts: seq<Thread>): (r: seq<Thread>)
    ensures |r| == |ts|
    ensures forall t :: 0 <= t < |ts| ==> r[t] == if ts[t].mode == Asleep then ts[t].(mode := Rouses) else ts[t]
  {
    seq(|ts|, t requires 0 <= t < |ts| => if ts[t].mode == Asleep then ts[t].(mode := Rouses) else ts[t])
  }

  function After(me: Thread, op: Op): Thread
    requires me.todo != []
  {
    var rest := me.(todo := me.todo[1..]);
    match op
    case Acquire(l) => rest.(held := me.held + {l})
    case Release(l) => rest.(held := me.held - {l})
    case CondWait => rest.(held := me.held - {RootLock}, mode := Asleep)
    case _ => rest
  }

  ghost function Next(ts: seq<Thread>, m: Move): (ts': seq<Thread>)
    requires Can(ts, m)
    ensures |ts'| == |ts|
  {
    var me := ts[m.t];
    match m
    case Begin(t, work) => ts[t := me.(todo := WorkOps(work))]
    case Do(t) =>
      var u := ts[t := After(me, me.todo[0])];
      if me.todo[0].CondBroadcast? then Roused(u) else u
    case Regain(t) => ts[t := me.(held := me.held + {RootLock}, mode := Runs)]
  }

  ghost predicate Possibly(ts: seq<Thread>, moves: seq<Move>)
    decreases |moves|
  {
    moves == [] || (Can(ts, moves[0]) && Possibly(Next(ts, moves[0]), moves[1..]))
  }

  ghost function Reach(ts: seq<Thread>, moves: seq<Move>): (r: seq<Thread>)
    requires Possibly(ts, moves)
    ensures |r| == |ts|
    decreases |moves|
  {
    if moves == [] then ts else Reach(Next(ts, moves[0]), moves[1..])
  }

  function Start(n: nat): seq<Thread> {
    seq(n, _ => Thread({}, [], Runs))
  }

  // ---- what every state keeps -----------------------------------------------------------------

  /** A thread stands somewhere in disciplined work. */
  ghost predicate InOrder(me: Thread) {
    if me.mode == Runs then Disciplined(me.held, me.todo, {})
    else me.held == {} && Disciplined({RootLock}, me.todo, {})
  }

  predicate Exclusive(ts: seq<Thread>) {
    forall t, u :: 0 <= t < u < |ts| ==> ts[t].held !! ts[u].held
  }

  ghost predicate Safe(ts: seq<Thread>) {
    Exclusive(ts) && forall t :: 0 <= t < |ts| ==> InOrder(ts[t])
  }

  lemma DoKeepsOrder(me: Thread)
    requires InOrder(me) && me.mode == Runs && me.todo != []
    ensures InOrder(After(me, me.todo[0]))
  {
    if me.todo[0].CondWait? {
      assert me.held - {RootLock} == {};
    }
  }

  lemma SafeStep(ts: seq<Thread>, m: Move)
    requires Safe(ts) && Can(ts, m)
    ensures Safe(Next(ts, m))
  {
    match m {
      case Begin(_, work) => WorkOk(work);
      case Do(t) => DoKeepsOrder(ts[t]);
      case Regain(_) => assert {} + {RootLock} == {RootLock};
    }
  }

  lemma {:induction false} SafeRun(ts: seq<Thread>, moves: seq<Move>)
    requires Safe(ts) && Possibly(ts, moves)
    ensures Safe(Reach(ts, moves))
    decreases |moves|
  {
    if moves != [] {
      SafeStep(ts, moves[0]);
      SafeRun(Next(ts, moves[0]), moves[1..]);
    }
  }

  // ---- waiting ----------------------------------------------------------------------------------

  predicate Wants(me: Thread, l: Lock) {
    (me.mode == Runs && me.todo != [] && me.todo[0] == Acquire(l)) || (me.mode == Rouses && l == RootLock)
  }

  /** Thread t waits for a lock that thread u holds. */
  ghost predicate WaitsFor(ts: seq<Thread>, t: nat, u: nat) {
    t < |ts| && u < |ts| && exists l :: Wants(ts[t], l) && l in ts[u].held
  }

  /** What a thread wants is above whatever it holds. */
  lemma WantsAbove(me: Thread, l: Lock, h: Lock)
    requires InOrder(me) && Wants(me, l) && h in me.held
    ensures Rank(h) < Rank(l)
  {
  }

  /** Following the waits climbs: the last of a chain wants something above what the first does. */
  lemma {:induction false} ChainClimbs(ts: seq<Thread>, chain: seq<nat>, first: Lock, last: Lock)
    requires Safe(ts) && 2 <= |chain| && forall i :: 0 <= i < |chain| - 1 ==> WaitsFor(ts, chain[i], chain[i + 1])
    requires chain[0] < |ts| && chain[|chain| - 1] < |ts|
    requires Wants(ts[chain[0]], first) && Wants(ts[chain[|chain| - 1]], last)
    ensures Rank(first) < Rank(last)
    decreases |chain|
  {
    assert WaitsFor(ts, chain[0], chain[1]);
    if |chain| == 2 {
      WantsAbove(ts[chain[1]], last, first);
    } else {
      assert WaitsFor(ts, chain[1], chain[2]);
      var mid :| Wants(ts[chain[1]], mid) && mid in ts[chain[2]].held;
      WantsAbove(ts[chain[1]], mid, first);
      var rest := chain[1..];
      forall i | 0 <= i < |rest| - 1
        ensures WaitsFor(ts, rest[i], rest[i + 1])
      {
        assert rest[i] == chain[i + 1] && rest[i + 1] == chain[i + 2];
      }
      ChainClimbs(ts, rest, mid, last);
    }
  }

  /** No cycle of waiting threads, in any reachable state. */
  lemma NoWaitCycle(n: nat, moves: seq<Move>, chain: seq<nat>)
    requires Possibly(Start(n), moves) && chain != []
    ensures var ts := Reach(Start(n), moves);
            !((forall i :: 0 <= i < |chain| - 1 ==> WaitsFor(ts, chain[i], chain[i + 1]))
              && WaitsFor(ts, chain[|chain| - 1], chain[0]))
  {
    SafeRun(Start(n), moves);
    var ts := Reach(Start(n), moves);
    if (forall i :: 0 <= i < |chain| - 1 ==> WaitsFor(ts, chain[i], chain[i + 1]))
      && WaitsFor(ts, chain[|chain| - 1], chain[0]) {
      var l :| Wants(ts[chain[|chain| - 1]], l) && l in ts[chain[0]].held;
      if |chain| == 1 {
        WantsAbove(ts[chain[0]], l, l);
      } else {
        assert WaitsFor(ts, chain[0], chain[1]);
        var first :| Wants(ts[chain[0]], first) && first in ts[chain[1]].held;
        WantsAbove(ts[chain[0]], first, l);
        ChainClimbs(ts, chain, first, l);
      }
    }
  }

  /** Whoever waits for the descriptor or for a thread to end holds no lock, and whoever enters
      the condition wait holds just the root's, in any reachable state. */
  lemma HeldWhileWaiting(n: nat, moves: seq<Move>, t: nat)
    requires Possibly(Start(n), moves) && t < n
    ensures var me := Reach(Start(n), moves)[t];
            && (me.mode == Runs && me.todo != [] && me.todo[0].Outside? ==> me.held == {})
            && (me.mode == Runs && me.todo != [] && me.todo[0].CondWait? ==> me.held == {RootLock})
            && (me.mode == Runs && me.todo == [] ==> me.held == {})
            && (me.mode != Runs ==> me.held == {})
  {
    SafeRun(Start(n), moves);
    assert InOrder(Reach(Start(n), moves)[t]);
  }

  // ---- that the threads do their work -----------------------------------------------------------

  /** The operations that thread t carries out in the course of these moves. */
  ghost function Did(ts: seq<Thread>, moves: seq<Move>, t: nat): seq<Op>
    requires Possibly(ts, moves) && t < |ts|
    decreases |moves|
  {
    if moves == [] then []
    else (if moves[0] == Do(t) then [ts[t].todo[0]] else []) + Did(Next(ts, moves[0]), moves[1..], t)
  }

  /** The operations of the work it begins. */
  ghost function Undertaken(moves: seq<Move>, t: nat): seq<Op> {
    if moves == [] then []
    else
      (if moves[0].Begin? && moves[0].t == t && Possible(moves[0].work) then WorkOps(moves[0].work) else [])
      + Undertaken(moves[1..], t)
  }

  lemma OneMove(ts: seq<Thread>, m: Move, t: nat)
    requires Can(ts, m) && t < |ts|
    ensures ts[t].todo + (if m.Begin? && m.t == t && Possible(m.work) then WorkOps(m.work) else [])
         == (if m == Do(t) then [ts[t].todo[0]] else []) + Next(ts, m)[t].todo
  {
  }

  /** Each thread carries out the operations of the work it began, all and in order, up to where it
      stands. */
  lemma {:induction false} WorkIsDone(ts: seq<Thread>, moves: seq<Move>, t: nat)
    requires Possibly(ts, moves) && t < |ts|
    ensures ts[t].todo + Undertaken(moves, t) == Did(ts, moves, t) + Reach(ts, moves)[t].todo
    decreases |moves|
  {
    if moves != [] {
      var m, u, rest := moves[0], Next(ts, moves[0]), moves[1..];
      var begun := if m.Begin? && m.t == t && Possible(m.work) then WorkOps(m.work) else [];
      var done := if m == Do(t) then [ts[t].todo[0]] else [];
      OneMove(ts, m, t);
      WorkIsDone(u, rest, t);
      Joined(ts[t].todo, begun, Undertaken(rest, t), done, u[t].todo, Did(u, rest, t), Reach(u, rest)[t].todo);
    }
  }

  lemma Joined(todo: seq<Op>, begun: seq<Op>, later: seq<Op>, done: seq<Op>, left: seq<Op>, did: seq<Op>, end: seq<Op>)
    requires todo + begun == done + left && left + later == did + end
    ensures todo + (begun + later) == (done + did) + end
  {
    assert todo + (begun + later) == (todo + begun) + later == done + (left + later) == (done + did) + end;
  }

  /** Nothing left to do but new work, or asleep. */
  predicate Settled(me: Thread) {
    me.mode == Asleep || (me.mode == Runs && me.todo == [])
  }

  /** A thread that is through can begin anything. */
  lemma CanBegin(n: nat, moves: seq<Move>, t: nat, work: Work)
    requires Possibly(Start(n), moves) && t < n && Possible(work)
    requires Settled(Reach(Start(n), moves)[t]) && Reach(Start(n), moves)[t].mode != Asleep
    ensures Can(Reach(Start(n), moves), Begin(t, work))
  {
  }

  /** A mutex that is free can be taken, and one that is held cannot: not by its holder either. */
  lemma CanAcquire(ts: seq<Thread>, t: nat, l: Lock)
    requires t < |ts| && ts[t].mode == Runs && ts[t].todo != [] && ts[t].todo[0] == Acquire(l)
    ensures Can(ts, Do(t)) <==> forall u :: 0 <= u < |ts| ==> l !in ts[u].held
    ensures Can(ts, Do(t)) ==> l in Next(ts, Do(t))[t].held
  {
  }

  /** The condition wait lets go of the root's lock and puts the thread to sleep. */
  lemma WaitSleeps(ts: seq<Thread>, t: nat)
    requires Can(ts, Do(t)) && ts[t].todo[0].CondWait?
    ensures Next(ts, Do(t))[t].mode == Asleep && RootLock !in Next(ts, Do(t))[t].held
  {
  }

  ghost predicate CastFree(ts: seq<Thread>, moves: seq<Move>)
    requires Possibly(ts, moves)
    decreases |moves|
  {
    moves == []
    || (!(moves[0].Do? && ts[moves[0].t].todo[0].CondBroadcast?) && CastFree(Next(ts, moves[0]), moves[1..]))
  }

  /** It sleeps until somebody makes the broadcast. */
  lemma {:induction false} SleepsUntilCast(ts: seq<Thread>, moves: seq<Move>, t: nat)
    requires Possibly(ts, moves) && CastFree(ts, moves) && t < |ts| && ts[t].mode == Asleep
    ensures Reach(ts, moves)[t] == ts[t]
    decreases |moves|
  {
    if moves != [] {
      SleepsUntilCast(Next(ts, moves[0]), moves[1..], t);
    }
  }

  /** The broadcast wakes every sleeper; each goes on only with the root's lock again. */
  lemma CastWakes(ts: seq<Thread>, u: nat, t: nat)
    requires Can(ts, Do(u)) && ts[u].todo[0].CondBroadcast? && t < |ts| && ts[t].mode == Asleep
    ensures Next(ts, Do(u))[t].mode == Rouses
    ensures forall m :: Can(Next(ts, Do(u)), m) && m.t == t ==>
              m == Regain(t) && RootLock in Next(Next(ts, Do(u)), m)[t].held
  {
  }

  // ---- progress -----------------------------------------------------------------------------------

  /** The move that takes an unsettled thread on. */
  function Onward(me: Thread, t: nat): Move {
    if me.mode == Rouses then Regain(t) else Do(t)
  }

  /** How high a thread has climbed. */
  function WantedRank(me: Thread): nat {
    if me.mode == Rouses then Rank(RootLock)
    else if me.mode == Runs && me.todo != [] && me.todo[0].Acquire? then Rank(me.todo[0].l)
    else 0
  }

  /** No lock above this one is held. */
  predicate Top(ts: seq<Thread>, top: nat) {
    forall t, l :: 0 <= t < |ts| && l in ts[t].held ==> Rank(l) <= top
  }

  lemma {:induction false} TopOfSet(held: set<Lock>) returns (top: nat)
    ensures forall l :: l in held ==> Rank(l) <= top
  {
    top := 0;
    if held != {} {
      var l :| l in held;
      var rest := TopOfSet(held - {l});
      top := if rest < Rank(l) then Rank(l) else rest;
      assert forall k :: k in held ==> k == l || k in held - {l};
    }
  }

  lemma {:induction false} TopExists(ts: seq<Thread>) returns (top: nat)
    ensures Top(ts, top)
  {
    top := 0;
    if ts != [] {
      var n := |ts| - 1;
      var front := TopExists(ts[..n]);
      var last := TopOfSet(ts[n].held);
      top := if front < last then last else front;
      assert forall t :: 0 <= t < n ==> ts[..n][t] == ts[t];
    }
  }

  /** If an unsettled thread cannot move, one can that holds a lock. */
  lemma {:induction false} SomeoneMoves(ts: seq<Thread>, t: nat, top: nat) returns (u: nat)
    requires Safe(ts) && t < |ts| && !Settled(ts[t]) && Top(ts, top)
    ensures u < |ts| && !Settled(ts[u]) && Can(ts, Onward(ts[u], u)) && (u == t || ts[u].held != {})
    decreases top - WantedRank(ts[t])
  {
    u := t;
    if !Can(ts, Onward(ts[t], t)) {
      var l := if ts[t].mode == Rouses then RootLock else ts[t].todo[0].l;
      assert Wants(ts[t], l) && !Free(ts, l) && WantedRank(ts[t]) == Rank(l);
      u :| 0 <= u < |ts| && l in ts[u].held;
      assert InOrder(ts[u]) && !Settled(ts[u]);
      if !Can(ts, Onward(ts[u], u)) {
        WantsAbove(ts[u], ts[u].todo[0].l, l);
        u := SomeoneMoves(ts, u, top);
      }
    }
  }

  function Left(me: Thread): nat {
    |me.todo|
  }

  function Rousing(me: Thread): nat {
    if me.mode == Rouses then 1 else 0
  }

  /** Every move of an unsettled thread brings the end nearer. */
  lemma NearerTheEnd(ts: seq<Thread>, t: nat)
    requires t < |ts| && !Settled(ts[t]) && Can(ts, Onward(ts[t], t))
    ensures var ts' := Next(ts, Onward(ts[t], t));
            Sum(Left, ts') < Sum(Left, ts) || (Sum(Left, ts') == Sum(Left, ts) && Sum(Rousing, ts') < Sum(Rousing, ts))
  {
    if ts[t].mode == Rouses {
      var me := ts[t].(held := ts[t].held + {RootLock}, mode := Runs);
      SumUpdate(Left, ts, t, me);
      SumUpdate(Rousing, ts, t, me);
    } else {
      LessLeft(ts, t);
    }
  }

  lemma LessLeft(ts: seq<Thread>, t: nat)
    requires t < |ts| && Can(ts, Do(t))
    ensures Sum(Left, Next(ts, Do(t))) < Sum(Left, ts)
  {
    var me := After(ts[t], ts[t].todo[0]);
    var u := ts[t := me];
    assert Left(me) + 1 == Left(ts[t]);
    SumUpdate(Left, ts, t, me);
    RousedLeft(u);
    assert Next(ts, Do(t)) == u || Next(ts, Do(t)) == Roused(u);
  }

  lemma RousedLeft(ts: seq<Thread>)
    ensures Sum(Left, Roused(ts)) == Sum(Left, ts)
  {
    SumSame(Left, ts, Roused(ts));
  }

  /** Without new work the threads can always finish: all of them, or all but those asleep,
      and then no lock is held. */
  lemma {:induction false} CanFinish(ts: seq<Thread>) returns (moves: seq<Move>)
    requires Safe(ts)
    ensures Possibly(ts, moves) && forall i :: 0 <= i < |moves| ==> !moves[i].Begin?
    ensures forall t :: 0 <= t < |ts| ==> Settled(Reach(ts, moves)[t]) && Reach(ts, moves)[t].held == {}
    decreases Sum(Left, ts), Sum(Rousing, ts)
  {
    moves := [];
    if t :| 0 <= t < |ts| && !Settled(ts[t]) {
      var top := TopExists(ts);
      var u := SomeoneMoves(ts, t, top);
      var m := Onward(ts[u], u);
      SafeStep(ts, m);
      NearerTheEnd(ts, u);
      var rest := CanFinish(Next(ts, m));
      moves := [m] + rest;
      assert moves[0] == m && moves[1..] == rest;
    } else {
      assert forall t :: 0 <= t < |ts| ==> InOrder(ts[t]);
    }
  }

  /** No deadlock, in any reachable state: whoever is not through with its work can get there,
      with no thread starting anything new. */
  lemma NoDeadlock(n: nat, moves: seq<Move>) returns (more: seq<Move>)
    requires Possibly(Start(n), moves)
    ensures var ts := Reach(Start(n), moves);
            && Possibly(ts, more) && (forall i :: 0 <= i < |more| ==> !more[i].Begin?)
            && forall t :: 0 <= t < |ts| ==> Settled(Reach(ts, more)[t]) && Reach(ts, more)[t].held == {}
  {
    SafeRun(Start(n), moves);
    more := CanFinish(Reach(Start(n), moves));
  }
}
