/** What every step keeps: per worker, and per connection seen together with its worker. */
module Invariant {
  import opened Machine
  import opened TaskLists

  // ---- lost frames ----------------------------------------------------------------

  /** a is what remains of b after deleting some elements. */
  predicate Subseq(a: seq<Frame>, b: seq<Frame>) {
    a == [] || (b != []
      && ((a[|a| - 1] == b[|b| - 1] && Subseq(a[..|a| - 1], b[..|b| - 1])) || Subseq(a, b[..|b| - 1])))
  }

  lemma {:induction false} SubseqFull(a: seq<Frame>, b: seq<Frame>)
    requires Subseq(a, b)
    ensures |a| <= |b| && (|a| == |b| ==> a == b)
  {
    if a != [] {
      if a[|a| - 1] == b[|b| - 1] && Subseq(a[..|a| - 1], b[..|b| - 1]) {
        SubseqFull(a[..|a| - 1], b[..|b| - 1]);
      } else {
        SubseqFull(a, b[..|b| - 1]);
      }
    }
  }

  lemma SubseqGrow(a: seq<Frame>, b: seq<Frame>, f: Frame)
    requires Subseq(a, b)
    ensures Subseq(a, b + [f]) && Subseq(a + [f], b + [f])
  {
    assert (b + [f])[..|b|] == b && (a + [f])[..|a|] == a;
  }

  /** Deleting a stretch leaves a subsequence. */
  lemma {:induction false} SubseqCut(x: seq<Frame>, m: seq<Frame>, y: seq<Frame>, b: seq<Frame>)
    requires Subseq(x + m + y, b)
    ensures Subseq(x + y, b)
    decreases |b|
  {
    var a, b' := x + m + y, b[..if b == [] then 0 else |b| - 1];
    if m == [] {
      assert a == x + y;
    } else if x + y != [] {
      if Subseq(a, b') {
        SubseqCut(x, m, y, b');
      } else if y != [] {
        var y' := y[..|y| - 1];
        assert a[..|a| - 1] == x + m + y' && (x + y)[..|x + y| - 1] == x + y';
        SubseqCut(x, m, y', b');
      } else {
        var m' := m[..|m| - 1];
        assert a[..|a| - 1] == x + m' + y;
        SubseqCut(x, m', y, b');
      }
    }
  }

  // ---- workers --------------------------------------------------------------------

  /** A worker's own bookkeeping: each task item waits at most once; what was scheduled and
      not cancelled is, in order, what was executed, discarded or is still pending; a stopped
      worker executed nothing after the stop task. */
  ghost predicate QueuesOk(me: Worker) {
    && NoDup(me.batch + me.jobs)
    && |me.cur| <= 1 && Halt !in me.cur
    && Kept(me.log) == me.done + me.dropped + me.cur + me.batch + me.jobs
    && (me.hand != Idle || me.halted ==> me.cur == [] && me.batch == [])
    && (if me.halted then me.hand == Idle && me.done != [] && me.done[|me.done| - 1] == Halt
                          && Halt !in me.done[..|me.done| - 1]
        else me.dropped == [] && Halt !in me.done)
    && (me.hand.Writing? ==> me.hand.local.chain != [])
  }

  /** The tasks of a worker concern its own connections, and so does its handler. */
  predicate Known(t: Task, id: nat, conns: seq<Conn>) {
    t.Halt? || (t.c < |conns| && conns[t.c].thr == id)
  }

  ghost predicate Owns(me: Worker, id: nat, conns: seq<Conn>) {
    && (forall t :: t in me.cur ==> Known(t, id, conns))
    && (forall t :: t in me.batch ==> Known(t, id, conns))
    && (forall t :: t in me.jobs ==> Known(t, id, conns))
    && (me.hand != Idle ==> me.hand.c < |conns| && conns[me.hand.c].thr == id
                            && conns[me.hand.c].wio && !conns[me.hand.c].zombie)
  }

  lemma PushOk(me: Worker, t: Task)
    requires QueuesOk(me) && !InQueue(me, t)
    ensures QueuesOk(Push(me, t))
  {
    KeptPush(me.log, t);
    assert me.batch + (me.jobs + [t]) == (me.batch + me.jobs) + [t];
    assert Kept(me.log) + [t] == me.done + me.dropped + me.cur + me.batch + (me.jobs + [t]);
  }

  lemma RemoveKeepsNoDup(p: seq<Task>, q: seq<Task>, t: Task)
    requires NoDup(p + q) && t in q
    ensures NoDup(p + Remove(q, t)) && t !in Remove(q, t)
  {
    var k := RemoveSplits(q, t);
    var all, left := p + q, p + Remove(q, t);
    assert all[|p| + k] == t;
    assert forall i :: 0 <= i < |left| ==> left[i] == all[if i < |p| + k then i else i + 1];
    forall i | 0 <= i < |Remove(q, t)|
      ensures Remove(q, t)[i] != t
    {
      assert Remove(q, t)[i] == all[|p| + if i < k then i else i + 1];
    }
  }

  /** The first occurrence is the only one. */
  lemma NoneBehind(p: seq<Task>, q: seq<Task>, k: nat)
    requires NoDup(p + q) && k < |q|
    ensures q[k] !in q[k + 1..]
  {
    var all, y := p + q, q[k + 1..];
    assert all[|p| + k] == q[k];
    forall i | 0 <= i < |y|
      ensures y[i] != q[k]
    {
      assert y[i] == all[|p| + k + 1 + i];
    }
  }

  /** Cancelling strikes the same task from the schedule as from the queue. */
  lemma StrikeRemoves(log: seq<Entry>, before: seq<Task>, p: seq<Task>, q: seq<Task>, t: Task)
    requires Kept(log) == before + q && NoDup(p + q) && t in q
    ensures Kept(Strike(log, t)) == before + Remove(q, t)
  {
    var k := RemoveSplits(q, t);
    var x, y := q[..k], q[k + 1..];
    NoneBehind(p, q, k);
    assert before + q == (before + x) + [t] + y;
    KeptStrike(log, before + x, t, y);
    assert (before + x) + y == before + (x + y);
  }

  lemma CancelOk(me: Worker, t: Task)
    requires QueuesOk(me)
    ensures QueuesOk(Cancel(me, t))
    ensures forall x :: x in Cancel(me, t).jobs ==> x in me.jobs
  {
    if t in me.jobs {
      RemoveKeepsNoDup(me.batch, me.jobs, t);
      StrikeRemoves(me.log, me.done + me.dropped + me.cur + me.batch, me.batch, me.jobs, t);
      forall x | x in Remove(me.jobs, t)
        ensures x in me.jobs
      {
        RemoveOnly(me.jobs, t, x);
      }
    }
  }

  lemma DecideOk(me: Worker, c: nat, on: bool)
    requires QueuesOk(me)
    ensures QueuesOk(Decide(me, c, on))
    ensures forall x :: x in Decide(me, c, on).jobs ==> x in me.jobs || x == ReadTask(c, on)
  {
    var d, o := ReadTask(c, on), ReadTask(c, !on);
    if InQueue(me, d) {
      CancelOk(me, o);
    } else {
      PushOk(me, d);
      CancelOk(Push(me, d), o);
    }
  }

  lemma SwapOk(me: Worker)
    requires QueuesOk(me) && Free(me)
    ensures QueuesOk(me.(batch := me.jobs, jobs := []))
  {
    assert me.jobs + [] == me.batch + me.jobs;
    assert me.done + me.dropped + me.cur + me.batch + me.jobs == me.done + me.dropped + me.cur + me.jobs + [];
  }

  lemma PopOk(me: Worker)
    requires QueuesOk(me) && !me.halted && me.cur == [] && me.batch != []
    ensures var t, rest := me.batch[0], me.batch[1..];
            QueuesOk(if t == Halt then me.(done := me.done + [Halt], dropped := rest, batch := [], halted := true)
                     else me.(cur := [t], batch := rest))
  {
    var t, rest := me.batch[0], me.batch[1..];
    assert me.batch == [t] + rest;
    var all := me.batch + me.jobs;
    assert forall i :: 0 <= i < |rest + me.jobs| ==> (rest + me.jobs)[i] == all[i + 1];
    assert forall i :: 0 <= i < |[] + me.jobs| ==> ([] + me.jobs)[i] == all[i + |me.batch|];
    assert me.done + me.dropped + me.cur + me.batch + me.jobs == me.done + me.dropped + [t] + rest + me.jobs;
    assert t == Halt ==> me.done + me.dropped + [t] + rest + me.jobs
                         == (me.done + [Halt]) + rest + [] + [] + me.jobs;
    assert (me.done + [Halt])[..|me.done|] == me.done;
  }

  lemma ExecOk(me: Worker)
    requires QueuesOk(me) && |me.cur| == 1
    ensures QueuesOk(me.(cur := [], done := me.done + [me.cur[0]]))
  {
    assert me.dropped == [] && me.cur == [me.cur[0]];
    assert me.done + me.dropped + me.cur + me.batch + me.jobs
        == (me.done + [me.cur[0]]) + me.dropped + [] + me.batch + me.jobs;
  }
}
