/** The send count against the frames it is meant to count. */
module Counts {
  import opened Machine
  import opened Flow

  function Sum<T>(f: T -> nat, s: seq<T>): nat {
    if s == [] then 0 else f(s[0]) + Sum(f, s[1..])
  }

  lemma {:induction false} SumUpdate<T>(f: T -> nat, s: seq<T>, i: nat, x: T)
    requires i < |s|
    ensures Sum(f, s[i := x]) + f(s[i]) == Sum(f, s) + f(x)
  {
    if i == 0 {
      assert s[0 := x][1..] == s[1..];
    } else {
      SumUpdate(f, s[1..], i - 1, x);
      assert s[i := x][1..] == s[1..][i - 1 := x];
    }
  }

  lemma {:induction false} SumAppend<T>(f: T -> nat, s: seq<T>, x: T)
    ensures Sum(f, s + [x]) == Sum(f, s) + f(x)
  {
    if s == [] {
      assert s + [x] == [x];
    } else {
      SumAppend(f, s[1..], x);
      assert (s + [x])[0] == s[0] && (s + [x])[1..] == s[1..] + [x];
    }
  }

  lemma {:induction false} SumSame<T>(f: T -> nat, s: seq<T>, t: seq<T>)
    requires |s| == |t| && forall i :: 0 <= i < |s| ==> f(s[i]) == f(t[i])
    ensures Sum(f, s) == Sum(f, t)
  {
    if s != [] {
      SumSame(f, s[1..], t[1..]);
    }
  }

  lemma {:induction false} SumBound<T>(f: T -> nat, s: seq<T>, m: nat)
    requires forall i :: 0 <= i < |s| ==> f(s[i]) <= m
    ensures Sum(f, s) <= |s| * m
  {
    if s != [] {
      SumBound(f, s[1..], m);
    }
  }

  // ---- conservation -------------------------------------------------------------------

  /** Frames a connection still holds, and those that fell out of its lists. */
  function ConnLoad(conn: Conn): nat {
    |conn.ol.chain| + conn.lost
  }

  /** Frames in a handler's private list, and those written but not yet subtracted. */
  function WorkerLoad(w: Worker): nat {
    match w.hand
    case Writing(_, local, removed) => |local.chain| + removed
    case Test(_, removed) => removed
    case Account(_, removed) => removed
    case _ => 0
  }

  /** A sender that has inserted its frame and not yet counted it. */
  function Uncounted(u: User): nat {
    if u.Count? then 1 else 0
  }

  /** The send count, plus what is inserted and not yet counted, is what the connections and
      handlers hold, plus what is written and not yet subtracted, plus what fell out. */
  predicate CountOk(s: State) {
    s.root.sndqsz + Sum(Uncounted, s.users) == Sum(ConnLoad, s.conns) + Sum(WorkerLoad, s.workers)
  }

  lemma LinkLength(l: OutList, added: OutList, last: int)
    ensures |Link(l, added, last).chain| + Unlinked(l, added) == |l.chain| + |added.chain|
  {
  }

  /** A thread that entered fsock_send and has not yet counted its frame. */
  function Past(u: User): nat {
    if u.Gate? || u.ToWait? || u.Blocked? || u.Insert? || u.Count? then 1 else 0
  }

  /** t differs from s in no load. */
  predicate SameLoads(s: State, t: State) {
    && |t.conns| == |s.conns| && |t.workers| == |s.workers| && |t.users| == |s.users|
    && t.root.sndqsz == s.root.sndqsz && t.root.sndhwm == s.root.sndhwm
    && (forall u :: 0 <= u < |s.users| ==> Past(t.users[u]) == Past(s.users[u]))
    && (forall c :: 0 <= c < |s.conns| ==> ConnLoad(t.conns[c]) == ConnLoad(s.conns[c]))
    && (forall w :: 0 <= w < |s.workers| ==> WorkerLoad(t.workers[w]) == WorkerLoad(s.workers[w]))
    && (forall u :: 0 <= u < |s.users| ==> Uncounted(t.users[u]) == Uncounted(s.users[u]))
  }

  lemma CountRest(s: State, t: State)
    requires CountOk(s) && SameLoads(s, t)
    ensures CountOk(t)
  {
    SumSame(ConnLoad, s.conns, t.conns);
    SumSame(WorkerLoad, s.workers, t.workers);
    SumSame(Uncounted, s.users, t.users);
  }

  lemma CountAdd(s: State, thr: nat, incoming: bool)
    requires CountOk(s) && Enabled(s, AddConn(thr, incoming))
    ensures CountOk(Apply(s, AddConn(thr, incoming)))
  {
    var t := Apply(s, AddConn(thr, incoming));
    SumAppend(ConnLoad, s.conns, t.conns[|s.conns|]);
    SumSame(WorkerLoad, s.workers, t.workers);
  }

  lemma CountHand(s: State, w: nat, c: nat, hand: Handler, conn: Conn)
    requires CountOk(s) && w < |s.workers| && c < |s.conns|
    requires ConnLoad(conn) + WorkerLoad(s.workers[w].(hand := hand)) == ConnLoad(s.conns[c]) + WorkerLoad(s.workers[w])
    ensures CountOk(SetConn(SetHand(s, w, hand), c, conn))
  {
    SumUpdate(ConnLoad, s.conns, c, conn);
    SumUpdate(WorkerLoad, s.workers, w, s.workers[w].(hand := hand));
  }

  lemma CountWrite(s: State, step: Step)
    requires CountOk(s) && Enabled(s, step) && (step.WriteTest? || step.WriteSome? || step.WriteAgain?)
    ensures CountOk(Apply(s, step))
  {
    var w := step.w;
    var me, c := s.workers[w], s.workers[w].hand.c;
    if step.WriteSome? {
      CountHand(s, w, c, AfterSome(me, s.conns[c], step.k).0, AfterSome(me, s.conns[c], step.k).1);
    } else if step.WriteAgain? {
      LinkLength(me.hand.local, s.conns[c].ol, me.hand.local.last);
      CountHand(s, w, c, AfterAgain(me, s.conns[c]).0, AfterAgain(me, s.conns[c]).1);
    } else if s.conns[c].ol.chain == [] {
      CountRest(s, Apply(s, step));
    } else {
      CountHand(s, w, c, Writing(c, s.conns[c].ol, me.hand.removed), s.conns[c].(ol := EmptyList));
    }
  }

  lemma CountAccount(s: State, w: nat)
    requires CountOk(s) && Enabled(s, WriteAccount(w))
    ensures CountOk(Apply(s, WriteAccount(w)))
  {
    var t := Apply(s, WriteAccount(w));
    SumUpdate(WorkerLoad, s.workers, w, t.workers[w]);
  }

  lemma CountInserted(s: State, u: nat, c: nat, f: Frame)
    requires CountOk(s) && Wired(s) && u < |s.users| && c < |s.conns| && s.users[u].Insert?
    ensures CountOk(InsertStep(s, u, c, f))
  {
    var conn, w := s.conns[c], s.conns[c].thr;
    LinkLength(conn.ol, OutList([f], 0), 0);
    SumUpdate(ConnLoad, s.conns, c, InsertedConn(conn, f));
    SumUpdate(Uncounted, s.users, u, Count);
    SumUpdate(WorkerLoad, s.workers, w, Push(s.workers[w], StartWrite(c)));
  }

  lemma CountInsert(s: State, u: nat)
    requires CountOk(s) && Enabled(s, SendInsert(u))
    ensures CountOk(Apply(s, SendInsert(u)))
  {
    CountInserted(s, u, s.users[u].c, s.users[u].f);
  }

  lemma CountCount(s: State, u: nat)
    requires CountOk(s) && Enabled(s, SendCount(u))
    ensures CountOk(Apply(s, SendCount(u)))
  {
    SumUpdate(Uncounted, s.users, u, Ready);
  }

  lemma DecideLoads(s: State, t: State, on: bool)
    requires SameLoads(s, t) && Wired(t)
    ensures SameLoads(s, DecideAll(t, on))
  {
    BulkFrame(Flagged(t, on), on, |t.conns|);
    forall c | 0 <= c < |t.conns|
      ensures ConnLoad(DecideAll(t, on).conns[c]) == ConnLoad(t.conns[c])
    {
      DecideLoad(t, on, c);
    }
  }

  lemma DecideLoad(s: State, on: bool, c: nat)
    requires Wired(s) && c < |s.conns|
    ensures ConnLoad(DecideAll(s, on).conns[c]) == ConnLoad(s.conns[c])
  {
    BulkConns(Flagged(s, on), on, |s.conns|, c);
  }

  lemma TakeLoads(s: State, u: nat)
    requires Wired(s) && u < |s.users| && Past(s.users[u]) == 0
    ensures SameLoads(s, TakeEvent(s, u))
  {
    if s.root.events != [] {
      DecideLoads(s, SetUser(s, u, Ready).(root := TakeRoot(s.root)), true);
    }
  }

  lemma ReadLoads(s: State, c: nat, frames: seq<Frame>)
    requires Wired(s) && c < |s.conns|
    ensures SameLoads(s, ReadStep(s, c, frames))
  {
    var t := SetConn(s, c, s.conns[c].(parsed := s.conns[c].parsed + frames)).(root := ReadRoot(s.root, c, frames));
    DecideLoads(s, t, false);
  }

  lemma WorkerLoads(s: State, step: Step)
    requires Enabled(s, step) && WorkerStep(step)
    ensures SameLoads(s, Apply(s, step))
  {
  }

  lemma QuietLoads(s: State, step: Step)
    requires Enabled(s, step) && (step.WriteEnter? || step.WriteWake? || step.WriteStop?)
    ensures SameLoads(s, Apply(s, step))
  {
  }

  lemma UserLoads(s: State, step: Step)
    requires Enabled(s, step) && !TakeStep(s, step)
    requires step.SendGate? || step.SendWait? || step.GetEnter? || step.GetTimeout? || step.GetInterrupt? || step.GetPoll? || step.GetUnsignal?
             || (step.SendEnter? && Apply(s, step) == s)
    ensures SameLoads(s, Apply(s, step))
  {
  }

  /** Every step but these leaves all loads alone. */
  predicate LoadStep(s: State, step: Step)
    requires Enabled(s, step)
  {
    step.AddConn? || step.WriteTest? || step.WriteSome? || step.WriteAgain? || step.WriteAccount?
    || step.SendInsert? || step.SendCount? || (step.SendEnter? && Apply(s, step) != s)
  }

  lemma OtherLoads(s: State, step: Step)
    requires Enabled(s, step) && !LoadStep(s, step)
    ensures SameLoads(s, Apply(s, step))
  {
    if WorkerStep(step) {
      WorkerLoads(s, step);
    } else if step.WriteEnter? || step.WriteWake? || step.WriteStop? {
      QuietLoads(s, step);
    } else if TakeStep(s, step) {
      TakeLoads(s, step.u);
    } else if step.Read? {
      ReadLoads(s, step.c, step.frames);
    } else {
      UserLoads(s, step);
    }
  }

  lemma CountStep(s: State, step: Step)
    requires CountOk(s) && Enabled(s, step)
    ensures CountOk(Apply(s, step))
  {
    if !LoadStep(s, step) {
      OtherLoads(s, step);
      CountRest(s, Apply(s, step));
    } else if step.AddConn? {
      CountAdd(s, step.thr, step.incoming);
    } else if step.WriteAccount? {
      CountAccount(s, step.w);
    } else if step.SendInsert? {
      CountInsert(s, step.u);
    } else if step.SendCount? {
      CountCount(s, step.u);
    } else if step.SendEnter? {
      SumUpdate(Uncounted, s.users, step.u, Gate(step.to, step.f, step.dontwait));
    } else {
      CountWrite(s, step);
    }
  }

  lemma {:induction false} CountRun(s: State, steps: seq<Step>)
    requires CountOk(s) && Valid(s, steps)
    ensures CountOk(Run(s, steps))
    decreases |steps|
  {
    if steps != [] {
      CountStep(s, steps[0]);
      CountRun(Apply(s, steps[0]), steps[1..]);
    }
  }

  // ---- how far the count can overshoot ---------------------------------------------------

  /** With the mark enabled, n users who never wait overshoot it by at most n - 1. */
  predicate BoundOk(s: State) {
    0 < s.root.sndhwm ==> s.root.sndqsz + Sum(Past, s.users) <= s.root.sndhwm - 1 + |s.users|
  }

  predicate Impatient(step: Step) {
    step.SendEnter? ==> step.dontwait
  }

  lemma PastWrite(s: State, step: Step)
    requires Enabled(s, step)
    requires step.AddConn? || step.WriteTest? || step.WriteSome? || step.WriteAgain? || step.WriteAccount?
    ensures var t := Apply(s, step);
            t.users == s.users && t.root.sndqsz <= s.root.sndqsz && t.root.sndhwm == s.root.sndhwm
  {
  }

  lemma PastSend(s: State, step: Step)
    requires Enabled(s, step) && SendOk(s.root) && BoundOk(s) && Impatient(step)
    requires step.SendInsert? || step.SendCount? || step.SendEnter?
    ensures BoundOk(Apply(s, step))
  {
    var u, t := step.u, Apply(s, step);
    if t.users != s.users {
      assert t.users == s.users[u := t.users[u]];
      SumUpdate(Past, s.users, u, t.users[u]);
      SumBound(Past, t.users, 1);
    }
  }

  lemma BoundStep(s: State, step: Step)
    requires Enabled(s, step) && SendOk(s.root) && BoundOk(s) && Impatient(step)
    ensures BoundOk(Apply(s, step))
  {
    if !LoadStep(s, step) {
      OtherLoads(s, step);
      SumSame(Past, s.users, Apply(s, step).users);
    } else if step.SendInsert? || step.SendCount? || step.SendEnter? {
      PastSend(s, step);
    } else {
      PastWrite(s, step);
    }
  }
}
