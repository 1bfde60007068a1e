/** What every step keeps for one connection, seen together with its worker. */
module Connections {
  import opened Machine
  import opened TaskLists
  import opened Invariant

  /** The private list of the write handler while it works on connection c. */
  function Local(w: Worker, c: nat): OutList {
    if w.hand.Writing? && w.hand.c == c then w.hand.local else EmptyList
  }

  /** A connection with what its worker holds for it: its read tasks being executed (cu), in
      the private batch (b) and in the shared queue (j), the number of its pending write
      tasks, the handler's private list, and whether the worker still runs. */
  datatype View = View(conn: Conn, cu: seq<Task>, b: seq<Task>, j: seq<Task>, wr: nat, local: OutList, live: bool)

  function Sees(conn: Conn, w: Worker, c: nat): View {
    View(conn, Sel(w.cur, Reading, c), Sel(w.batch, Reading, c), Sel(w.jobs, Reading, c),
         |Sel(w.cur, Writes, c)| + |Sel(w.batch, Writes, c)| + |Sel(w.jobs, Writes, c)|,
         Local(w, c), !w.halted)
  }

  // ---- read decisions -------------------------------------------------------------

  predicate ReadTaskOf(t: Task, c: nat) {
    t == Attach(c) || t == StartRead(c) || t == StopRead(c)
  }

  /** At most one task of the pair in one queue, perhaps with the attach task. */
  predicate Shaped(q: seq<Task>, c: nat) {
    && |q| <= 2
    && (forall i :: 0 <= i < |q| ==> ReadTaskOf(q[i], c))
    && (|q| == 2 ==> (q[0] == Attach(c)) != (q[1] == Attach(c)))
  }

  /** The attach task does not stand behind the stop task. */
  predicate Upright(q: seq<Task>, c: nat) {
    |q| == 2 && q[1] == Attach(c) ==> q[0] == StartRead(c)
  }

  /** What executing a read task makes of the watcher. */
  predicate TurnsOn(t: Task) {
    !t.StopRead?
  }

  /** Last decision wins: the last pending read task is the latest decision; with none pending
      and the attach task scheduled, the watcher is what was decided. */
  predicate InForce(v: View, c: nat) {
    && Upright(v.b, c) && Upright(v.j, c)
    && (if v.j != [] then TurnsOn(v.j[|v.j| - 1]) == v.conn.verdict
        else if v.b != [] then TurnsOn(v.b[|v.b| - 1]) == v.conn.verdict
        else if v.cu != [] then TurnsOn(v.cu[0]) == v.conn.verdict
        else v.conn.starting || v.conn.rio == v.conn.verdict)
  }

  /** The attach task is not pending before it was scheduled. */
  predicate Unscheduled(v: View, c: nat) {
    v.conn.starting ==> Attach(c) !in v.cu && Attach(c) !in v.b && Attach(c) !in v.j
  }

  predicate ReadOk(v: View, c: nat) {
    && Shaped(v.cu, c) && Shaped(v.b, c) && Shaped(v.j, c) && |v.cu| <= 1
    && (forall t :: t in v.b ==> t !in v.j)
    && (Attach(c) in v.cu ==> Attach(c) !in v.b && Attach(c) !in v.j)
    && (v.conn.starting ==> !v.conn.crossed)
    && (!v.conn.zombie && !v.conn.crossed ==> InForce(v, c))
  }

  // ---- the write token ------------------------------------------------------------

  /** How many hold the token: pending write tasks, and the active write watcher (a running
      handler is always under an active watcher). */
  function Holders(v: View): nat {
    v.wr + if v.conn.wio then 1 else 0
  }

  /** `writing` is held by exactly one of them, unless the attach task took the watcher away;
      then by none, for good. A closed connection may have dropped the watcher, too. */
  predicate TokenOk(v: View) {
    && Holders(v) <= (if v.conn.writing then 1 else 0)
    && (v.conn.cut ==> v.conn.writing && Holders(v) == 0)
    && (v.live && !v.conn.zombie && !v.conn.cut ==> Holders(v) == if v.conn.writing then 1 else 0)
  }

  // ---- outbound order ---------------------------------------------------------------

  /** Frames that can still be or were delivered: written, then the handler's list, then the
      connection's. */
  function InTransit(v: View): seq<Frame> {
    v.conn.written + v.local.chain + v.conn.ol.chain
  }

  /** They are what was sent, in order, without the frames that fell out of the lists. */
  predicate FifoOk(v: View) {
    Subseq(InTransit(v), v.conn.sent) && |InTransit(v)| + v.conn.lost == |v.conn.sent|
  }

  predicate ConnOk(v: View, c: nat) {
    Unscheduled(v, c) && (v.live ==> ReadOk(v, c)) && TokenOk(v) && FifoOk(v)
  }

  // ---- how the steps change a view ------------------------------------------------

  /** A read decision reaches the pair of tasks of one connection. */
  function Decided(v: View, c: nat, on: bool): View {
    var q := if ReadTask(c, on) in v.b || ReadTask(c, on) in v.j then v.j else v.j + [ReadTask(c, on)];
    v.(j := Remove(q, ReadTask(c, !on)),
       conn := v.conn.(verdict := on, crossed := v.conn.crossed || Overtakes(v, c, on)))
  }

  /** The stop task in the batch is relied on, and the attach task is behind it. */
  predicate Overtakes(v: View, c: nat, on: bool) {
    !on && !v.conn.starting && !v.conn.zombie && StopRead(c) in v.b && Attach(c) in v.j
  }

  lemma RemoveShort(x: Task, y: Task, z: Task, t: Task)
    ensures Remove([], t) == []
    ensures Remove([x], t) == if x == t then [] else [x]
    ensures Remove([x, y], t) == if x == t then [y] else if y == t then [x] else [x, y]
    ensures Remove([x, y, z], t) ==
            if x == t then [y, z] else if y == t then [x, z] else if z == t then [x, y] else [x, y, z]
  {
    assert [z][1..] == [] && Remove([z], t) == if z == t then [] else [z];
    assert [y, z][1..] == [z] && Remove([y, z], t) == if y == t then [z] else [y] + Remove([z], t);
    assert [x, y, z][1..] == [y, z];
    assert [y][1..] == [] && [x][1..] == [] && [x, y][1..] == [y];
  }

  /** A queue of the pair d, o, perhaps with a, after d was pushed and o removed. */
  lemma PairQueue(j: seq<Task>, d: Task, o: Task, a: Task, waits: bool)
    requires d != o && d != a && o != a && |j| <= 2
    requires forall i :: 0 <= i < |j| ==> j[i] == a || j[i] == d || j[i] == o
    requires (|j| == 2 ==> (j[0] == a) != (j[1] == a)) && (waits ==> d !in j)
    ensures Remove(if waits || d in j then j else j + [d], o)
         == if j == [d, a] then j
            else if a in j then (if waits then [a] else [a, d])
            else if waits then [] else [d]
  {
    if j == [] {
      assert j + [d] == [d];
      RemoveShort(d, d, d, o);
    } else if |j| == 1 {
      assert j == [j[0]] && j + [d] == [j[0], d];
      RemoveShort(j[0], d, d, o);
    } else {
      assert j == [j[0], j[1]] && j + [d] == [j[0], j[1], d];
      RemoveShort(j[0], j[1], d, o);
    }
  }

  /** What the shared queue holds of the pair after a decision: a pending attach task stays, and
      the decision follows it, unless its task waits already. */
  lemma DecidedQueue(v: View, c: nat, on: bool)
    requires ReadOk(v, c)
    ensures var d, a := ReadTask(c, on), Attach(c);
            Decided(v, c, on).j == if v.j == [d, a] then v.j
                                   else if a in v.j then (if d in v.b then [a] else [a, d])
                                   else if d in v.b then [] else [d]
  {
    PairQueue(v.j, ReadTask(c, on), ReadTask(c, !on), Attach(c), ReadTask(c, on) in v.b);
  }

  lemma ShortMember(q: seq<Task>, c: nat, t: Task)
    requires Shaped(q, c) && t in q
    ensures q == [t] || (|q| == 2 && (q[0] == t || q[1] == t))
  {
  }

  lemma DecidedShape(v: View, c: nat, on: bool)
    requires ReadOk(v, c) && Unscheduled(v, c)
    ensures var w := Decided(v, c, on);
            && Shaped(w.j, c) && (forall t :: t in w.b ==> t !in w.j)
            && (Attach(c) in w.cu ==> Attach(c) !in w.j)
            && (v.conn.starting ==> !w.conn.crossed)
  {
    DecidedQueue(v, c, on);
  }

  lemma DecidedInForce(v: View, c: nat, on: bool)
    requires ReadOk(v, c) && Unscheduled(v, c) && !v.conn.zombie && !Decided(v, c, on).conn.crossed
    ensures InForce(Decided(v, c, on), c)
  {
    DecidedQueue(v, c, on);
    if ReadTask(c, on) in v.b {
      ShortMember(v.b, c, ReadTask(c, on));
    } else {
      ShortMember(Decided(v, c, on).j, c, ReadTask(c, on));
    }
  }

  /** A decision becomes the last pending task of its connection, unless the attach task stands
      between it and the task it relies on. */
  lemma DecidedReadOk(v: View, c: nat, on: bool)
    requires ReadOk(v, c) && Unscheduled(v, c)
    ensures ReadOk(Decided(v, c, on), c)
  {
    DecidedShape(v, c, on);
    if !v.conn.zombie && !Decided(v, c, on).conn.crossed {
      DecidedInForce(v, c, on);
    }
  }

  /** It does not when the attach task does. */
  lemma OvertakenLoses(v: View, c: nat)
    requires ReadOk(v, c) && Overtakes(v, c, false)
    ensures var w := Decided(v, c, false); w.j == [Attach(c)] && TurnsOn(w.j[0]) != w.conn.verdict
  {
    DecidedQueue(v, c, false);
  }

  lemma DecidedOk(v: View, c: nat, on: bool)
    requires ConnOk(v, c)
    ensures ConnOk(Decided(v, c, on), c)
  {
    if v.live {
      DecidedReadOk(v, c, on);
    }
    var d, w := ReadTask(c, on), Decided(v, c, on);
    if v.conn.starting && Attach(c) in w.j {
      RemoveOnly(if d in v.b || d in v.j then v.j else v.j + [d], ReadTask(c, !on), Attach(c));
    }
    assert InTransit(w) == InTransit(v);
  }

  /** The attach task is scheduled: it becomes the last pending read task. */
  function Begun(v: View, c: nat): View {
    v.(j := v.j + [Attach(c)],
       conn := v.conn.(starting := false, crossed := v.conn.crossed || (!v.conn.verdict && !v.conn.zombie && v.live)))
  }

  lemma BegunOk(v: View, c: nat)
    requires ConnOk(v, c) && v.conn.starting
    ensures ConnOk(Begun(v, c), c)
  {
    assert InTransit(Begun(v, c)) == InTransit(v);
    if v.live {
      assert |v.j| <= 1;
      assert v.j == [] || v.j == [v.j[0]];
    }
  }

  /** Executing the popped read task. */
  lemma ExecutedRead(v: View, c: nat, x: Task)
    requires ReadOk(v, c) && Unscheduled(v, c) && v.cu == [x]
    ensures ReadOk(v.(cu := [], conn := Execute(v.conn, x)), c)
  {
    assert ReadTaskOf(v.cu[0], c);
  }

  lemma ExecutedRest(v: View, x: Task)
    requires TokenOk(v) && FifoOk(v) && !x.StartWrite?
    ensures var w := v.(cu := [], conn := Execute(v.conn, x)); TokenOk(w) && FifoOk(w)
  {
    assert InTransit(v.(cu := [], conn := Execute(v.conn, x))) == InTransit(v);
  }

  lemma ExecutedOk(v: View, c: nat)
    requires ConnOk(v, c) && v.live && |v.cu| == 1
    ensures ConnOk(v.(cu := [], conn := Execute(v.conn, v.cu[0])), c)
  {
    var x := v.cu[0];
    assert v.cu == [x] && ReadTaskOf(x, c);
    ExecutedRead(v, c, x);
    ExecutedRest(v, x);
    assert Execute(v.conn, x).starting == v.conn.starting;
  }

  /** Executing the write task: the token moves on to the watcher. */
  lemma WriteStartedOk(v: View, c: nat)
    requires ConnOk(v, c) && 0 < v.wr
    ensures ConnOk(v.(wr := v.wr - 1, conn := v.conn.(wio := true)), c)
  {
  }

  /** The reading side of the pair moves from the shared queue to the batch, then forward. */
  lemma TakenOver(v: View, c: nat)
    requires ConnOk(v, c) && v.b == [] && v.cu == []
    ensures ConnOk(v.(b := v.j, j := []), c)
  {
    assert InTransit(v.(b := v.j, j := [])) == InTransit(v);
  }

  lemma PoppedRead(v: View, c: nat)
    requires ReadOk(v, c) && v.b != [] && v.cu == []
    ensures ReadOk(v.(cu := [v.b[0]], b := v.b[1..]), c)
  {
    var w := v.(cu := [v.b[0]], b := v.b[1..]);
    assert forall t :: t in w.b ==> t in v.b;
    assert |v.b| == 2 ==> w.b == [v.b[1]];
  }

  lemma MovedOk(v: View, c: nat)
    requires ConnOk(v, c) && v.b != [] && v.cu == []
    ensures ConnOk(v.(cu := [v.b[0]], b := v.b[1..]), c)
  {
    var w := v.(cu := [v.b[0]], b := v.b[1..]);
    if v.live {
      PoppedRead(v, c);
    }
    assert InTransit(w) == InTransit(v) && forall t :: t in w.b ==> t in v.b;
  }

  /** The list keeps the frames up to its `last` pointer and takes the new one behind them. */
  lemma AppendSplits(ol: OutList, f: Frame) returns (keep: seq<Frame>, gone: seq<Frame>)
    requires ol.chain == [] || 0 <= ol.last < |ol.chain|
    ensures ol.chain == keep + gone && Append(ol, f).chain == keep + [f]
    ensures Unlinked(ol, OutList([f], 0)) == |gone|
  {
    keep := if ol.chain == [] then [] else ol.chain[..ol.last + 1];
    gone := ol.chain[|keep|..];
  }

  lemma Regroup(a: seq<Frame>, b: seq<Frame>, c: seq<Frame>)
    ensures a + (b + c) == (a + b) + c
  {
  }

  lemma SubseqFront(x: seq<Frame>, gone: seq<Frame>, sent: seq<Frame>)
    requires Subseq(x + gone, sent)
    ensures Subseq(x, sent)
  {
    assert x + gone + [] == x + gone;
    SubseqCut(x, gone, [], sent);
    assert x + [] == x;
  }

  lemma KeptBehind(front: seq<Frame>, keep: seq<Frame>, gone: seq<Frame>, sent: seq<Frame>, f: Frame)
    requires Subseq(front + (keep + gone), sent)
    ensures Subseq(front + (keep + [f]), sent + [f])
  {
    var kept := front + keep;
    Regroup(front, keep, gone);
    SubseqFront(kept, gone, sent);
    SubseqGrow(kept, sent, f);
    Regroup(front, keep, [f]);
  }

  /** One more frame behind `front` and the list it is appended to. */
  lemma AppendKeepsOrder(front: seq<Frame>, ol: OutList, sent: seq<Frame>, f: Frame)
    requires Subseq(front + ol.chain, sent)
    ensures Subseq(front + Append(ol, f).chain, sent + [f])
    ensures |Append(ol, f).chain| + Unlinked(ol, OutList([f], 0)) == |ol.chain| + 1
  {
    if ol.chain == [] || 0 <= ol.last < |ol.chain| {
      var keep, gone := AppendSplits(ol, f);
      KeptBehind(front, keep, gone, sent, f);
    } else {
      SubseqGrow(front + ol.chain, sent, f);
    }
  }

  lemma InsertedOk(v: View, c: nat, f: Frame)
    requires ConnOk(v, c)
    ensures var conn := v.conn.(writing := true, ol := Append(v.conn.ol, f), sent := v.conn.sent + [f],
                                lost := v.conn.lost + Unlinked(v.conn.ol, OutList([f], 0)));
            ConnOk(v.(conn := conn, wr := if v.conn.writing then v.wr else v.wr + 1), c)
  {
    AppendKeepsOrder(v.conn.written + v.local.chain, v.conn.ol, v.conn.sent, f);
  }

  lemma TakenOk(v: View, c: nat)
    requires ConnOk(v, c) && v.local == EmptyList
    ensures ConnOk(v.(local := v.conn.ol, conn := v.conn.(ol := EmptyList)), c)
  {
    assert v.conn.written + [] + v.conn.ol.chain == v.conn.written + v.conn.ol.chain + [];
  }

  lemma WrittenOk(v: View, c: nat, k: nat)
    requires ConnOk(v, c) && k <= |v.local.chain|
    ensures ConnOk(v.(local := Drop(v.local, k), conn := v.conn.(written := v.conn.written + v.local.chain[..k])), c)
  {
    assert v.local.chain == v.local.chain[..k] + v.local.chain[k..];
    assert v.conn.written + v.local.chain + v.conn.ol.chain
        == (v.conn.written + v.local.chain[..k]) + v.local.chain[k..] + v.conn.ol.chain;
  }

  lemma MergedOk(v: View, c: nat)
    requires ConnOk(v, c) && v.local.chain != []
    ensures var lost := if v.conn.ol.chain == [] then 0 else Unlinked(v.local, v.conn.ol);
            ConnOk(v.(local := EmptyList,
                      conn := v.conn.(ol := MergeBack(v.local, v.conn.ol), lost := v.conn.lost + lost)), c)
  {
    var w, l, q, sent := v.conn.written, v.local, v.conn.ol.chain, v.conn.sent;
    assert w + [] == w;
    if q == [] {
      assert w + l.chain + q == w + l.chain;
    } else if 0 <= l.last < |l.chain| {
      var keep, gone := l.chain[..l.last + 1], l.chain[l.last + 1..];
      assert w + l.chain + q == (w + keep) + gone + q;
      SubseqCut(w + keep, gone, q, sent);
      assert w + (keep + q) == (w + keep) + q;
    } else {
      assert w + l.chain + q == (w + l.chain) + q + [];
      SubseqCut(w + l.chain, q, [], sent);
      assert (w + l.chain) + [] == w + l.chain;
    }
  }
}
