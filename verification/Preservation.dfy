/** Every step of the machine keeps the invariant of its workers and connections. */
module Preservation {
  import opened Machine
  import opened TaskLists
  import opened Invariant
  import opened Connections

  ghost predicate WorkersOk(s: State) {
    forall w :: 0 <= w < |s.workers| ==> QueuesOk(s.workers[w]) && Owns(s.workers[w], w, s.conns)
  }

  /** Connection c with its worker. */
  function ViewOf(s: State, c: nat): View
    requires c < |s.conns| && s.conns[c].thr < |s.workers|
  {
    Sees(s.conns[c], s.workers[s.conns[c].thr], c)
  }

  ghost predicate Core(s: State) {
    && Wired(s) && WorkersOk(s)
    && forall c :: 0 <= c < |s.conns| ==> ConnOk(ViewOf(s, c), c)
  }

  // ---- what the queue operations do to the view of any connection ---------------------

  lemma SeesPush(conn: Conn, w: Worker, t: Task, c: nat)
    ensures var v := Sees(conn, w, c);
            Sees(conn, Push(w, t), c) == v.(j := if Of(t, Reading, c) then v.j + [t] else v.j,
                                            wr := if Of(t, Writes, c) then v.wr + 1 else v.wr)
  {
    SelConcat(w.jobs, [t], Reading, c);
    SelConcat(w.jobs, [t], Writes, c);
    SelOne(t, Reading, c);
    SelOne(t, Writes, c);
  }

  lemma SeesCancel(conn: Conn, w: Worker, t: Task, c: nat)
    requires !t.StartWrite?
    ensures var v := Sees(conn, w, c);
            Sees(conn, Cancel(w, t), c) == v.(j := if Of(t, Reading, c) then Remove(v.j, t) else v.j)
  {
    if t in w.jobs {
      SelRemove(w.jobs, t, Reading, c);
      SelRemove(w.jobs, t, Writes, c);
    } else {
      SelMember(w.jobs, Reading, c, t);
      if Of(t, Reading, c) {
        RemoveAbsent(Sel(w.jobs, Reading, c), t);
      }
    }
  }

  /** What a decision does to the queues as a connection sees them. */
  lemma SeesPair(conn: Conn, w: Worker, d: nat, on: bool, c: nat)
    ensures var v := Sees(conn, w, c);
            Sees(conn, Decide(w, d, on), c) == if c == d then v.(j := Decided(v, c, on).j) else v
  {
    var t, o := ReadTask(d, on), ReadTask(d, !on);
    var pushed := if InQueue(w, t) then w else Push(w, t);
    SelMember(w.batch, Reading, d, t);
    SelMember(w.jobs, Reading, d, t);
    if !InQueue(w, t) {
      SeesPush(conn, w, t, c);
    }
    SeesCancel(conn, pushed, o, c);
    if !InQueue(pushed, o) {
      assert Cancel(pushed, o) == pushed;
    }
  }

  lemma SeesDecide(conn: Conn, w: Worker, d: nat, on: bool, c: nat)
    ensures Sees(if c == d then DecidedConn(conn, w, d, on) else conn, Decide(w, d, on), c)
         == if c == d then Decided(Sees(conn, w, c), c, on) else Sees(conn, w, c)
  {
    SeesPair(conn, w, d, on, c);
    SelMember(w.batch, Reading, d, StopRead(d));
    SelMember(w.jobs, Reading, d, Attach(d));
  }

  lemma DecideOneView(s: State, d: nat, on: bool, c: nat)
    requires Wired(s) && d < |s.conns| && c < |s.conns|
    ensures ViewOf(DecideOne(s, d, on), c) == if c == d then Decided(ViewOf(s, c), c, on) else ViewOf(s, c)
  {
    SeesDecide(s.conns[c], s.workers[s.conns[c].thr], d, on, c);
  }

  lemma NextView(v: View, t: State, u: State, d: nat, on: bool, c: nat)
    requires Wired(t) && d < |t.conns| && c < |t.conns| && u == DecideOne(t, d, on)
    requires ViewOf(t, c) == if c < d then Decided(v, c, on) else v
    ensures ViewOf(u, c) == if c <= d then Decided(v, c, on) else v
  {
    DecideOneView(t, d, on, c);
  }

  /** After i turns. */
  predicate ViewedAt(s: State, on: bool, i: nat, c: nat)
    requires Wired(s) && i <= |s.conns| && c < |s.conns|
  {
    ViewOf(Bulk(s, on, i), c) == if c < i then Decided(ViewOf(s, c), c, on) else ViewOf(s, c)
  }

  lemma TurnView(s: State, on: bool, i: nat, c: nat)
    requires Wired(s) && i < |s.conns| && c < |s.conns| && ViewedAt(s, on, i, c)
    ensures ViewedAt(s, on, i + 1, c)
  {
    BulkNext(s, on, i);
    NextView(ViewOf(s, c), Bulk(s, on, i), Bulk(s, on, i + 1), i, on, c);
  }

  lemma {:induction false} TurnsView(s: State, on: bool, n: nat, c: nat)
    requires Wired(s) && n <= |s.conns| && c < |s.conns|
    ensures ViewedAt(s, on, n, c)
  {
    if n == 0 {
      assert Bulk(s, on, 0) == s;
    } else {
      TurnsView(s, on, n - 1, c);
      TurnView(s, on, n - 1, c);
    }
  }

  /** The bulk macro decides for each connection once, and no turn concerns another's view. */
  lemma {:induction false} BulkView(s: State, on: bool, n: nat, c: nat)
    requires Wired(s) && n <= |s.conns| && c < |s.conns|
    ensures ViewOf(Bulk(s, on, n), c) == if c < n then Decided(ViewOf(s, c), c, on) else ViewOf(s, c)
  {
    TurnsView(s, on, n, c);
  }

  lemma SeesSwap(conn: Conn, w: Worker, c: nat)
    requires Free(w)
    ensures Sees(conn, w.(batch := w.jobs, jobs := []), c)
         == Sees(conn, w, c).(b := Sees(conn, w, c).j, j := [])
  {
  }

  lemma SeesPop(conn: Conn, w: Worker, c: nat)
    requires w.cur == [] && w.batch != []
    ensures Of(w.batch[0], Reading, c) ==> Sees(conn, w, c).b != [] && Sees(conn, w, c).b[0] == w.batch[0]
    ensures Sees(conn, w.(cur := [w.batch[0]], batch := w.batch[1..]), c)
         == var v := Sees(conn, w, c);
            if Of(w.batch[0], Reading, c) then v.(cu := [v.b[0]], b := v.b[1..]) else v
  {
    SelOne(w.batch[0], Reading, c);
    SelOne(w.batch[0], Writes, c);
  }

  lemma SeesExec(conn: Conn, w: Worker, c: nat)
    requires |w.cur| == 1
    ensures Sees(conn, w, c).cu == if Of(w.cur[0], Reading, c) then [w.cur[0]] else []
    ensures Of(w.cur[0], Writes, c) ==> 0 < Sees(conn, w, c).wr
    ensures Sees(conn, w.(cur := [], done := w.done + [w.cur[0]]), c)
         == var v := Sees(conn, w, c);
            v.(cu := [], wr := if Of(w.cur[0], Writes, c) then v.wr - 1 else v.wr)
  {
    assert w.cur == [w.cur[0]];
    SelOne(w.cur[0], Reading, c);
    SelOne(w.cur[0], Writes, c);
  }

  // ---- putting a changed worker and connection back ------------------------------------

  /** One worker and at most one of its connections changed. */
  lemma CoreUpdate(s: State, t: State, w: nat, c: nat)
    requires Core(s) && w < |s.workers| == |t.workers| && |s.conns| == |t.conns|
    requires forall i :: 0 <= i < |s.workers| && i != w ==> t.workers[i] == s.workers[i]
    requires forall i :: 0 <= i < |s.conns| && i != c ==> t.conns[i] == s.conns[i]
    requires c < |s.conns| ==> t.conns[c].thr == s.conns[c].thr == w
    requires QueuesOk(t.workers[w]) && Owns(t.workers[w], w, t.conns)
    requires forall i :: 0 <= i < |s.conns| && t.conns[i].thr == w ==> ConnOk(Sees(t.conns[i], t.workers[w], i), i)
    ensures Core(t)
  {
    forall i | 0 <= i < |t.workers| && i != w
      ensures Owns(t.workers[i], i, t.conns)
    {
      assert Owns(s.workers[i], i, s.conns);
      assert forall x :: Known(x, i, s.conns) ==> Known(x, i, t.conns);
    }
    forall i | 0 <= i < |t.conns|
      ensures ConnOk(ViewOf(t, i), i)
    {
      if t.conns[i].thr != w {
        assert ViewOf(t, i) == ViewOf(s, i);
      }
    }
  }

  lemma CoreDecideOne(s: State, c: nat, on: bool)
    requires Core(s) && c < |s.conns|
    ensures Core(DecideOne(s, c, on))
  {
    var w, t := s.conns[c].thr, DecideOne(s, c, on);
    DecideOk(s.workers[w], c, on);
    assert forall x :: Known(x, w, s.conns) ==> Known(x, w, t.conns);
    forall i | 0 <= i < |s.conns| && t.conns[i].thr == w
      ensures ConnOk(Sees(t.conns[i], t.workers[w], i), i)
    {
      assert ConnOk(ViewOf(s, i), i);
      SeesDecide(s.conns[i], s.workers[w], c, on, i);
      if i == c {
        DecidedOk(ViewOf(s, c), c, on);
      }
    }
    CoreUpdate(s, t, w, c);
  }

  lemma {:induction false} CoreBulk(s: State, on: bool, n: nat)
    requires Core(s) && n <= |s.conns|
    ensures Core(Bulk(s, on, n))
  {
    if n != 0 {
      var t, u := Bulk(s, on, n - 1), Bulk(s, on, n);
      assert u == DecideOne(t, n - 1, on) by {
        BulkNext(s, on, n - 1);
      }
      CoreBulk(s, on, n - 1);
      CoreDecided(t, u, n - 1, on);
    }
  }

  lemma CoreDecided(s: State, t: State, c: nat, on: bool)
    requires Core(s) && c < |s.conns| && t == DecideOne(s, c, on)
    ensures Core(t)
  {
    CoreDecideOne(s, c, on);
  }

  // ---- step by step ---------------------------------------------------------------------

  lemma CoreAdd(s: State, thr: nat, incoming: bool)
    requires Core(s) && Enabled(s, AddConn(thr, incoming))
    ensures Core(Apply(s, AddConn(thr, incoming)))
  {
    var c, t := |s.conns|, Apply(s, AddConn(thr, incoming));
    forall w | 0 <= w < |t.workers|
      ensures Owns(t.workers[w], w, t.conns)
    {
      assert Owns(s.workers[w], w, s.conns);
      assert forall x :: Known(x, w, s.conns) ==> Known(x, w, t.conns);
    }
    forall i | 0 <= i < |t.conns|
      ensures ConnOk(ViewOf(t, i), i)
    {
      if i < c {
        assert ConnOk(ViewOf(s, i), i);
      } else {
        assert Owns(s.workers[thr], thr, s.conns);
        SeesNothing(t.conns[c], s.workers[thr], thr, s.conns);
      }
    }
  }

  lemma BegunView(conn: Conn, me: Worker, c: nat)
    requires conn.starting
    ensures Sees(StartedConn(conn, me), Push(me, Attach(c)), c) == Begun(Sees(conn, me, c), c)
  {
    SeesPush(StartedConn(conn, me), me, Attach(c), c);
  }

  lemma AttachWorker(s: State, c: nat)
    requires Core(s) && c < |s.conns| && s.conns[c].starting
    ensures QueuesOk(Push(s.workers[s.conns[c].thr], Attach(c)))
  {
    var me := s.workers[s.conns[c].thr];
    assert ConnOk(ViewOf(s, c), c);
    SelMember(me.batch, Reading, c, Attach(c));
    SelMember(me.jobs, Reading, c, Attach(c));
    PushOk(me, Attach(c));
  }

  lemma AttachConnOk(s: State, c: nat, i: nat)
    requires Core(s) && c < |s.conns| && s.conns[c].starting && i < |s.conns| && s.conns[i].thr == s.conns[c].thr
    ensures var me := s.workers[s.conns[c].thr];
            ConnOk(Sees(if i == c then StartedConn(s.conns[c], me) else s.conns[i], Push(me, Attach(c)), i), i)
  {
    var me := s.workers[s.conns[c].thr];
    assert ConnOk(ViewOf(s, i), i);
    if i == c {
      BegunView(s.conns[c], me, c);
      BegunOk(ViewOf(s, c), c);
    } else {
      SeesPush(s.conns[i], me, Attach(c), i);
    }
  }

  lemma CoreAttach(s: State, c: nat)
    requires Core(s) && Enabled(s, AttachConn(c))
    ensures Core(Apply(s, AttachConn(c)))
  {
    var w, t := s.conns[c].thr, Apply(s, AttachConn(c));
    AttachWorker(s, c);
    forall i | 0 <= i < |s.conns| && t.conns[i].thr == w
      ensures ConnOk(Sees(t.conns[i], t.workers[w], i), i)
    {
      AttachConnOk(s, c, i);
    }
    assert forall x :: Known(x, w, s.conns) ==> Known(x, w, t.conns);
    CoreUpdate(s, t, w, c);
  }

  /** A worker holds nothing for a connection that does not exist yet. */
  lemma SeesNothing(conn: Conn, me: Worker, id: nat, conns: seq<Conn>)
    requires Owns(me, id, conns)
    ensures Sees(conn, me, |conns|) == View(conn, [], [], [], 0, EmptyList, !me.halted)
  {
    SelNothing(me.cur, id, conns);
    SelNothing(me.batch, id, conns);
    SelNothing(me.jobs, id, conns);
  }

  lemma {:induction false} SelNothing(q: seq<Task>, id: nat, conns: seq<Conn>)
    requires forall t :: t in q ==> Known(t, id, conns)
    ensures Sel(q, Reading, |conns|) == [] && Sel(q, Writes, |conns|) == []
  {
    if q != [] {
      assert Known(q[0], id, conns);
      SelNothing(q[1..], id, conns);
    }
  }

  lemma CoreSwap(s: State, w: nat)
    requires Core(s) && Enabled(s, Swap(w))
    ensures Core(Apply(s, Swap(w)))
  {
    var me, t := s.workers[w], Apply(s, Swap(w));
    SwapOk(me);
    forall i | 0 <= i < |s.conns| && s.conns[i].thr == w
      ensures ConnOk(Sees(t.conns[i], t.workers[w], i), i)
    {
      assert ConnOk(ViewOf(s, i), i);
      SeesSwap(s.conns[i], me, i);
      TakenOver(ViewOf(s, i), i);
    }
    CoreUpdate(s, t, w, |s.conns|);
  }

  lemma CorePop(s: State, w: nat)
    requires Core(s) && Enabled(s, Pop(w))
    ensures Core(Apply(s, Pop(w)))
  {
    var me, t := s.workers[w], Apply(s, Pop(w));
    PopOk(me);
    assert me.batch[0] in me.batch && forall x :: x in me.batch[1..] ==> x in me.batch;
    forall i | 0 <= i < |s.conns| && s.conns[i].thr == w
      ensures ConnOk(Sees(t.conns[i], t.workers[w], i), i)
    {
      assert ConnOk(ViewOf(s, i), i);
      if me.batch[0] != Halt {
        SeesPop(s.conns[i], me, i);
        if Of(me.batch[0], Reading, i) {
          MovedOk(ViewOf(s, i), i);
        }
      } else {
        assert InTransit(Sees(t.conns[i], t.workers[w], i)) == InTransit(ViewOf(s, i));
      }
    }
    CoreUpdate(s, t, w, |s.conns|);
  }

  /** What executing the popped task does to the view of a connection of the same worker. */
  lemma ExecView(conn: Conn, me: Worker, i: nat)
    requires |me.cur| == 1 && ConnOk(Sees(conn, me, i), i) && !me.halted && me.cur[0] != Halt
    ensures var x := me.cur[0];
            var conn' := if i == x.c then Execute(conn, x) else conn;
            ConnOk(Sees(conn', me.(cur := [], done := me.done + [x]), i), i)
  {
    var x := me.cur[0];
    SeesExec(conn, me, i);
    if i == x.c {
      SeesExec(Execute(conn, x), me, i);
      if x.StartWrite? {
        WriteStartedOk(Sees(conn, me, i), i);
      } else {
        ExecutedOk(Sees(conn, me, i), i);
      }
    }
  }

  lemma CoreExec(s: State, w: nat)
    requires Core(s) && Enabled(s, Exec(w))
    ensures Core(Apply(s, Exec(w)))
  {
    var me, t := s.workers[w], Apply(s, Exec(w));
    var x := me.cur[0];
    ExecOk(me);
    assert x in me.cur && Known(x, w, s.conns);
    assert forall y :: Known(y, w, s.conns) ==> Known(y, w, t.conns);
    forall i | 0 <= i < |s.conns| && s.conns[i].thr == w
      ensures ConnOk(Sees(t.conns[i], t.workers[w], i), i)
    {
      assert ConnOk(ViewOf(s, i), i);
      ExecView(s.conns[i], me, i);
    }
    CoreUpdate(s, t, w, x.c);
  }

  lemma CoreHalt(s: State, w: nat)
    requires Core(s) && Enabled(s, ScheduleHalt(w))
    ensures Core(Apply(s, ScheduleHalt(w)))
  {
    var me, t := s.workers[w], Apply(s, ScheduleHalt(w));
    PushOk(me, Halt);
    forall i | 0 <= i < |s.conns| && s.conns[i].thr == w
      ensures ConnOk(Sees(t.conns[i], t.workers[w], i), i)
    {
      assert ConnOk(ViewOf(s, i), i);
      SeesPush(s.conns[i], me, Halt, i);
    }
    CoreUpdate(s, t, w, |s.conns|);
  }

  /** Steps on the root's fields and the users leave this invariant alone. */
  lemma CoreRest(s: State, t: State)
    requires Core(s) && t.conns == s.conns && t.workers == s.workers
    ensures Core(t)
  {
    assert forall c :: 0 <= c < |s.conns| ==> ViewOf(t, c) == ViewOf(s, c);
  }

  lemma CoreDecideAll(s: State, on: bool)
    requires Core(s)
    ensures Core(DecideAll(s, on))
  {
    CoreRest(s, Flagged(s, on));
    CoreBulk(Flagged(s, on), on, |s.conns|);
  }

  lemma CoreParsed(s: State, c: nat, parsed: seq<Frame>)
    requires Core(s) && c < |s.conns|
    ensures Core(SetConn(s, c, s.conns[c].(parsed := parsed)))
  {
    var w, t := s.conns[c].thr, SetConn(s, c, s.conns[c].(parsed := parsed));
    forall i | 0 <= i < |s.conns| && t.conns[i].thr == w
      ensures ConnOk(Sees(t.conns[i], t.workers[w], i), i)
    {
      assert ConnOk(ViewOf(s, i), i);
      if i == c {
        ParsedOk(ViewOf(s, c), c, parsed);
      }
    }
    assert forall x :: Known(x, w, s.conns) ==> Known(x, w, t.conns);
    CoreUpdate(s, t, w, c);
  }

  lemma ParsedOk(v: View, c: nat, parsed: seq<Frame>)
    requires ConnOk(v, c)
    ensures ConnOk(v.(conn := v.conn.(parsed := parsed)), c)
  {
    assert InTransit(v.(conn := v.conn.(parsed := parsed))) == InTransit(v);
  }

  lemma CoreRead(s: State, c: nat, frames: seq<Frame>)
    requires Core(s) && Enabled(s, Read(c, frames))
    ensures Core(ReadStep(s, c, frames))
  {
    var parsed := s.conns[c].parsed + frames;
    var t, q := SetConn(s, c, s.conns[c].(parsed := parsed)), ReadRoot(s.root, c, frames);
    CoreParsed(s, c, parsed);
    CoreRest(t, t.(root := q));
    if 0 < q.rcvhwm < q.rcvqsz {
      CoreDecideAll(t.(root := q), false);
    }
  }

  lemma CoreTake(s: State, u: nat)
    requires Core(s) && u < |s.users|
    ensures Core(TakeEvent(s, u))
  {
    if s.root.events != [] {
      var t := SetUser(s, u, Ready).(root := TakeRoot(s.root));
      CoreRest(s, t);
      CoreDecideAll(t, true);
    } else {
      CoreRest(s, TakeEvent(s, u));
    }
  }

  lemma CoreClose(s: State, c: nat)
    requires Core(s) && Enabled(s, Close(c))
    ensures Core(Apply(s, Close(c)))
  {
    var w, t := s.conns[c].thr, Apply(s, Close(c));
    forall i | 0 <= i < |s.conns| && t.conns[i].thr == w
      ensures ConnOk(Sees(t.conns[i], t.workers[w], i), i)
    {
      assert ConnOk(ViewOf(s, i), i);
      assert InTransit(Sees(t.conns[i], t.workers[w], i)) == InTransit(ViewOf(s, i));
    }
    assert forall x :: Known(x, w, s.conns) ==> Known(x, w, t.conns);
    CoreUpdate(s, t, w, c);
  }

  /** A step of the write handler on its connection c: the handler moves on, the connection
      changes as given, and nothing else does. */
  lemma CoreHand(s: State, w: nat, c: nat, hand: Handler, conn: Conn)
    requires Core(s) && w < |s.workers| && c < |s.conns| && s.conns[c].thr == conn.thr == w
    requires s.workers[w].hand.Idle? || s.workers[w].hand.c == c
    requires hand.Idle? || hand.c == c
    requires !s.workers[w].halted && s.workers[w].cur == [] && s.workers[w].batch == []
    requires hand.Writing? ==> hand.local.chain != []
    requires !hand.Idle? ==> conn.wio && !conn.zombie
    requires ConnOk(Sees(conn, s.workers[w].(hand := hand), c), c)
    ensures Core(SetConn(SetHand(s, w, hand), c, conn))
  {
    var t := SetConn(SetHand(s, w, hand), c, conn);
    forall i | 0 <= i < |s.conns| && t.conns[i].thr == w && i != c
      ensures Sees(t.conns[i], t.workers[w], i) == ViewOf(s, i)
    {
    }
    forall i | 0 <= i < |s.conns| && t.conns[i].thr == w
      ensures ConnOk(Sees(t.conns[i], t.workers[w], i), i)
    {
      assert ConnOk(ViewOf(s, i), i);
    }
    assert forall x :: Known(x, w, s.conns) ==> Known(x, w, t.conns);
    CoreUpdate(s, t, w, c);
  }

  /** What is known while a worker runs its write handler. */
  lemma HandlerContext(s: State, w: nat)
    requires Core(s) && Handling(s, w)
    ensures var me, c := s.workers[w], s.workers[w].hand.c;
            && s.conns[c].thr == w && s.conns[c].wio && !s.conns[c].zombie
            && !me.halted && me.cur == [] && me.batch == []
            && (me.hand.Writing? ==> me.hand.local.chain != [])
            && ConnOk(Sees(s.conns[c], me, c), c)
  {
    assert QueuesOk(s.workers[w]) && Owns(s.workers[w], w, s.conns);
    assert ConnOk(ViewOf(s, s.workers[w].hand.c), s.workers[w].hand.c);
  }

  lemma CoreEnter(s: State, c: nat)
    requires Core(s) && Enabled(s, WriteEnter(c))
    ensures Core(Apply(s, WriteEnter(c)))
  {
    var conn := s.conns[c];
    if !conn.zombie {
      assert ConnOk(ViewOf(s, c), c);
      CoreHand(s, conn.thr, c, Test(c, 0), conn);
      assert s.conns[c := conn] == s.conns;
    }
  }

  lemma CoreTest(s: State, w: nat)
    requires Core(s) && Enabled(s, WriteTest(w))
    ensures Core(Apply(s, WriteTest(w)))
  {
    HandlerContext(s, w);
    var Test(c, removed) := s.workers[w].hand;
    var conn := s.conns[c];
    if conn.ol.chain == [] {
      CoreHand(s, w, c, if 0 < removed then Account(c, removed) else Stop(c), conn);
      assert s.conns[c := conn] == s.conns;
    } else {
      TakenOk(ViewOf(s, c), c);
      CoreHand(s, w, c, Writing(c, conn.ol, removed), conn.(ol := EmptyList));
    }
  }

  lemma AfterSomeView(me: Worker, conn: Conn, k: nat, c: nat)
    requires me.hand.Writing? && me.hand.c == c && k <= |me.hand.local.chain|
    ensures var (hand, conn') := AfterSome(me, conn, k);
            Sees(conn', me.(hand := hand), c) == Sees(conn, me, c).(local := Drop(me.hand.local, k), conn := conn')
  {
  }

  lemma CoreSome(s: State, w: nat, k: nat)
    requires Core(s) && Enabled(s, WriteSome(w, k))
    ensures Core(Apply(s, WriteSome(w, k)))
  {
    HandlerContext(s, w);
    var me, c := s.workers[w], s.workers[w].hand.c;
    var (hand, conn) := AfterSome(me, s.conns[c], k);
    WrittenOk(Sees(s.conns[c], me, c), c, k);
    AfterSomeView(me, s.conns[c], k, c);
    CoreHand(s, w, c, hand, conn);
  }

  lemma AfterAgainView(me: Worker, conn: Conn, c: nat)
    requires me.hand.Writing? && me.hand.c == c
    ensures var (hand, conn') := AfterAgain(me, conn);
            Sees(conn', me.(hand := hand), c) == Sees(conn, me, c).(local := EmptyList, conn := conn')
  {
  }

  lemma CoreAgain(s: State, w: nat)
    requires Core(s) && Enabled(s, WriteAgain(w))
    ensures Core(Apply(s, WriteAgain(w)))
  {
    HandlerContext(s, w);
    var me, c := s.workers[w], s.workers[w].hand.c;
    var (hand, conn) := AfterAgain(me, s.conns[c]);
    MergedOk(Sees(s.conns[c], me, c), c);
    AfterAgainView(me, s.conns[c], c);
    CoreHand(s, w, c, hand, conn);
  }

  lemma CoreStop(s: State, w: nat)
    requires Core(s) && Enabled(s, WriteStop(w))
    ensures Core(Apply(s, WriteStop(w)))
  {
    HandlerContext(s, w);
    var c := s.workers[w].hand.c;
    StoppedOk(ViewOf(s, c), c);
    CoreHand(s, w, c, Idle, s.conns[c].(wio := false, writing := false));
  }

  lemma StoppedOk(v: View, c: nat)
    requires ConnOk(v, c) && v.conn.wio
    ensures ConnOk(v.(conn := v.conn.(wio := false, writing := false)), c)
  {
  }

  lemma CoreAccount(s: State, step: Step)
    requires Core(s) && Enabled(s, step) && (step.WriteAccount? || step.WriteWake?)
    ensures Core(Apply(s, step))
  {
    var w := step.w;
    HandlerContext(s, w);
    var c := s.workers[w].hand.c;
    var hand := Apply(s, step).workers[w].hand;
    CoreHand(s, w, c, hand, s.conns[c]);
    assert s.conns[c := s.conns[c]] == s.conns;
    CoreRest(SetConn(SetHand(s, w, hand), c, s.conns[c]), Apply(s, step));
  }

  /** The push of the write task never meets a task that is still queued. */
  lemma TokenGuardsPush(s: State, c: nat)
    requires Core(s) && c < |s.conns| && !s.conns[c].writing
    ensures !InQueue(s.workers[s.conns[c].thr], StartWrite(c))
  {
    var me := s.workers[s.conns[c].thr];
    assert ConnOk(ViewOf(s, c), c);
    SelMember(me.batch, Writes, c, StartWrite(c));
    SelMember(me.jobs, Writes, c, StartWrite(c));
  }

  /** So the insertion does not fail. */
  lemma InsertGoes(s: State, u: nat)
    requires Core(s) && Enabled(s, SendInsert(u))
    ensures Apply(s, SendInsert(u)).fault == NoFault
  {
    if !s.conns[s.users[u].c].writing {
      TokenGuardsPush(s, s.users[u].c);
    }
  }

  function InsertedWorker(me: Worker, conn: Conn, c: nat): Worker {
    if conn.writing then me else Push(me, StartWrite(c))
  }

  lemma InsertedView(conn: Conn, me: Worker, c: nat, f: Frame)
    ensures var me' := InsertedWorker(me, conn, c);
            Sees(InsertedConn(conn, f), me', c)
              == Sees(conn, me, c).(conn := InsertedConn(conn, f),
                                    wr := if conn.writing then Sees(conn, me, c).wr else Sees(conn, me, c).wr + 1)
  {
    SeesPush(InsertedConn(conn, f), me, StartWrite(c), c);
  }

  lemma InsertedWorkerOk(s: State, c: nat, conns: seq<Conn>)
    requires Core(s) && c < |s.conns| && |conns| == |s.conns|
    requires forall i :: 0 <= i < |conns| ==>
               conns[i].thr == s.conns[i].thr && conns[i].wio == s.conns[i].wio && conns[i].zombie == s.conns[i].zombie
    ensures var w := s.conns[c].thr;
            var me := InsertedWorker(s.workers[w], s.conns[c], c);
            QueuesOk(me) && Owns(me, w, conns)
  {
    var w := s.conns[c].thr;
    assert QueuesOk(s.workers[w]) && Owns(s.workers[w], w, s.conns);
    if !s.conns[c].writing {
      TokenGuardsPush(s, c);
      PushOk(s.workers[w], StartWrite(c));
    }
    assert forall x :: Known(x, w, s.conns) ==> Known(x, w, conns);
  }

  lemma InsertedConnOk(s: State, c: nat, f: Frame, i: nat)
    requires Core(s) && c < |s.conns| && i < |s.conns| && s.conns[i].thr == s.conns[c].thr
    ensures var me := InsertedWorker(s.workers[s.conns[c].thr], s.conns[c], c);
            ConnOk(Sees(if i == c then InsertedConn(s.conns[c], f) else s.conns[i], me, i), i)
  {
    var me := s.workers[s.conns[c].thr];
    assert ConnOk(ViewOf(s, i), i);
    if i == c {
      InsertedOk(ViewOf(s, c), c, f);
      InsertedView(s.conns[c], me, c, f);
    } else {
      SeesPush(s.conns[i], me, StartWrite(c), i);
    }
  }

  lemma CoreInsertConn(s: State, c: nat, f: Frame)
    requires Core(s) && c < |s.conns|
    ensures var conn, w := s.conns[c], s.conns[c].thr;
            Core(SetConn(SetWorker(s, w, InsertedWorker(s.workers[w], conn, c)), c, InsertedConn(conn, f)))
  {
    var conn, w := s.conns[c], s.conns[c].thr;
    var t := SetConn(SetWorker(s, w, InsertedWorker(s.workers[w], conn, c)), c, InsertedConn(conn, f));
    InsertedWorkerOk(s, c, t.conns);
    forall i | 0 <= i < |s.conns| && t.conns[i].thr == w
      ensures ConnOk(Sees(t.conns[i], t.workers[w], i), i)
    {
      InsertedConnOk(s, c, f, i);
    }
    CoreUpdate(s, t, w, c);
  }

  lemma CoreInsert(s: State, u: nat)
    requires Core(s) && Enabled(s, SendInsert(u))
    ensures Core(Apply(s, SendInsert(u))) && Apply(s, SendInsert(u)).fault == NoFault
  {
    var c, f := s.users[u].c, s.users[u].f;
    var w := s.conns[c].thr;
    CoreInsertConn(s, c, f);
    if !s.conns[c].writing {
      TokenGuardsPush(s, c);
    }
    assert s.workers[w := s.workers[w]] == s.workers;
    var me := InsertedWorker(s.workers[w], s.conns[c], c);
    CoreRest(SetConn(SetWorker(s, w, me), c, InsertedConn(s.conns[c], f)), Apply(s, SendInsert(u)));
  }

  lemma CoreLoopStep(s: State, step: Step)
    requires Core(s) && Enabled(s, step)
    requires step.Swap? || step.Pop? || step.Exec? || step.ScheduleHalt? || step.AttachConn? || step.Close?
    ensures Core(Apply(s, step))
  {
    match step
    case AttachConn(c) => CoreAttach(s, c);
    case Swap(w) => CoreSwap(s, w);
    case Pop(w) => CorePop(s, w);
    case Exec(w) => CoreExec(s, w);
    case ScheduleHalt(w) => CoreHalt(s, w);
    case Close(c) => CoreClose(s, c);
  }

  lemma CoreWriteStep(s: State, step: Step)
    requires Core(s) && Enabled(s, step)
    requires step.WriteEnter? || step.WriteTest? || step.WriteSome? || step.WriteAgain? || step.WriteStop?
             || step.WriteAccount? || step.WriteWake?
    ensures Core(Apply(s, step))
  {
    match step
    case WriteEnter(c) => CoreEnter(s, c);
    case WriteTest(w) => CoreTest(s, w);
    case WriteSome(w, k) => CoreSome(s, w, k);
    case WriteAgain(w) => CoreAgain(s, w);
    case WriteStop(w) => CoreStop(s, w);
    case WriteAccount(_) => CoreAccount(s, step);
    case WriteWake(_) => CoreAccount(s, step);
  }

  lemma CoreGetStep(s: State, step: Step)
    requires Core(s) && Enabled(s, step) && (step.GetEnter? || step.GetWoken?)
    ensures Core(Apply(s, step))
  {
    if step.GetWoken? || s.root.events != [] {
      CoreTake(s, step.u);
    } else {
      CoreRest(s, Apply(s, step));
    }
  }

  lemma CoreStep(s: State, step: Step)
    requires Core(s) && Enabled(s, step)
    ensures Core(Apply(s, step))
  {
    if step.Swap? || step.Pop? || step.Exec? || step.ScheduleHalt? || step.AttachConn? || step.Close? {
      CoreLoopStep(s, step);
    } else if step.WriteEnter? || step.WriteTest? || step.WriteSome? || step.WriteAgain? || step.WriteStop?
              || step.WriteAccount? || step.WriteWake? {
      CoreWriteStep(s, step);
    } else if step.GetEnter? || step.GetWoken? {
      CoreGetStep(s, step);
    } else if step.AddConn? {
      CoreAdd(s, step.thr, step.incoming);
    } else if step.Read? {
      CoreRead(s, step.c, step.frames);
    } else if step.SendInsert? {
      CoreInsert(s, step.u);
    } else {
      CoreRest(s, Apply(s, step));
    }
  }

  lemma CoreInit(sndhwm: int, rcvhwm: int, users: nat)
    ensures Core(Init(sndhwm, rcvhwm, users))
  {
  }

  lemma {:induction false} CoreRun(s: State, steps: seq<Step>)
    requires Core(s) && Valid(s, steps)
    ensures Core(Run(s, steps))
    decreases |steps|
  {
    if steps != [] {
      CoreStep(s, steps[0]);
      CoreRun(Apply(s, steps[0]), steps[1..]);
    }
  }
}
