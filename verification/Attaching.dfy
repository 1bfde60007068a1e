/** A connection between its table entry and its attach task (src/core/global.c:179-186,
    src/core/sock.c:187-201): other threads can find it in the table already. Which step of a run
    lets the attach task undo a decision to stop, or take the write watcher away from the holder
    of the write token; and that none does when the connection is left alone in between. */
module Attaching {
  import opened Machine
  import opened TaskLists
  import opened Invariant
  import opened Connections
  import opened Preservation
  import opened Flow
  import opened Senders

  // ---- the two steps --------------------------------------------------------------------------

  /** A read that reaches the mark: every connection is to stop. */
  predicate Stops(s: State, step: Step) {
    step.Read? && step.c < |s.conns|
    && var q := ReadRoot(s.root, step.c, step.frames); 0 < q.rcvhwm < q.rcvqsz
  }

  /** The attach task comes to stand behind the decision to stop: it is scheduled while that
      decision is in force, or the decision relies on a stop task that is ahead of it. */
  predicate Crossing(s: State, step: Step, c: nat)
    requires c < |s.conns| && s.conns[c].thr < |s.workers|
  {
    var w := s.workers[s.conns[c].thr];
    (step == AttachConn(c) && Behind(s.conns[c], w)) || (Stops(s, step) && Overtaken(s.conns[c], w, c, false))
  }

  /** The attach task is executed while the write watcher is active. */
  predicate Cutting(s: State, step: Step, c: nat)
    requires c < |s.conns|
  {
    step.Exec? && step.w < |s.workers| && s.workers[step.w].cur == [Attach(c)] && s.conns[c].wio && !s.conns[c].zombie
  }

  /** What is recorded about connection c. */
  datatype Marks = Marks(crossed: bool, cut: bool)

  function MarksOf(s: State, c: nat): Marks {
    if c < |s.conns| then Marks(s.conns[c].crossed, s.conns[c].cut) else Marks(false, false)
  }

  /** Exactly the two steps are recorded. */
  predicate MarksNext(s: State, step: Step, c: nat, x: Marks, y: Marks)
    requires c < |s.conns| && s.conns[c].thr < |s.workers|
  {
    y == Marks(x.crossed || Crossing(s, step, c), x.cut || Cutting(s, step, c))
  }

  lemma StopMarks(s: State, step: Step, c: nat)
    requires Wired(s) && c < |s.conns| && step.Read? && step.c < |s.conns|
    ensures c < |ReadStep(s, step.c, step.frames).conns|
    ensures MarksNext(s, step, c, MarksOf(s, c), MarksOf(ReadStep(s, step.c, step.frames), c))
  {
    var q := ReadRoot(s.root, step.c, step.frames);
    var t := SetConn(s, step.c, s.conns[step.c].(parsed := s.conns[step.c].parsed + step.frames)).(root := q);
    if 0 < q.rcvhwm < q.rcvqsz {
      DecideMarks(t, false, c);
    }
  }

  lemma DecideMarks(s: State, on: bool, c: nat)
    requires Wired(s) && c < |s.conns|
    ensures var t, conn := DecideAll(s, on), s.conns[c];
            c < |t.conns| && MarksOf(t, c) == Marks(conn.crossed || Overtaken(conn, s.workers[conn.thr], c, on), conn.cut)
  {
    var f := Flagged(s, on);
    BulkView(f, on, |s.conns|, c);
    assert ViewOf(Bulk(f, on, |s.conns|), c).conn == Decided(ViewOf(f, c), c, on).conn;
    SelMember(s.workers[s.conns[c].thr].batch, Reading, c, StopRead(c));
    SelMember(s.workers[s.conns[c].thr].jobs, Reading, c, Attach(c));
  }

  lemma TakeMarks(s: State, u: nat, c: nat)
    requires Wired(s) && c < |s.conns| && u < |s.users|
    ensures MarksOf(TakeEvent(s, u), c) == MarksOf(s, c)
  {
    if s.root.events != [] {
      DecideMarks(SetUser(s, u, Ready).(root := TakeRoot(s.root)), true, c);
    }
  }

  lemma ExecMarks(s: State, w: nat, c: nat)
    requires Enabled(s, Exec(w)) && c < |s.conns|
    ensures MarksNext(s, Exec(w), c, MarksOf(s, c), MarksOf(Apply(s, Exec(w)), c))
  {
    var x := s.workers[w].cur[0];
    assert s.workers[w].cur == [x];
    assert Apply(s, Exec(w)).conns == s.conns[x.c := Execute(s.conns[x.c], x)];
  }

  lemma AttachMarks(s: State, d: nat, c: nat)
    requires Enabled(s, AttachConn(d)) && c < |s.conns|
    ensures MarksNext(s, AttachConn(d), c, MarksOf(s, c), MarksOf(Apply(s, AttachConn(d)), c))
  {
  }

  lemma LoopMarks(s: State, step: Step, c: nat)
    requires Enabled(s, step) && c < |s.conns|
    requires step.Swap? || step.Pop? || step.ScheduleHalt? || step.Close? || step.AddConn?
    ensures MarksOf(Apply(s, step), c) == MarksOf(s, c)
  {
  }

  lemma WriteMarks(s: State, step: Step, c: nat)
    requires Enabled(s, step) && c < |s.conns| && WriteStep(step)
    ensures MarksOf(Apply(s, step), c) == MarksOf(s, c)
  {
  }

  lemma UserMarks(s: State, step: Step, c: nat)
    requires Enabled(s, step) && c < |s.conns| && !TakeStep(s, step)
    requires !WorkerStep(step) && !WriteStep(step) && !step.AddConn? && !step.Read?
    ensures MarksOf(Apply(s, step), c) == MarksOf(s, c)
  {
  }

  lemma OtherMarks(s: State, step: Step, c: nat)
    requires Enabled(s, step) && c < |s.conns| && !step.Exec? && !step.AttachConn? && !step.Read?
    ensures MarksOf(Apply(s, step), c) == MarksOf(s, c)
  {
    if WorkerStep(step) || step.AddConn? {
      LoopMarks(s, step, c);
    } else if WriteStep(step) {
      WriteMarks(s, step, c);
    } else if TakeStep(s, step) {
      TakeMarks(s, step.u, c);
    } else {
      UserMarks(s, step, c);
    }
  }

  lemma MarksStep(s: State, step: Step, c: nat)
    requires Enabled(s, step)
    ensures if c < |s.conns| then MarksNext(s, step, c, MarksOf(s, c), MarksOf(Apply(s, step), c))
            else MarksOf(Apply(s, step), c) == Marks(false, false)
  {
    if c >= |s.conns| {
      NewMarks(s, step, c);
    } else if step.Exec? {
      ExecMarks(s, step.w, c);
    } else if step.AttachConn? {
      AttachMarks(s, step.c, c);
    } else if step.Read? {
      StopMarks(s, step, c);
    } else {
      OtherMarks(s, step, c);
    }
  }

  lemma NewMarks(s: State, step: Step, c: nat)
    requires Enabled(s, step) && |s.conns| <= c
    ensures MarksOf(Apply(s, step), c) == Marks(false, false)
  {
  }

  // ---- runs without them --------------------------------------------------------------------

  predicate NeverCrossed(s: State, steps: seq<Step>, c: nat)
    requires Valid(s, steps)
    decreases |steps|
  {
    steps == [] || (!(c < |s.conns| && Crossing(s, steps[0], c)) && NeverCrossed(Apply(s, steps[0]), steps[1..], c))
  }

  predicate NeverCut(s: State, steps: seq<Step>, c: nat)
    requires Valid(s, steps)
    decreases |steps|
  {
    steps == [] || (!(c < |s.conns| && Cutting(s, steps[0], c)) && NeverCut(Apply(s, steps[0]), steps[1..], c))
  }

  lemma {:induction false} MarksRun(s: State, steps: seq<Step>, c: nat)
    requires Valid(s, steps)
    ensures MarksOf(Run(s, steps), c)
         == Marks(MarksOf(s, c).crossed || !NeverCrossed(s, steps, c), MarksOf(s, c).cut || !NeverCut(s, steps, c))
    decreases |steps|
  {
    if steps != [] {
      MarksStep(s, steps[0], c);
      MarksRun(Apply(s, steps[0]), steps[1..], c);
    }
  }

  // ---- left alone until it is attached ---------------------------------------------------------

  /** The pending tasks of a worker, the one being executed first. */
  function Pending(w: Worker): seq<Task> {
    w.cur + w.batch + w.jobs
  }

  /** The tasks that must not come ahead of the attach task. */
  predicate Spoils(t: Task, c: nat) {
    t == StopRead(c) || t == StartWrite(c)
  }

  predicate Attaches(t: Task, c: nat) {
    t == Attach(c)
  }

  ghost predicate Clear(q: seq<Task>, c: nat) {
    forall i, k {:trigger Spoils(q[i], c), Attaches(q[k], c)} ::
      0 <= i < k < |q| && Attaches(q[k], c) ==> !Spoils(q[i], c)
  }

  /** A connection with the pending tasks of its worker. */
  datatype Start = Start(q: seq<Task>, starting: bool, verdict: bool, wio: bool)

  function StartOf(s: State, c: nat): Start
    requires c < |s.conns| && s.conns[c].thr < |s.workers|
  {
    var conn := s.conns[c];
    Start(Pending(s.workers[conn.thr]), conn.starting, conn.verdict, conn.wio)
  }

  /** Until the attach task is executed nothing spoils it. */
  ghost predicate Unspoilt(x: Start, c: nat) {
    && Clear(x.q, c)
    && (Attach(c) in x.q ==> !x.wio)
    && (x.starting ==> x.verdict && !x.wio && forall i {:trigger Spoils(x.q[i], c)} :: 0 <= i < |x.q| ==> !Spoils(x.q[i], c))
  }

  /** A decision to stop, or a send, reaches the connection before its attach task. */
  predicate Touches(s: State, step: Step, c: nat)
    requires c < |s.conns|
  {
    s.conns[c].starting && (Stops(s, step) || Sends(s, step, c))
  }

  lemma PushUnspoilt(x: Start, c: nat, t: Task)
    requires Unspoilt(x, c) && t != Attach(c) && (x.starting ==> !Spoils(t, c))
    ensures Unspoilt(x.(q := x.q + [t]), c)
  {
  }

  lemma BeginUnspoilt(x: Start, c: nat)
    requires Unspoilt(x, c) && x.starting
    ensures Unspoilt(x.(q := x.q + [Attach(c)], starting := false), c)
  {
  }

  /** Taking tasks out changes the order of no others. */
  lemma RemoveUnspoilt(x: Start, c: nat, front: seq<Task>, j: seq<Task>, t: Task)
    requires Unspoilt(x, c) && x.q == front + j && t in j
    ensures Unspoilt(x.(q := front + Remove(j, t)), c)
  {
    var k := RemoveSplits(j, t);
    var y := x.(q := front + Remove(j, t));
    forall i | 0 <= i < |y.q|
      ensures y.q[i] == x.q[if i < |front| + k then i else i + 1]
    {
    }
  }

  lemma DropUnspoilt(x: Start, c: nat, k: nat)
    requires Unspoilt(x, c) && k <= |x.q|
    ensures Unspoilt(x.(q := x.q[k..]), c)
  {
    assert forall i :: 0 <= i < |x.q| - k ==> x.q[k..][i] == x.q[i + k];
  }

  /** Executing the task at the front. */
  lemma ExecUnspoilt(x: Start, c: nat, conn: Conn)
    requires Unspoilt(x, c) && x.q != [] && x.q[0] != Halt && conn.wio == x.wio && conn.verdict == x.verdict
    requires conn.starting == x.starting
    ensures var conn' := if x.q[0].c == c then Execute(conn, x.q[0]) else conn;
            Unspoilt(Start(x.q[1..], conn'.starting, conn'.verdict, conn'.wio), c)
  {
    DropUnspoilt(x, c, 1);
    if x.q[0] == StartWrite(c) {
      assert Spoils(x.q[0], c);
      forall k | 1 <= k < |x.q|
        ensures !Attaches(x.q[k], c)
      {
      }
    }
  }

  lemma DecideUnspoilt(w: Worker, starting: bool, verdict: bool, wio: bool, c: nat, d: nat, on: bool)
    requires Unspoilt(Start(Pending(w), starting, verdict, wio), c) && (c == d && starting ==> on)
    ensures Unspoilt(Start(Pending(Decide(w, d, on)), starting, if c == d then on else verdict, wio), c)
  {
    var x := Start(Pending(w), starting, if c == d then on else verdict, wio);
    var t, o := ReadTask(d, on), ReadTask(d, !on);
    var pushed := if InQueue(w, t) then w else Push(w, t);
    if !InQueue(w, t) {
      PushUnspoilt(x, c, t);
      assert Pending(pushed) == Pending(w) + [t];
    }
    if o in pushed.jobs {
      RemoveUnspoilt(x.(q := Pending(pushed)), c, w.cur + w.batch, pushed.jobs, o);
    }
  }

  lemma DecideOneUnspoilt(s: State, d: nat, on: bool, c: nat)
    requires Wired(s) && d < |s.conns| && c < |s.conns| && Unspoilt(StartOf(s, c), c)
    requires c == d && s.conns[c].starting ==> on
    ensures Unspoilt(StartOf(DecideOne(s, d, on), c), c)
  {
    var conn := s.conns[c];
    DecideUnspoilt(s.workers[conn.thr], conn.starting, conn.verdict, conn.wio, c, d, on);
  }

  lemma BulkStarting(s: State, on: bool, n: nat, c: nat)
    requires Wired(s) && n <= |s.conns| && c < |s.conns|
    ensures Bulk(s, on, n).conns[c].starting == s.conns[c].starting
  {
    BulkConns(s, on, n, c);
  }

  lemma NextUnspoilt(t: State, u: State, d: nat, on: bool, c: nat)
    requires Wired(t) && d < |t.conns| && c < |t.conns| && u == DecideOne(t, d, on) && Unspoilt(StartOf(t, c), c)
    requires t.conns[c].starting ==> on
    ensures Unspoilt(StartOf(u, c), c)
  {
    DecideOneUnspoilt(t, d, on, c);
  }

  /** After i turns. */
  ghost predicate UnspoiltAt(s: State, on: bool, i: nat, c: nat)
    requires Wired(s) && i <= |s.conns| && c < |s.conns|
  {
    Unspoilt(StartOf(Bulk(s, on, i), c), c)
  }

  lemma TurnUnspoilt(s: State, on: bool, i: nat, c: nat)
    requires Wired(s) && i < |s.conns| && c < |s.conns| && UnspoiltAt(s, on, i, c)
    requires s.conns[c].starting ==> on
    ensures UnspoiltAt(s, on, i + 1, c)
  {
    BulkNext(s, on, i);
    BulkStarting(s, on, i, c);
    NextUnspoilt(Bulk(s, on, i), Bulk(s, on, i + 1), i, on, c);
  }

  /** `holds[i]`: it is unspoilt after i turns. */
  lemma BulkUnspoilt(s: State, on: bool, n: nat, c: nat)
    requires Wired(s) && n <= |s.conns| && c < |s.conns| && Unspoilt(StartOf(s, c), c)
    requires s.conns[c].starting ==> on
    ensures Unspoilt(StartOf(Bulk(s, on, n), c), c)
  {
    var holds := seq(n + 1, (i: nat) requires i <= n => UnspoiltAt(s, on, i, c));
    assert UnspoiltAt(s, on, 0, c);
    forall i: nat | i < n && holds[i]
      ensures holds[i + 1]
    {
      TurnUnspoilt(s, on, i, c);
    }
    for i := 0 to n
      invariant holds[i]
    {
    }
    assert UnspoiltAt(s, on, n, c);
  }

  lemma StopUnspoilt(s: State, d: nat, frames: seq<Frame>, c: nat)
    requires Wired(s) && d < |s.conns| && c < |s.conns| && Unspoilt(StartOf(s, c), c)
    requires s.conns[c].starting ==> !Stops(s, Read(d, frames))
    ensures c < |ReadStep(s, d, frames).conns| && Wired(ReadStep(s, d, frames))
    ensures Unspoilt(StartOf(ReadStep(s, d, frames), c), c)
  {
    var q := ReadRoot(s.root, d, frames);
    var t := SetConn(s, d, s.conns[d].(parsed := s.conns[d].parsed + frames)).(root := q);
    assert StartOf(t, c) == StartOf(s, c);
    if 0 < q.rcvhwm < q.rcvqsz {
      assert StartOf(Flagged(t, false), c) == StartOf(s, c);
      BulkUnspoilt(Flagged(t, false), false, |t.conns|, c);
    }
  }

  lemma TakeUnspoilt(s: State, u: nat, c: nat)
    requires Wired(s) && u < |s.users| && c < |s.conns| && Unspoilt(StartOf(s, c), c)
    ensures c < |TakeEvent(s, u).conns| && Wired(TakeEvent(s, u))
    ensures Unspoilt(StartOf(TakeEvent(s, u), c), c)
  {
    if s.root.events != [] {
      var t := SetUser(s, u, Ready).(root := TakeRoot(s.root));
      assert StartOf(Flagged(t, true), c) == StartOf(s, c) && StartOf(t, c) == StartOf(s, c);
      BulkUnspoilt(Flagged(t, true), true, |t.conns|, c);
    }
  }

  // the steps of the worker loop

  lemma SwapPending(me: Worker)
    requires Free(me)
    ensures Pending(me.(batch := me.jobs, jobs := [])) == Pending(me)
  {
  }

  lemma PopPending(me: Worker)
    requires me.cur == [] && me.batch != []
    ensures Pending(me.(cur := [me.batch[0]], batch := me.batch[1..])) == Pending(me)
    ensures Pending(me.(batch := [])) == Pending(me)[|me.batch|..]
  {
    assert me.batch == [me.batch[0]] + me.batch[1..];
  }

  /** The worker of connection c became me', with these tasks pending. */
  ghost predicate Becomes(s: State, w: nat, me': Worker, t: State) {
    w < |s.workers| && t.workers == s.workers[w := me'] && t.conns == s.conns
  }

  lemma BecomesUnspoilt(s: State, w: nat, me': Worker, t: State, c: nat)
    requires Wired(s) && c < |s.conns| && Unspoilt(StartOf(s, c), c) && Becomes(s, w, me', t)
    requires s.conns[c].thr == w ==> Unspoilt(StartOf(s, c).(q := Pending(me')), c)
    ensures Wired(t) && c < |t.conns| && Unspoilt(StartOf(t, c), c)
  {
  }

  lemma SwapUnspoilt(s: State, w: nat, c: nat)
    requires Enabled(s, Swap(w)) && c < |s.conns| && Unspoilt(StartOf(s, c), c)
    ensures Wired(Apply(s, Swap(w))) && c < |Apply(s, Swap(w)).conns| && Unspoilt(StartOf(Apply(s, Swap(w)), c), c)
  {
    var me := s.workers[w];
    SwapPending(me);
    BecomesUnspoilt(s, w, me.(batch := me.jobs, jobs := []), Apply(s, Swap(w)), c);
  }

  lemma PopUnspoilt(s: State, w: nat, c: nat)
    requires Enabled(s, Pop(w)) && c < |s.conns| && Unspoilt(StartOf(s, c), c)
    ensures Wired(Apply(s, Pop(w))) && c < |Apply(s, Pop(w)).conns| && Unspoilt(StartOf(Apply(s, Pop(w)), c), c)
  {
    var me, t := s.workers[w], Apply(s, Pop(w));
    PopPending(me);
    if s.conns[c].thr == w {
      DropUnspoilt(StartOf(s, c), c, |me.batch|);
    }
    assert Pending(t.workers[w]) == if me.batch[0] == Halt then Pending(me.(batch := [])) else Pending(me);
    BecomesUnspoilt(s, w, t.workers[w], t, c);
  }

  lemma HaltUnspoilt(s: State, w: nat, c: nat)
    requires Enabled(s, ScheduleHalt(w)) && c < |s.conns| && Unspoilt(StartOf(s, c), c)
    ensures var t := Apply(s, ScheduleHalt(w)); Wired(t) && c < |t.conns| && Unspoilt(StartOf(t, c), c)
  {
    var me := s.workers[w];
    PushUnspoilt(StartOf(s, c), c, Halt);
    assert Pending(me) + [Halt] == Pending(Push(me, Halt));
    BecomesUnspoilt(s, w, Push(me, Halt), Apply(s, ScheduleHalt(w)), c);
  }

  lemma ExecPending(me: Worker)
    requires |me.cur| == 1
    ensures Pending(me) != [] && Pending(me)[0] == me.cur[0]
    ensures Pending(me.(cur := [], done := me.done + [me.cur[0]])) == Pending(me)[1..]
  {
  }

  lemma ExecStepUnspoilt(s: State, w: nat, c: nat)
    requires Enabled(s, Exec(w)) && c < |s.conns| && Unspoilt(StartOf(s, c), c)
    requires Known(s.workers[w].cur[0], w, s.conns)
    ensures var t := Apply(s, Exec(w)); Wired(t) && c < |t.conns| && Unspoilt(StartOf(t, c), c)
  {
    var me, t := s.workers[w], Apply(s, Exec(w));
    var x := me.cur[0];
    ExecPending(me);
    assert t.conns == s.conns[x.c := Execute(s.conns[x.c], x)];
    assert t.workers == s.workers[w := me.(cur := [], done := me.done + [x])];
    if s.conns[c].thr == w {
      ExecUnspoilt(StartOf(s, c), c, s.conns[c]);
    } else {
      assert StartOf(t, c) == StartOf(s, c);
    }
  }

  lemma AttachUnspoilt(s: State, d: nat, c: nat)
    requires Enabled(s, AttachConn(d)) && c < |s.conns| && Unspoilt(StartOf(s, c), c)
    ensures Wired(Apply(s, AttachConn(d))) && c < |Apply(s, AttachConn(d)).conns|
    ensures Unspoilt(StartOf(Apply(s, AttachConn(d)), c), c)
  {
    var me := s.workers[s.conns[d].thr];
    assert Pending(me) + [Attach(d)] == me.cur + me.batch + (me.jobs + [Attach(d)]);
    if c == d {
      BeginUnspoilt(StartOf(s, c), c);
    } else {
      PushUnspoilt(StartOf(s, c), c, Attach(d));
    }
  }

  lemma InsertUnspoilt(s: State, u: nat, c: nat)
    requires Enabled(s, SendInsert(u)) && c < |s.conns| && Unspoilt(StartOf(s, c), c)
    requires !Touches(s, SendInsert(u), c)
    ensures Wired(Apply(s, SendInsert(u))) && c < |Apply(s, SendInsert(u)).conns|
    ensures Unspoilt(StartOf(Apply(s, SendInsert(u)), c), c)
  {
    var d := s.users[u].c;
    var me := s.workers[s.conns[d].thr];
    assert Pending(me) + [StartWrite(d)] == me.cur + me.batch + (me.jobs + [StartWrite(d)]);
    PushUnspoilt(StartOf(s, c), c, StartWrite(d));
  }

  /** The same tasks, and the write watcher active only if it was. */
  predicate Calmer(x: Start, y: Start) {
    y == x.(wio := y.wio) && (y.wio ==> x.wio)
  }

  lemma TestCalmer(s: State, w: nat, c: nat)
    requires Enabled(s, WriteTest(w)) && c < |s.conns|
    ensures var t := Apply(s, WriteTest(w)); Wired(t) && c < |t.conns| && Calmer(StartOf(s, c), StartOf(t, c))
  {
  }

  lemma PutCalmer(s: State, step: Step, c: nat)
    requires Enabled(s, step) && c < |s.conns| && (step.WriteSome? || step.WriteAgain?)
    ensures Wired(Apply(s, step)) && c < |Apply(s, step).conns| && Calmer(StartOf(s, c), StartOf(Apply(s, step), c))
  {
  }

  lemma QuietCalmer(s: State, step: Step, c: nat)
    requires Enabled(s, step) && c < |s.conns| && (step.WriteEnter? || step.WriteAccount? || step.WriteWake?)
    ensures Wired(Apply(s, step)) && c < |Apply(s, step).conns| && StartOf(Apply(s, step), c) == StartOf(s, c)
  {
  }

  lemma StopCalmer(s: State, w: nat, c: nat)
    requires Enabled(s, WriteStop(w)) && c < |s.conns|
    ensures var t := Apply(s, WriteStop(w)); Wired(t) && c < |t.conns| && Calmer(StartOf(s, c), StartOf(t, c))
  {
  }

  lemma WriteCalmer(s: State, step: Step, c: nat)
    requires Enabled(s, step) && c < |s.conns| && WriteStep(step)
    ensures Wired(Apply(s, step)) && c < |Apply(s, step).conns| && Calmer(StartOf(s, c), StartOf(Apply(s, step), c))
  {
    if step.WriteTest? {
      TestCalmer(s, step.w, c);
    } else if step.WriteSome? || step.WriteAgain? {
      PutCalmer(s, step, c);
    } else if step.WriteStop? {
      StopCalmer(s, step.w, c);
    } else {
      QuietCalmer(s, step, c);
    }
  }

  lemma CloseCalmer(s: State, step: Step, c: nat)
    requires Enabled(s, step) && c < |s.conns| && (step.Close? || step.AddConn?)
    ensures Wired(Apply(s, step)) && c < |Apply(s, step).conns| && Calmer(StartOf(s, c), StartOf(Apply(s, step), c))
  {
  }

  lemma CalmerUnspoilt(x: Start, y: Start, c: nat)
    requires Unspoilt(x, c) && Calmer(x, y)
    ensures Unspoilt(y, c)
  {
  }

  lemma UserUnspoilt(s: State, step: Step, c: nat)
    requires Enabled(s, step) && c < |s.conns| && !TakeStep(s, step) && !step.SendInsert?
    requires !WorkerStep(step) && !WriteStep(step) && !step.AddConn? && !step.Read?
    ensures Wired(Apply(s, step)) && c < |Apply(s, step).conns| && StartOf(Apply(s, step), c) == StartOf(s, c)
  {
  }

  lemma LoopUnspoilt(s: State, step: Step, c: nat)
    requires Core(s) && Enabled(s, step) && c < |s.conns| && Unspoilt(StartOf(s, c), c)
    requires step.Swap? || step.Pop? || step.ScheduleHalt? || step.Exec?
    ensures Wired(Apply(s, step)) && c < |Apply(s, step).conns| && Unspoilt(StartOf(Apply(s, step), c), c)
  {
    if step.Swap? {
      SwapUnspoilt(s, step.w, c);
    } else if step.Pop? {
      PopUnspoilt(s, step.w, c);
    } else if step.ScheduleHalt? {
      HaltUnspoilt(s, step.w, c);
    } else {
      var me := s.workers[step.w];
      assert Owns(me, step.w, s.conns) && me.cur[0] in me.cur;
      ExecStepUnspoilt(s, step.w, c);
    }
  }

  lemma WatchUnspoilt(s: State, step: Step, c: nat)
    requires Enabled(s, step) && c < |s.conns| && Unspoilt(StartOf(s, c), c)
    requires WriteStep(step) || step.Close? || step.AddConn?
    ensures Wired(Apply(s, step)) && c < |Apply(s, step).conns| && Unspoilt(StartOf(Apply(s, step), c), c)
  {
    if WriteStep(step) {
      WriteCalmer(s, step, c);
    } else {
      CloseCalmer(s, step, c);
    }
    CalmerUnspoilt(StartOf(s, c), StartOf(Apply(s, step), c), c);
  }

  lemma ThreadUnspoilt(s: State, step: Step, c: nat)
    requires Enabled(s, step) && c < |s.conns| && Unspoilt(StartOf(s, c), c) && !Touches(s, step, c)
    requires !WorkerStep(step) && !WriteStep(step) && !step.AddConn?
    ensures Wired(Apply(s, step)) && c < |Apply(s, step).conns| && Unspoilt(StartOf(Apply(s, step), c), c)
  {
    if step.SendInsert? {
      InsertUnspoilt(s, step.u, c);
    } else if step.Read? {
      StopUnspoilt(s, step.c, step.frames, c);
    } else if TakeStep(s, step) {
      TakeUnspoilt(s, step.u, c);
    } else {
      UserUnspoilt(s, step, c);
    }
  }

  lemma UnspoiltStep(s: State, step: Step, c: nat)
    requires Core(s) && Enabled(s, step) && c < |s.conns| && Unspoilt(StartOf(s, c), c) && !Touches(s, step, c)
    ensures Wired(Apply(s, step)) && c < |Apply(s, step).conns| && Unspoilt(StartOf(Apply(s, step), c), c)
  {
    if step.Swap? || step.Pop? || step.ScheduleHalt? || step.Exec? {
      LoopUnspoilt(s, step, c);
    } else if step.AttachConn? {
      AttachUnspoilt(s, step.c, c);
    } else if WriteStep(step) || step.Close? || step.AddConn? {
      WatchUnspoilt(s, step, c);
    } else {
      ThreadUnspoilt(s, step, c);
    }
  }

  /** Nothing is pending for a connection that was just added. */
  lemma NewUnspoilt(s: State, step: Step)
    requires Core(s) && Enabled(s, step) && step.AddConn?
    ensures Wired(Apply(s, step)) && |Apply(s, step).conns| == |s.conns| + 1
    ensures Unspoilt(StartOf(Apply(s, step), |s.conns|), |s.conns|)
  {
    var me, c := s.workers[step.thr], |s.conns|;
    assert Owns(me, step.thr, s.conns);
    forall i | 0 <= i < |Pending(me)|
      ensures !Spoils(Pending(me)[i], c) && Pending(me)[i] != Attach(c)
    {
      var t := Pending(me)[i];
      assert t in me.cur || t in me.batch || t in me.jobs;
      assert Known(t, step.thr, s.conns);
    }
  }

  /** Neither of the two steps can happen then. */
  lemma UnspoiltIsSafe(s: State, step: Step, c: nat)
    requires Enabled(s, step) && c < |s.conns| && Unspoilt(StartOf(s, c), c)
    requires step.Exec? ==> Core(s)
    ensures !Crossing(s, step, c) && !Cutting(s, step, c)
  {
    var w := s.workers[s.conns[c].thr];
    if Overtaken(s.conns[c], w, c, false) {
      var i :| 0 <= i < |w.batch| && w.batch[i] == StopRead(c);
      var k :| 0 <= k < |w.jobs| && w.jobs[k] == Attach(c);
      assert Pending(w)[|w.cur| + i] == StopRead(c) && Pending(w)[|w.cur + w.batch| + k] == Attach(c);
      assert Spoils(Pending(w)[|w.cur| + i], c) && Attaches(Pending(w)[|w.cur + w.batch| + k], c);
    }
    if step.Exec? && s.workers[step.w].cur == [Attach(c)] {
      assert Owns(s.workers[step.w], step.w, s.conns) && Attach(c) in s.workers[step.w].cur;
      assert Known(Attach(c), step.w, s.conns);
      assert Pending(s.workers[step.w])[0] == Attach(c);
    }
  }

  predicate LeftAlone(s: State, steps: seq<Step>, c: nat)
    requires Valid(s, steps)
    decreases |steps|
  {
    steps == [] || (!(c < |s.conns| && Touches(s, steps[0], c)) && LeftAlone(Apply(s, steps[0]), steps[1..], c))
  }

  /** With no decision to stop and no send on it between its table entry and its attach task, a
      connection meets neither of the two steps, whatever comes afterwards. */
  lemma {:induction false} SafeIfLeftAlone(s: State, steps: seq<Step>, c: nat)
    requires Core(s) && Valid(s, steps) && LeftAlone(s, steps, c)
    requires c < |s.conns| ==> Unspoilt(StartOf(s, c), c)
    ensures NeverCrossed(s, steps, c) && NeverCut(s, steps, c)
    decreases |steps|
  {
    if steps != [] {
      var t := Apply(s, steps[0]);
      CoreStep(s, steps[0]);
      if c < |s.conns| {
        UnspoiltIsSafe(s, steps[0], c);
        UnspoiltStep(s, steps[0], c);
      } else if c < |t.conns| {
        OnlyAdded(s, steps[0]);
        NewUnspoilt(s, steps[0]);
      }
      SafeIfLeftAlone(t, steps[1..], c);
    }
  }

  lemma OnlyAdded(s: State, step: Step)
    requires Enabled(s, step) && |s.conns| < |Apply(s, step).conns|
    ensures step.AddConn? && |Apply(s, step).conns| == |s.conns| + 1
  {
  }
}
