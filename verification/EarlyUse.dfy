/** Whole runs, from a fresh socket, in which other threads find a connection in the table before
    its attach task is scheduled (src/core/global.c:179-186); the exact conditions are in
    Attaching. */
module EarlyUse {
  import opened Machine
  import opened Shortfalls

  // ---- a send in between -------------------------------------------------------------------------

  /** The connection with its frame, and worker 0 with its write task. */
  function Early(starting: bool): Conn {
    NewConn(0, false).(starting := starting, writing := true, ol := OutList([1], 0), sent := [1])
  }

  function Writer(): Worker {
    InitWorker().(jobs := [StartWrite(0)], log := [Entry(StartWrite(0), false)])
  }

  function Both(): Worker {
    InitWorker().(jobs := [StartWrite(0), Attach(0)], log := [Entry(StartWrite(0), false), Entry(Attach(0), false)])
  }

  lemma InsertsEarly(s: State, root: Root)
    requires Reachable(s, Setting(root, NewConn(0, false), InitWorker(), [Insert(0, 1), Ready]))
    ensures Reachable(s, Setting(root, Early(true), Writer(), [User.Count, Ready]))
  {
    var conn, users := NewConn(0, false), [Insert(0, 1), Ready];
    assert InsertedConn(conn, 1) == Early(true) by {
      assert [] + [1] == [1];
    }
    assert Push(InitWorker(), StartWrite(0)) == Writer() by {
      assert [] + [StartWrite(0)] == [StartWrite(0)] && [] + [Entry(StartWrite(0), false)] == [Entry(StartWrite(0), false)];
    }
    Settings(root, conn, Early(true), InitWorker(), InitWorker(), users);
    Settings(root, Early(true), Early(true), InitWorker(), Writer(), [User.Count, Ready]);
    assert users[0 := User.Count] == [User.Count, Ready];
    Then(s, Setting(root, conn, InitWorker(), users), SendInsert(0));
  }

  lemma AttachesLate(s: State, root: Root, users: seq<User>)
    requires Reachable(s, Setting(root, Early(true), Writer(), users))
    ensures Reachable(s, Setting(root, Early(false), Both(), users))
  {
    assert Push(Writer(), Attach(0)) == Both() by {
      assert [StartWrite(0)] + [Attach(0)] == [StartWrite(0), Attach(0)];
      assert [Entry(StartWrite(0), false)] + [Entry(Attach(0), false)] == Both().log;
    }
    Settings(root, Early(true), Early(false), Writer(), Writer(), users);
    Settings(root, Early(false), Early(false), Writer(), Both(), users);
    Then(s, Setting(root, Early(true), Writer(), users), AttachConn(0));
  }

  /** The write task runs first and starts the watcher, the attach task then takes the watcher
      away: the frame waits, the token is held, and nothing will ever give it back. */
  lemma WatcherCut()
    ensures Reachable(Init(0, 0, 2), Setting(Sending(0, 1, false), Early(false).(rio := true, cut := true),
              Both().(jobs := [], done := [StartWrite(0), Attach(0)]), [Ready, Ready]))
  {
    var s, root, users := Init(0, 0, 2), Sending(0, 1, false), [Ready, Ready];
    assert s.users == users;
    Adds(s);
    Passes(s, Setting(s.root, NewConn(0, false), InitWorker(), users), 0, 1);
    assert users[0 := Insert(0, 1)] == [Insert(0, 1), Ready];
    InsertsEarly(s, s.root);
    Counted(s, 0, 0, Early(true), Writer(), [User.Count, Ready], 0);
    assert [User.Count, Ready][0 := Ready] == users;
    AttachesLate(s, root, users);
    RunsBoth(s, root, users);
  }

  lemma RunsBoth(s: State, root: Root, users: seq<User>)
    requires Reachable(s, Setting(root, Early(false), Both(), users))
    ensures Reachable(s, Setting(root, Early(false).(rio := true, cut := true),
                                 Both().(jobs := [], done := [StartWrite(0), Attach(0)]), users))
  {
    var idle, tasks := Both().(jobs := []), [StartWrite(0), Attach(0)];
    assert tasks[1..] == [Attach(0)] && [Attach(0)][1..] == [];
    Swaps(s, root, Early(false), Both(), users);
    Pops(s, root, Early(false), idle.(batch := tasks), users);
    Executes(s, root, Early(false), idle.(cur := [StartWrite(0)], batch := [Attach(0)]), users, StartWrite(0));
    var started, half := Early(false).(wio := true), idle.(batch := [Attach(0)], done := [StartWrite(0)]);
    assert [] + [StartWrite(0)] == [StartWrite(0)] && [StartWrite(0)] + [Attach(0)] == tasks;
    Pops(s, root, started, half, users);
    Executes(s, root, started, half.(cur := [Attach(0)], batch := []), users, Attach(0));
  }

  // ---- a decision in between ---------------------------------------------------------------------

  /** Two connections, the second one on worker 1. */
  function Two(root: Root, first: Conn, second: Conn, w0: Worker, w1: Worker): State {
    State(root, [first, second], [w0, w1, InitWorker(), InitWorker()], [Ready], NoFault)
  }

  lemma Twos(root: Root, a: Conn, b: Conn, b': Conn, w0: Worker, w1: Worker, w1': Worker)
    ensures SetConn(Two(root, a, b, w0, w1), 1, b') == Two(root, a, b', w0, w1)
    ensures SetWorker(Two(root, a, b, w0, w1), 1, w1') == Two(root, a, b, w0, w1')
  {
    assert [a, b][1 := b'] == [a, b'];
    var workers := [w0, w1, InitWorker(), InitWorker()];
    assert workers[1 := w1'] == [w0, w1', InitWorker(), InitWorker()];
  }

  lemma DecidesBoth(root: Root, a: Conn, b: Conn, w0: Worker, w1: Worker, on: bool)
    requires a.thr == 0 && b.thr == 1
    ensures Bulk(Two(root, a, b, w0, w1), on, 2)
         == Two(root, DecidedConn(a, w0, 0, on), DecidedConn(b, w1, 1, on), Decide(w0, 0, on), Decide(w1, 1, on))
  {
    var t, a', w0' := Two(root, a, b, w0, w1), DecidedConn(a, w0, 0, on), Decide(w0, 0, on);
    assert t.conns[0 := a'] == [a', b] && t.workers[0 := w0'] == [w0', w1, InitWorker(), InitWorker()];
    assert Bulk(t, on, 1) == DecideOne(t, 0, on) == Two(root, a', b, w0', w1);
    var b', w1' := DecidedConn(b, w1, 1, on), Decide(w1, 1, on);
    Twos(root, a', b, b', w0', w1, w1);
    Twos(root, a', b', b', w0', w1, w1');
  }

  /** The root with a receive mark of 1, before and after two frames came. */
  function Empty(): Root {
    Root(0, 1, 0, 0, false, false, false, 0, false, [], [], 0)
  }

  function Over(): Root {
    Empty().(rcvqsz := 2, events := [Event(0, 5), Event(0, 6)], stopRead := true, decided := 2)
  }

  function Second(starting: bool, rio: bool): Conn {
    NewConn(1, false).(starting := starting, rio := rio, verdict := false, crossed := !starting)
  }

  /** Worker 1 with these tasks of connection 1, of the two that were scheduled. */
  function Late(jobs: seq<Task>, batch: seq<Task>, cur: seq<Task>, done: seq<Task>): Worker {
    Worker(jobs, batch, cur, Idle, false, [Entry(StopRead(1), false), Entry(Attach(1), false)], done, [])
  }

  function Stopping(c: nat, me: Worker): Worker {
    me.(jobs := [StopRead(c)], log := me.log + [Entry(StopRead(c), false)])
  }

  lemma SecondAdded(s: State)
    requires s == Init(0, 1, 1)
    ensures Reachable(s, Two(Empty(), Attached(true), NewConn(1, false), Served(), InitWorker()))
  {
    var me := Worker([Attach(0)], [], [], Idle, false, [Entry(Attach(0), false)], [], []);
    assert s.users == [Ready] && s.root == Empty();
    Connects(s);
    TaskRuns(s, Empty(), Attached(false), me, [Ready]);
    assert [] + [Attach(0)] == [Attach(0)];
    var m := Setting(Empty(), Attached(true), Served(), [Ready]);
    assert m.conns + [NewConn(1, false)] == [Attached(true), NewConn(1, false)];
    Then(s, m, AddConn(1, false));
  }

  /** Two frames on the first connection reach the mark: both connections are to stop. */
  lemma MarkReached(s: State)
    requires Reachable(s, Two(Empty(), Attached(true), NewConn(1, false), Served(), InitWorker()))
    ensures Reachable(s, Two(Over(), Attached(true).(parsed := [5, 6], verdict := false), Second(true, false),
                             Stopping(0, Served()), Stopping(1, InitWorker())))
  {
    var m := Two(Empty(), Attached(true), NewConn(1, false), Served(), InitWorker());
    var first := Attached(true).(parsed := [5, 6]);
    var t := Two(Over(), first, NewConn(1, false), Served(), InitWorker());
    TwoFrames(m, t);
    BothStop(t, first);
    Then(s, m, Read(0, [5, 6]));
  }

  lemma TwoFrames(m: State, t: State)
    requires m == Two(Empty(), Attached(true), NewConn(1, false), Served(), InitWorker())
    requires t == Two(Over(), Attached(true).(parsed := [5, 6]), NewConn(1, false), Served(), InitWorker())
    ensures ReadStep(m, 0, [5, 6]) == Bulk(t, false, 2)
  {
    var frames := [5, 6];
    assert frames[1..] == [6] && [6][1..] == [] && [Event(0, 5)] + [Event(0, 6)] == [Event(0, 5), Event(0, 6)];
    assert Batch(0, frames) == [Event(0, 5), Event(0, 6)] by {
      assert Batch(0, [6]) == [Event(0, 6)];
    }
    assert [] + frames == frames && [] + Batch(0, frames) == Batch(0, frames);
    assert m.conns[0 := Attached(true).(parsed := frames)] == t.conns;
    assert Flagged(t.(root := ReadRoot(Empty(), 0, frames)), false) == t;
  }

  lemma BothStop(t: State, first: Conn)
    requires first == Attached(true).(parsed := [5, 6])
    requires t == Two(Over(), first, NewConn(1, false), Served(), InitWorker())
    ensures Bulk(t, false, 2) == Two(Over(), first.(verdict := false), Second(true, false),
                                     Stopping(0, Served()), Stopping(1, InitWorker()))
  {
    DecidesBoth(Over(), first, NewConn(1, false), Served(), InitWorker(), false);
    assert [] + [StopRead(0)] == [StopRead(0)] && [] + [StopRead(1)] == [StopRead(1)];
    assert Decide(Served(), 0, false) == Stopping(0, Served()) && Decide(InitWorker(), 1, false) == Stopping(1, InitWorker());
  }

  // worker 1, step by step, whatever worker 0 and the first connection are

  lemma AttachesBehind(s: State, first: Conn, w0: Worker)
    requires first.thr == 0 && Reachable(s, Two(Over(), first, Second(true, false), w0, Stopping(1, InitWorker())))
    ensures Reachable(s, Two(Over(), first, Second(false, false), w0, Late([StopRead(1), Attach(1)], [], [], [])))
  {
    var me := Stopping(1, InitWorker());
    assert Push(me, Attach(1)) == Late([StopRead(1), Attach(1)], [], [], []) by {
      assert [StopRead(1)] + [Attach(1)] == [StopRead(1), Attach(1)];
      assert [] + [Entry(StopRead(1), false)] + [Entry(Attach(1), false)] == [Entry(StopRead(1), false), Entry(Attach(1), false)];
    }
    Twos(Over(), first, Second(true, false), Second(false, false), w0, me, me);
    Twos(Over(), first, Second(false, false), Second(false, false), w0, me, Push(me, Attach(1)));
    Then(s, Two(Over(), first, Second(true, false), w0, me), AttachConn(1));
  }

  lemma SwapsLate(s: State, first: Conn, w0: Worker, q: seq<Task>)
    requires first.thr == 0 && Reachable(s, Two(Over(), first, Second(false, false), w0, Late(q, [], [], [])))
    ensures Reachable(s, Two(Over(), first, Second(false, false), w0, Late([], q, [], [])))
  {
    Twos(Over(), first, Second(false, false), Second(false, false), w0, Late(q, [], [], []), Late([], q, [], []));
    Then(s, Two(Over(), first, Second(false, false), w0, Late(q, [], [], [])), Swap(1));
  }

  lemma RunsLate(s: State, first: Conn, w0: Worker, rio: bool, x: Task, rest: seq<Task>, done: seq<Task>)
    requires x == StopRead(1) || x == Attach(1)
    requires first.thr == 0 && Reachable(s, Two(Over(), first, Second(false, rio), w0, Late([], [x] + rest, [], done)))
    ensures Reachable(s, Two(Over(), first, Second(false, x.Attach?), w0, Late([], rest, [], done + [x])))
  {
    var b, b', w, u := Second(false, rio), Second(false, x.Attach?), Late([], [x] + rest, [], done), Late([], rest, [x], done);
    assert ([x] + rest)[0] == x && ([x] + rest)[1..] == rest;
    Twos(Over(), first, b, b, w0, w, u);
    Then(s, Two(Over(), first, b, w0, w), Pop(1));
    RunsOne(s, first, w0, b, x, rest, done);
  }

  lemma RunsOne(s: State, first: Conn, w0: Worker, b: Conn, x: Task, rest: seq<Task>, done: seq<Task>)
    requires (x == StopRead(1) || x == Attach(1)) && b.thr == 1 && first.thr == 0
    requires Reachable(s, Two(Over(), first, b, w0, Late([], rest, [x], done)))
    ensures Reachable(s, Two(Over(), first, Execute(b, x), w0, Late([], rest, [], done + [x])))
  {
    var u := Late([], rest, [x], done);
    Twos(Over(), first, b, Execute(b, x), w0, u, u);
    Twos(Over(), first, Execute(b, x), b, w0, u, Late([], rest, [], done + [x]));
    Then(s, Two(Over(), first, b, w0, u), Exec(1));
  }

  /** The second connection is in the table, and not attached, when the mark is reached; its
      attach task then stands behind the stop task. In the end reading is stopped, the decision
      covers both connections, nothing is pending for the second one, and it is being read. */
  lemma StopUndone()
    ensures Reachable(Init(0, 1, 1), Two(Over(), Attached(true).(parsed := [5, 6], verdict := false), Second(false, true),
              Stopping(0, Served()), Late([], [], [], [StopRead(1), Attach(1)])))
  {
    var s, first, w0 := Init(0, 1, 1), Attached(true).(parsed := [5, 6], verdict := false), Stopping(0, Served());
    SecondAdded(s);
    MarkReached(s);
    AttachesBehind(s, first, w0);
    SwapsLate(s, first, w0, [StopRead(1), Attach(1)]);
    assert [StopRead(1)] + [Attach(1)] == [StopRead(1), Attach(1)] && [Attach(1)] + [] == [Attach(1)];
    RunsLate(s, first, w0, false, StopRead(1), [Attach(1)], []);
    assert [] + [StopRead(1)] == [StopRead(1)];
    RunsLate(s, first, w0, false, Attach(1), [], [StopRead(1)]);
  }

  // ---- a decision that relies on an earlier stop task ----------------------------------------------

  /** Some state with this root, second connection and worker 1, in which the first connection can
      be read. */
  ghost predicate Comes(s: State, root: Root, b: Conn, w1: Worker) {
    exists a: Conn, w0: Worker ::
      a.thr == 0 && a.rio && Free(w0) && b.thr == 1 && Reachable(s, Two(root, a, b, w0, w1))
  }

  lemma First(s: State, root: Root, b: Conn, w1: Worker) returns (a: Conn, w0: Worker)
    requires Comes(s, root, b, w1)
    ensures a.thr == 0 && a.rio && Free(w0) && b.thr == 1 && Reachable(s, Two(root, a, b, w0, w1))
  {
    a, w0 :| a.thr == 0 && a.rio && Free(w0) && b.thr == 1 && Reachable(s, Two(root, a, b, w0, w1));
  }

  lemma DecidesWith(s: State, root: Root, a: Conn, b: Conn, w0: Worker, w1: Worker, on: bool)
    requires a.thr == 0 && a.rio && Free(w0) && b.thr == 1
    requires Reachable(s, DecideAll(Two(root, a, b, w0, w1), on))
    ensures Comes(s, root.(stopRead := !on, decided := 2), DecidedConn(b, w1, 1, on), Decide(w1, 1, on))
  {
    var r := root.(stopRead := !on, decided := 2);
    assert Flagged(Two(root, a, b, w0, w1), on) == Two(r, a, b, w0, w1);
    DecidesBoth(r, a, b, w0, w1, on);
    DecideFrame(w0, 0, on);
    assert DecidedConn(a, w0, 0, on).thr == 0 && DecidedConn(a, w0, 0, on).rio && Free(Decide(w0, 0, on));
  }

  /** The first connection's frames reach the mark. */
  lemma StopComes(s: State, root: Root, b: Conn, w1: Worker, frames: seq<Frame>)
    requires Comes(s, root, b, w1) && 0 < root.rcvhwm < ReadRoot(root, 0, frames).rcvqsz
    ensures Comes(s, ReadRoot(root, 0, frames).(stopRead := true, decided := 2), DecidedConn(b, w1, 1, false),
                  Decide(w1, 1, false))
  {
    var a, w0 := First(s, root, b, w1);
    var m, a' := Two(root, a, b, w0, w1), a.(parsed := a.parsed + frames);
    assert m.conns[0 := a'] == [a', b];
    Then(s, m, Read(0, frames));
    DecidesWith(s, ReadRoot(root, 0, frames), a', b, w0, w1, false);
  }

  lemma TakeComes(s: State, root: Root, b: Conn, w1: Worker)
    requires Comes(s, root, b, w1) && root.events != [] && !(0 < root.rcvhwm && root.rcvqsz - 1 < root.rcvhwm)
    ensures Comes(s, TakeRoot(root), b, w1)
  {
    var a, w0 := First(s, root, b, w1);
    Then(s, Two(root, a, b, w0, w1), GetEnter(0, false));
    assert [Ready][0 := Ready] == [Ready];
    assert Apply(Two(root, a, b, w0, w1), GetEnter(0, false)) == Two(TakeRoot(root), a, b, w0, w1);
  }

  lemma RestartComes(s: State, root: Root, b: Conn, w1: Worker)
    requires Comes(s, root, b, w1) && root.events != [] && root.stopRead && 0 < root.rcvhwm && root.rcvqsz - 1 < root.rcvhwm
    ensures Comes(s, TakeRoot(root).(stopRead := false, decided := 2), DecidedConn(b, w1, 1, true), Decide(w1, 1, true))
  {
    var a, w0 := First(s, root, b, w1);
    Then(s, Two(root, a, b, w0, w1), GetEnter(0, false));
    assert [Ready][0 := Ready] == [Ready];
    DecidesWith(s, TakeRoot(root), a, b, w0, w1, true);
  }

  lemma AttachComes(s: State, root: Root, b: Conn, w1: Worker)
    requires Comes(s, root, b, w1) && b.starting
    ensures Comes(s, root, StartedConn(b, w1), Push(w1, Attach(1)))
  {
    var a, w0 := First(s, root, b, w1);
    Twos(root, a, b, StartedConn(b, w1), w0, w1, w1);
    Twos(root, a, StartedConn(b, w1), b, w0, w1, Push(w1, Attach(1)));
    Then(s, Two(root, a, b, w0, w1), AttachConn(1));
  }

  lemma SwapComes(s: State, root: Root, b: Conn, w1: Worker)
    requires Comes(s, root, b, w1) && Free(w1)
    ensures Comes(s, root, b, w1.(batch := w1.jobs, jobs := []))
  {
    var a, w0 := First(s, root, b, w1);
    Twos(root, a, b, b, w0, w1, w1.(batch := w1.jobs, jobs := []));
    Then(s, Two(root, a, b, w0, w1), Swap(1));
  }

  lemma PopComes(s: State, root: Root, b: Conn, w1: Worker)
    requires Comes(s, root, b, w1) && !w1.halted && w1.cur == [] && w1.batch != [] && w1.batch[0] != Halt
    ensures Comes(s, root, b, w1.(cur := [w1.batch[0]], batch := w1.batch[1..]))
  {
    var a, w0 := First(s, root, b, w1);
    Twos(root, a, b, b, w0, w1, w1.(cur := [w1.batch[0]], batch := w1.batch[1..]));
    Then(s, Two(root, a, b, w0, w1), Pop(1));
  }

  lemma ExecComes(s: State, root: Root, b: Conn, w1: Worker, x: Task)
    requires Comes(s, root, b, w1) && w1.cur == [x] && x != Halt && x.c == 1
    ensures Comes(s, root, Execute(b, x), w1.(cur := [], done := w1.done + [x]))
  {
    var a, w0 := First(s, root, b, w1);
    Twos(root, a, b, Execute(b, x), w0, w1, w1);
    Twos(root, a, Execute(b, x), b, w0, w1, w1.(cur := [], done := w1.done + [x]));
    Then(s, Two(root, a, b, w0, w1), Exec(1));
  }

  /** Worker 1 with its first stop task in the batch. */
  function Taken(jobs: seq<Task>, more: seq<Entry>): Worker {
    Worker(jobs, [StopRead(1)], [], Idle, false, [Entry(StopRead(1), false)] + more, [], [])
  }

  /** The root after the two events of the first batch were handed out, and after two more came. */
  function HandedOut(): Root {
    Empty().(taken := [Event(0, 5), Event(0, 6)], decided := 2)
  }

  function OverAgain(): Root {
    HandedOut().(rcvqsz := 2, events := [Event(0, 7), Event(0, 8)], stopRead := true)
  }

  /** Worker 1 takes its stop task into the batch, and one event is handed out. */
  lemma BatchTaken(s: State)
    requires Comes(s, Over(), Second(true, false), Stopping(1, InitWorker()))
    ensures Comes(s, TakeRoot(Over()), Second(true, false), Taken([], []))
  {
    assert [] + [Entry(StopRead(1), false)] == [Entry(StopRead(1), false)] + [];
    SwapComes(s, Over(), Second(true, false), Stopping(1, InitWorker()));
    TakeComes(s, Over(), Second(true, false), Taken([], []));
  }

  /** Then the other one, which restarts reading. */
  lemma Restarts(s: State)
    requires Comes(s, TakeRoot(Over()), Second(true, false), Taken([], []))
    ensures Comes(s, HandedOut(), Second(true, false).(verdict := true), Taken([StartRead(1)], [Entry(StartRead(1), false)]))
  {
    var w, half := Taken([], []), TakeRoot(Over());
    assert half.events == [Event(0, 6)] && half.taken == [Event(0, 5)];
    RestartComes(s, half, Second(true, false), w);
    assert TakeRoot(half).events == [] && TakeRoot(half).taken == [Event(0, 5), Event(0, 6)];
    assert Decide(w, 1, true) == Taken([StartRead(1)], [Entry(StartRead(1), false)]) by {
      assert [] + [StartRead(1)] == [StartRead(1)] && w.log + [Entry(StartRead(1), false)]
          == [Entry(StopRead(1), false)] + [Entry(StartRead(1), false)];
    }
  }

  lemma StopsAgain(s: State, b: Conn)
    requires b == Second(true, false).(verdict := true)
    requires Comes(s, HandedOut(), b, Taken([StartRead(1)], [Entry(StartRead(1), false)]))
    ensures Comes(s, OverAgain(), Second(false, false),
                  Taken([Attach(1)], [Entry(StartRead(1), true), Entry(Attach(1), false)]))
  {
    var w, e, x := Taken([StartRead(1)], [Entry(StartRead(1), false)]), Entry(StartRead(1), false), Entry(Attach(1), false);
    var pushed, left := Taken([StartRead(1), Attach(1)], [e, x]), Taken([Attach(1)], [Entry(StartRead(1), true), x]);
    assert [StartRead(1)] + [Attach(1)] == [StartRead(1), Attach(1)] && w.log + [x] == pushed.log;
    AttachComes(s, HandedOut(), b, w);
    assert ReadRoot(HandedOut(), 0, [7, 8]).(stopRead := true) == OverAgain() by {
      assert [7, 8][1..] == [8] && [8][1..] == [] && [Event(0, 7)] + [Event(0, 8)] == [Event(0, 7), Event(0, 8)];
      assert Batch(0, [8]) == [Event(0, 8)] && [] + Batch(0, [7, 8]) == Batch(0, [7, 8]);
    }
    StopComes(s, HandedOut(), StartedConn(b, w), pushed, [7, 8]);
    CancelsStart(pushed, left);
  }

  lemma CancelsStart(w: Worker, left: Worker)
    requires w == Taken([StartRead(1), Attach(1)], [Entry(StartRead(1), false), Entry(Attach(1), false)])
    requires left == Taken([Attach(1)], [Entry(StartRead(1), true), Entry(Attach(1), false)])
    ensures Decide(w, 1, false) == left
  {
    var stop, start, attach := Entry(StopRead(1), false), Entry(StartRead(1), false), Entry(Attach(1), false);
    assert [StartRead(1), Attach(1)][1..] == [Attach(1)];
    assert w.log == [stop, start, attach] && w.log[..2] == [stop, start] && [stop, start][..1] == [stop];
    assert Strike([stop, start], StartRead(1)) == [stop, Entry(StartRead(1), true)];
  }

  /** A batch of one task is taken and executed. */
  lemma OneRuns(s: State, root: Root, b: Conn, w1: Worker, x: Task)
    requires Comes(s, root, b, w1) && !w1.halted && w1.cur == [] && w1.batch == [x] && x != Halt && x.c == 1
    ensures Comes(s, root, Execute(b, x), w1.(batch := [], done := w1.done + [x]))
  {
    assert [x][1..] == [];
    PopComes(s, root, b, w1);
    ExecComes(s, root, b, w1.(cur := [x], batch := []), x);
  }

  lemma BothRun(s: State)
    requires Comes(s, OverAgain(), Second(false, false),
                   Taken([Attach(1)], [Entry(StartRead(1), true), Entry(Attach(1), false)]))
    ensures Comes(s, OverAgain(), Second(false, true),
                  Taken([], [Entry(StartRead(1), true), Entry(Attach(1), false)])
                    .(batch := [], done := [StopRead(1), Attach(1)]))
  {
    var b, w := Second(false, false), Taken([Attach(1)], [Entry(StartRead(1), true), Entry(Attach(1), false)]);
    assert [] + [StopRead(1)] == [StopRead(1)] && [StopRead(1)] + [Attach(1)] == [StopRead(1), Attach(1)];
    OneRuns(s, OverAgain(), b, w, StopRead(1));
    var stopped := w.(batch := [], done := [StopRead(1)]);
    SwapComes(s, OverAgain(), b, stopped);
    OneRuns(s, OverAgain(), b, stopped.(batch := [Attach(1)], jobs := []), Attach(1));
  }

  /** A stop task of the second connection waits in its worker's batch when reading is restarted,
      the attach task is scheduled, and reading is to stop again: the decision relies on that stop
      task, and the attach task behind it undoes it. */
  lemma StopOvertaken()
    ensures Comes(Init(0, 1, 1), OverAgain(), Second(false, true),
                  Taken([], [Entry(StartRead(1), true), Entry(Attach(1), false)])
                    .(batch := [], done := [StopRead(1), Attach(1)]))
  {
    var s, b := Init(0, 1, 1), Second(false, false);
    SecondAdded(s);
    MarkReached(s);
    assert Comes(s, Over(), Second(true, false), Stopping(1, InitWorker())) by {
      var first := Attached(true).(parsed := [5, 6], verdict := false);
      assert first.thr == 0 && first.rio && Free(Stopping(0, Served()));
    }
    BatchTaken(s);
    Restarts(s);
    StopsAgain(s, Second(true, false).(verdict := true));
    BothRun(s);
  }
}
