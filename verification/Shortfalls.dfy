/** Whole runs, from a fresh socket, in which the code misses its intent. Under which condition
    exactly a run does is stated in Theorems, with the step behind it in Senders, Sleepers,
    DontWait and WakeUps. */
module Shortfalls {
  import opened Machine
  import WakeUps

  ghost predicate Reachable(s: State, t: State) {
    exists steps :: Valid(s, steps) && Run(s, steps) == t
  }

  lemma Start(s: State)
    ensures Reachable(s, s)
  {
    assert Valid(s, []) && Run(s, []) == s;
  }

  lemma Then(s: State, m: State, step: Step)
    requires Reachable(s, m) && Enabled(m, step)
    ensures Reachable(s, Apply(m, step))
  {
    var steps :| Valid(s, steps) && Run(s, steps) == m;
    RunSnoc(s, steps, step);
  }

  // ---- the states of these runs: one connection on worker 0, two users ---------------------------

  function Setting(root: Root, conn: Conn, me: Worker, users: seq<User>): State {
    State(root, [conn], [me, InitWorker(), InitWorker(), InitWorker()], users, NoFault)
  }

  lemma Settings(root: Root, conn: Conn, conn': Conn, me: Worker, me': Worker, users: seq<User>)
    ensures SetConn(Setting(root, conn, me, users), 0, conn') == Setting(root, conn', me, users)
    ensures SetWorker(Setting(root, conn, me, users), 0, me') == Setting(root, conn, me', users)
  {
    assert [conn][0 := conn'] == [conn'];
    var workers := [me, InitWorker(), InitWorker(), InitWorker()];
    assert workers[0 := me'] == [me', InitWorker(), InitWorker(), InitWorker()];
  }

  function Sending(hwm: int, qsz: int, stop: bool): Root {
    Root(hwm, 0, qsz, 0, false, stop, false, 0, false, [], [], 0)
  }

  /** An open connection whose token is held by its write watcher. */
  function Writable(ol: OutList, sent: seq<Frame>, written: seq<Frame>): Conn {
    Conn(0, false, false, false, true, true, true, ol, true, false, false, sent, written, 0, [])
  }

  function Attached(rio: bool): Conn {
    NewConn(0, false).(starting := false, rio := rio)
  }

  /** Worker 0 after the attach task. */
  function Served(): Worker {
    Worker([], [], [], Idle, false, [Entry(Attach(0), false)], [Attach(0)], [])
  }

  /** Worker 0 after the first write task, in its write handler. */
  function Busy(hand: Handler): Worker {
    Worker([], [], [], hand, false, [Entry(Attach(0), false), Entry(StartWrite(0), false)], [Attach(0), StartWrite(0)], [])
  }

  // ---- up to the first frame in the write handler ---------------------------------------------------

  function Opened(hwm: int): State {
    Setting(Sending(hwm, 0, false), Attached(true), Served(), [Ready, Ready])
  }

  lemma Opens(hwm: int)
    ensures Reachable(Init(hwm, 0, 2), Opened(hwm))
  {
    var s, me := Init(hwm, 0, 2), Worker([Attach(0)], [], [], Idle, false, [Entry(Attach(0), false)], [], []);
    assert s.users == [Ready, Ready];
    Connects(s);
    TaskRuns(s, Sending(hwm, 0, false), Attached(false), me, [Ready, Ready]);
    assert [] + [Attach(0)] == [Attach(0)];
  }

  lemma Adds(s: State)
    requires s == Init(s.root.sndhwm, s.root.rcvhwm, |s.users|)
    ensures Reachable(s, Setting(s.root, NewConn(0, false), InitWorker(), s.users))
  {
    assert [] + [NewConn(0, false)] == [NewConn(0, false)];
    assert s.workers == [InitWorker(), InitWorker(), InitWorker(), InitWorker()];
    Start(s);
    Then(s, s, AddConn(0, false));
  }

  lemma Connects(s: State)
    requires s == Init(s.root.sndhwm, s.root.rcvhwm, |s.users|)
    ensures var me := Worker([Attach(0)], [], [], Idle, false, [Entry(Attach(0), false)], [], []);
            Reachable(s, Setting(s.root, Attached(false), me, s.users))
  {
    var me := Push(InitWorker(), Attach(0));
    assert [] + [Attach(0)] == [Attach(0)] && [] + [Entry(Attach(0), false)] == [Entry(Attach(0), false)];
    Adds(s);
    Settings(s.root, NewConn(0, false), Attached(false), InitWorker(), InitWorker(), s.users);
    Settings(s.root, Attached(false), Attached(false), InitWorker(), me, s.users);
    Then(s, Setting(s.root, NewConn(0, false), InitWorker(), s.users), AttachConn(0));
  }

  // worker 0, step by step

  lemma Swaps(s: State, root: Root, conn: Conn, me: Worker, users: seq<User>)
    requires conn.thr == 0 && Free(me) && Reachable(s, Setting(root, conn, me, users))
    ensures Reachable(s, Setting(root, conn, me.(batch := me.jobs, jobs := []), users))
  {
    Settings(root, conn, conn, me, me.(batch := me.jobs, jobs := []), users);
    Then(s, Setting(root, conn, me, users), Swap(0));
  }

  lemma Pops(s: State, root: Root, conn: Conn, me: Worker, users: seq<User>)
    requires conn.thr == 0 && !me.halted && me.cur == [] && me.batch != [] && me.batch[0] != Halt
    requires Reachable(s, Setting(root, conn, me, users))
    ensures Reachable(s, Setting(root, conn, me.(cur := [me.batch[0]], batch := me.batch[1..]), users))
  {
    Settings(root, conn, conn, me, me.(cur := [me.batch[0]], batch := me.batch[1..]), users);
    Then(s, Setting(root, conn, me, users), Pop(0));
  }

  lemma Executes(s: State, root: Root, conn: Conn, me: Worker, users: seq<User>, x: Task)
    requires conn.thr == 0 && me.cur == [x] && x != Halt && x.c == 0 && Reachable(s, Setting(root, conn, me, users))
    ensures Reachable(s, Setting(root, Execute(conn, x), me.(cur := [], done := me.done + [x]), users))
  {
    Settings(root, conn, Execute(conn, x), me, me, users);
    Settings(root, Execute(conn, x), conn, me, me.(cur := [], done := me.done + [x]), users);
    Then(s, Setting(root, conn, me, users), Exec(0));
  }

  /** Worker 0 takes its one task and executes it. */
  lemma TaskRuns(s: State, root: Root, conn: Conn, me: Worker, users: seq<User>)
    requires |me.jobs| == 1 && me.jobs[0] in {Attach(0), StartWrite(0)} && Free(me) && conn.thr == 0
    requires Reachable(s, Setting(root, conn, me, users))
    ensures Reachable(s, Setting(root, Execute(conn, me.jobs[0]), me.(jobs := [], done := me.done + me.jobs), users))
  {
    var task := me.jobs[0];
    assert me.jobs[1..] == [] && me.jobs == [task];
    Swaps(s, root, conn, me, users);
    Pops(s, root, conn, me.(batch := me.jobs, jobs := []), users);
    Executes(s, root, conn, me.(cur := [task], jobs := []), users, task);
  }

  /** A user gets past the gate while sending is not stopped. */
  lemma Passes(s: State, m: State, u: nat, f: Frame)
    requires Reachable(s, m) && m.fault == NoFault && Wired(m) && u < |m.users| && m.users[u] == Ready
    requires m.conns != [] && !m.conns[0].zombie && !m.root.stopWrite
    ensures Reachable(s, SetUser(m, u, Insert(0, f)))
  {
    Then(s, m, SendEnter(u, 0, f, false));
    var gated := SetUser(m, u, Gate(0, f, false));
    Then(s, gated, SendGate(u));
    assert gated.users[u := Insert(0, f)] == m.users[u := Insert(0, f)];
  }

  function Scheduled(): Worker {
    Served().(jobs := [StartWrite(0)], log := [Entry(Attach(0), false), Entry(StartWrite(0), false)])
  }

  function Holding(): Conn {
    Attached(true).(writing := true, ol := OutList([1], 0), sent := [1])
  }

  /** The first frame is inserted, and not yet counted. */
  lemma FirstInserted(hwm: int)
    ensures Reachable(Init(hwm, 0, 2), Setting(Sending(hwm, 0, false), Holding(), Scheduled(), [User.Count, Ready]))
  {
    var s, root := Init(hwm, 0, 2), Sending(hwm, 0, false);
    Opens(hwm);
    Passes(s, Opened(hwm), 0, 1);
    assert [Ready, Ready][0 := Insert(0, 1)] == [Insert(0, 1), Ready];
    InsertsFirst(s, root);
  }

  lemma InsertsFirst(s: State, root: Root)
    requires Reachable(s, Setting(root, Attached(true), Served(), [Insert(0, 1), Ready]))
    ensures Reachable(s, Setting(root, Holding(), Scheduled(), [User.Count, Ready]))
  {
    var users := [Insert(0, 1), Ready];
    assert InsertedConn(Attached(true), 1) == Holding() by {
      assert [] + [1] == [1];
    }
    assert Push(Served(), StartWrite(0)) == Scheduled() by {
      assert [Entry(Attach(0), false)] + [Entry(StartWrite(0), false)] == Scheduled().log;
    }
    Settings(root, Attached(true), Holding(), Served(), Served(), users);
    Settings(root, Holding(), Holding(), Served(), Scheduled(), [User.Count, Ready]);
    assert users[0 := User.Count] == [User.Count, Ready];
    Then(s, Setting(root, Attached(true), Served(), users), SendInsert(0));
  }

  /** The write handler has taken the first frame. */
  function Taken(hwm: int, users: seq<User>): State {
    Setting(Sending(hwm, 1, hwm == 1), Writable(EmptyList, [1], []), Busy(Writing(0, OutList([1], 0), 0)), users)
  }

  /** The write handler of connection 0, step by step; `me` is its worker before the step. */
  lemma Enters(s: State, root: Root, conn: Conn, me: Worker, users: seq<User>)
    requires conn.thr == 0 && conn.wio && !conn.zombie && Free(me) && Reachable(s, Setting(root, conn, me, users))
    ensures Reachable(s, Setting(root, conn, me.(hand := Test(0, 0)), users))
  {
    Settings(root, conn, conn, me, me.(hand := Test(0, 0)), users);
    Then(s, Setting(root, conn, me, users), WriteEnter(0));
  }

  lemma Tests(s: State, root: Root, conn: Conn, me: Worker, users: seq<User>)
    requires conn.thr == 0 && me.hand.Test? && me.hand.c == 0 && Reachable(s, Setting(root, conn, me, users))
    ensures if conn.ol.chain == [] then
              Reachable(s, Setting(root, conn, me.(hand := if 0 < me.hand.removed then Account(0, me.hand.removed) else Stop(0)), users))
            else
              Reachable(s, Setting(root, conn.(ol := EmptyList), me.(hand := Writing(0, conn.ol, me.hand.removed)), users))
  {
    var hand := if conn.ol.chain != [] then Writing(0, conn.ol, me.hand.removed)
                else if 0 < me.hand.removed then Account(0, me.hand.removed) else Stop(0);
    Settings(root, conn, conn, me, me.(hand := hand), users);
    Settings(root, conn, conn.(ol := EmptyList), me.(hand := hand), me, users);
    Then(s, Setting(root, conn, me, users), WriteTest(0));
  }

  lemma Writes(s: State, root: Root, conn: Conn, me: Worker, users: seq<User>, k: nat)
    requires conn.thr == 0 && me.hand.Writing? && me.hand.c == 0 && k <= |me.hand.local.chain|
    requires Reachable(s, Setting(root, conn, me, users))
    ensures var (hand, conn') := AfterSome(me, conn, k); Reachable(s, Setting(root, conn', me.(hand := hand), users))
  {
    var (hand, conn') := AfterSome(me, conn, k);
    Settings(root, conn, conn, me, me.(hand := hand), users);
    Settings(root, conn, conn', me.(hand := hand), me, users);
    Then(s, Setting(root, conn, me, users), WriteSome(0, k));
  }

  lemma Accounts(s: State, hwm: int, qsz: int, stop: bool, removed: nat, conn: Conn, me: Worker, users: seq<User>)
    requires conn.thr == 0 && me.hand == Account(0, removed) && (stop <==> 0 < hwm <= qsz) && (stop ==> qsz - removed < hwm)
    requires Reachable(s, Setting(Sending(hwm, qsz, stop), conn, me, users))
    ensures Reachable(s, Setting(Sending(hwm, qsz - removed, false), conn, me.(hand := Wake(0, false)), users))
  {
    Settings(Sending(hwm, qsz, stop), conn, conn, me, me.(hand := Wake(0, false)), users);
    Then(s, Setting(Sending(hwm, qsz, stop), conn, me, users), WriteAccount(0));
  }

  lemma Wakes(s: State, root: Root, conn: Conn, me: Worker, users: seq<User>)
    requires conn.thr == 0 && me.hand == Wake(0, false) && Reachable(s, Setting(root, conn, me, users))
    ensures Reachable(s, Setting(root, conn, me.(hand := Stop(0)), users))
  {
    Settings(root, conn, conn, me, me.(hand := Stop(0)), users);
    Then(s, Setting(root, conn, me, users), WriteWake(0));
  }

  /** A user counts its frame. */
  lemma Counted(s: State, hwm: int, qsz: int, conn: Conn, me: Worker, users: seq<User>, u: nat)
    requires conn.thr == 0 && u < |users| && users[u].Count? && !(0 < hwm <= qsz)
    requires Reachable(s, Setting(Sending(hwm, qsz, false), conn, me, users))
    ensures Reachable(s, Setting(Sending(hwm, qsz + 1, 0 < hwm <= qsz + 1), conn, me, users[u := Ready]))
  {
    Then(s, Setting(Sending(hwm, qsz, false), conn, me, users), SendCount(u));
  }

  lemma FirstTaken(hwm: int)
    requires 0 <= hwm <= 1
    ensures Reachable(Init(hwm, 0, 2), Taken(hwm, [Ready, Ready]))
  {
    var s, root, users := Init(hwm, 0, 2), Sending(hwm, 1, hwm == 1), [Ready, Ready];
    FirstInserted(hwm);
    assert [User.Count, Ready][0 := Ready] == users;
    Counted(s, hwm, 0, Holding(), Scheduled(), [User.Count, Ready], 0);
    TaskRuns(s, root, Holding(), Scheduled(), users);
    assert [Attach(0)] + [StartWrite(0)] == [Attach(0), StartWrite(0)];
    Enters(s, root, Writable(OutList([1], 0), [1], []), Busy(Idle), users);
    Tests(s, root, Writable(OutList([1], 0), [1], []), Busy(Test(0, 0)), users);
  }

  // ---- a frame is lost --------------------------------------------------------------------------------

  /** Frame 2 is sent while frame 1 is being written; EAGAIN merges the two lists but keeps
      pointing at frame 1 as the last one; frame 3 is then linked behind frame 1, and frame 2
      will never go out. */
  lemma FrameLost()
    ensures Reachable(Init(0, 0, 2), Setting(Sending(0, 1, false),
              Writable(OutList([1, 3], 1), [1, 2, 3], []).(lost := 1), Busy(Idle), [User.Count, User.Count]))
  {
    var s, root, me := Init(0, 0, 2), Sending(0, 1, false), Busy(Writing(0, OutList([1], 0), 0));
    FirstTaken(0);
    Passes(s, Taken(0, [Ready, Ready]), 0, 2);
    assert [Ready, Ready][0 := Insert(0, 2)] == [Insert(0, 2), Ready];
    Passes(s, Taken(0, [Insert(0, 2), Ready]), 1, 3);
    assert [Insert(0, 2), Ready][1 := Insert(0, 3)] == [Insert(0, 2), Insert(0, 3)];
    SecondArrives(s, root, me);
    MergeKeepsOldTail(s, root, me);
    ThirdUnlinksSecond(s, root);
  }

  lemma SecondArrives(s: State, root: Root, me: Worker)
    requires Reachable(s, Setting(root, Writable(EmptyList, [1], []), me, [Insert(0, 2), Insert(0, 3)]))
    ensures Reachable(s, Setting(root, Writable(OutList([2], 0), [1, 2], []), me, [User.Count, Insert(0, 3)]))
  {
    var conn, users := Writable(EmptyList, [1], []), [Insert(0, 2), Insert(0, 3)];
    assert InsertedConn(conn, 2) == Writable(OutList([2], 0), [1, 2], []) by {
      assert [1] + [2] == [1, 2];
    }
    Settings(root, conn, InsertedConn(conn, 2), me, me, users);
    assert users[0 := User.Count] == [User.Count, Insert(0, 3)];
    Then(s, Setting(root, conn, me, users), SendInsert(0));
  }

  lemma MergeKeepsOldTail(s: State, root: Root, me: Worker)
    requires me == Busy(Writing(0, OutList([1], 0), 0))
    requires Reachable(s, Setting(root, Writable(OutList([2], 0), [1, 2], []), me, [User.Count, Insert(0, 3)]))
    ensures Reachable(s, Setting(root, Writable(OutList([1, 2], 0), [1, 2], []), Busy(Idle), [User.Count, Insert(0, 3)]))
  {
    var conn, users := Writable(OutList([2], 0), [1, 2], []), [User.Count, Insert(0, 3)];
    var merged := Writable(OutList([1, 2], 0), [1, 2], []);
    assert AfterAgain(me, conn) == (Idle, merged) by {
      assert [1][..1] + [2] == [1, 2];
    }
    Settings(root, conn, conn, me, Busy(Idle), users);
    Settings(root, conn, merged, Busy(Idle), me, users);
    Then(s, Setting(root, conn, me, users), WriteAgain(0));
  }

  lemma ThirdUnlinksSecond(s: State, root: Root)
    requires Reachable(s, Setting(root, Writable(OutList([1, 2], 0), [1, 2], []), Busy(Idle), [User.Count, Insert(0, 3)]))
    ensures Reachable(s, Setting(root, Writable(OutList([1, 3], 1), [1, 2, 3], []).(lost := 1), Busy(Idle),
                                 [User.Count, User.Count]))
  {
    var conn, users := Writable(OutList([1, 2], 0), [1, 2], []), [User.Count, Insert(0, 3)];
    assert InsertedConn(conn, 3) == Writable(OutList([1, 3], 1), [1, 2, 3], []).(lost := 1) by {
      assert [1, 2] + [3] == [1, 2, 3] && [1, 2][..1] + [3] == [1, 3];
    }
    Settings(root, conn, InsertedConn(conn, 3), Busy(Idle), Busy(Idle), users);
    assert users[1 := User.Count] == [User.Count, User.Count];
    Then(s, Setting(root, conn, Busy(Idle), users), SendInsert(1));
  }

  // ---- the handler writes its frame and heads for the reset -------------------------------------------------

  lemma WrittenAndSubtracted(s: State, hwm: int, users: seq<User>)
    requires 0 <= hwm <= 1 && Reachable(s, Taken(hwm, users))
    ensures Reachable(s, Setting(Sending(hwm, 0, false), Writable(EmptyList, [1], [1]), Busy(Stop(0)), users))
  {
    var root, conn, me := Sending(hwm, 1, hwm == 1), Writable(EmptyList, [1], []), Busy(Writing(0, OutList([1], 0), 0));
    var done := Writable(EmptyList, [1], [1]);
    assert AfterSome(me, conn, 1) == (Test(0, 1), done) by {
      assert [] + [1][..1] == [1];
    }
    Writes(s, root, conn, me, users, 1);
    Tests(s, root, done, Busy(Test(0, 1)), users);
    Accounts(s, hwm, 1, hwm == 1, 1, done, Busy(Account(0, 1)), users);
    Wakes(s, Sending(hwm, 0, false), done, Busy(Wake(0, false)), users);
  }

  lemma Resets(s: State, root: Root, conn: Conn, users: seq<User>)
    requires conn.thr == 0 && Reachable(s, Setting(root, conn, Busy(Stop(0)), users))
    ensures Reachable(s, Setting(root, conn.(wio := false, writing := false), Busy(Idle), users))
  {
    Settings(root, conn, conn, Busy(Stop(0)), Busy(Idle), users);
    Settings(root, conn, conn.(wio := false, writing := false), Busy(Idle), Busy(Idle), users);
    Then(s, Setting(root, conn, Busy(Stop(0)), users), WriteStop(0));
  }

  // ---- a frame is stranded ----------------------------------------------------------------------------

  /** The handler has found the list empty; a send in between still sees the token held and
      schedules nothing; the reset leaves its frame with no token, no task and no watcher. */
  lemma FrameStranded()
    ensures Reachable(Init(0, 0, 2), Setting(Sending(0, 0, false),
              Writable(OutList([7], 0), [1, 7], [1]).(wio := false, writing := false), Busy(Idle), [User.Count, Ready]))
  {
    var s, root, conn := Init(0, 0, 2), Sending(0, 0, false), Writable(EmptyList, [1], [1]);
    FirstTaken(0);
    WrittenAndSubtracted(s, 0, [Ready, Ready]);
    Passes(s, Setting(root, conn, Busy(Stop(0)), [Ready, Ready]), 0, 7);
    assert [Ready, Ready][0 := Insert(0, 7)] == [Insert(0, 7), Ready];
    LateFrame(s, root);
    Resets(s, root, Writable(OutList([7], 0), [1, 7], [1]), [User.Count, Ready]);
  }

  lemma LateFrame(s: State, root: Root)
    requires Reachable(s, Setting(root, Writable(EmptyList, [1], [1]), Busy(Stop(0)), [Insert(0, 7), Ready]))
    ensures Reachable(s, Setting(root, Writable(OutList([7], 0), [1, 7], [1]), Busy(Stop(0)), [User.Count, Ready]))
  {
    var conn, users, late := Writable(EmptyList, [1], [1]), [Insert(0, 7), Ready], Writable(OutList([7], 0), [1, 7], [1]);
    assert InsertedConn(conn, 7) == late by {
      assert [1] + [7] == [1, 7];
    }
    Settings(root, conn, late, Busy(Stop(0)), Busy(Stop(0)), users);
    assert users[0 := User.Count] == [User.Count, Ready];
    Then(s, Setting(root, conn, Busy(Stop(0)), users), SendInsert(0));
  }

  // ---- a sender sleeps for good ---------------------------------------------------------------------------

  /** A user who may wait meets STOP twice. */
  lemma MeetsStop(s: State, m: State, u: nat, f: Frame)
    requires Reachable(s, m) && m.fault == NoFault && Wired(m) && u < |m.users| && m.users[u] == Ready
    requires m.conns != [] && !m.conns[0].zombie && m.root.stopWrite
    ensures Reachable(s, SetUser(m, u, ToWait(0, f, false)))
  {
    Then(s, m, SendEnter(u, 0, f, false));
    var gated := SetUser(m, u, Gate(0, f, false));
    Then(s, gated, SendGate(u));
    assert gated.users[u := ToWait(0, f, false)] == m.users[u := ToWait(0, f, false)];
  }

  lemma Sleeps(s: State, hwm: int, qsz: int, conn: Conn, me: Worker, users: seq<User>, u: nat)
    requires conn.thr == 0 && u < |users| && users[u].ToWait?
    requires Reachable(s, Setting(Sending(hwm, qsz, false), conn, me, users))
    ensures Reachable(s, Setting(Sending(hwm, qsz, false).(wantWcond := true), conn, me,
                                 users[u := Blocked(users[u].c, users[u].f, users[u].dontwait)]))
  {
    Then(s, Setting(Sending(hwm, qsz, false), conn, me, users), SendWait(u));
  }

  /** A sender saw STOP; before it asked to be woken the last frame was subtracted. It sleeps
      although nothing is queued, sending is not stopped, and no handler has anything to do. */
  lemma SleepsForNothing()
    ensures Reachable(Init(1, 0, 2), Setting(Sending(1, 0, false).(wantWcond := true),
              Writable(EmptyList, [1], [1]).(wio := false, writing := false), Busy(Idle), [Ready, Blocked(0, 7, false)]))
  {
    var s, conn := Init(1, 0, 2), Writable(EmptyList, [1], [1]);
    FirstTaken(1);
    MeetsStop(s, Taken(1, [Ready, Ready]), 1, 7);
    assert [Ready, Ready][1 := ToWait(0, 7, false)] == [Ready, ToWait(0, 7, false)];
    WrittenAndSubtracted(s, 1, [Ready, ToWait(0, 7, false)]);
    Sleeps(s, 1, 0, conn, Busy(Stop(0)), [Ready, ToWait(0, 7, false)], 1);
    assert [Ready, ToWait(0, 7, false)][1 := Blocked(0, 7, false)] == [Ready, Blocked(0, 7, false)];
    Resets(s, Sending(1, 0, false).(wantWcond := true), conn, [Ready, Blocked(0, 7, false)]);
  }

  // ---- a call that must not wait, waits -------------------------------------------------------------------

  /** A sender passes the test for callers who do not want to wait (line 257); another one
      reaches the mark; the second test (line 259) then sends the first to the wait. */
  lemma ImpatientWaits()
    ensures var m := Setting(Sending(1, 0, false), Holding(), Scheduled(), [User.Count, Ready]);
            && Reachable(Init(1, 0, 2), m) && Enabled(m, SendEnter(1, 0, 7, true))
            && Reachable(Apply(m, SendEnter(1, 0, 7, true)),
                         Setting(Sending(1, 1, true), Holding(), Scheduled(), [Ready, ToWait(0, 7, true)]))
  {
    FirstInserted(1);
    var m := Setting(Sending(1, 0, false), Holding(), Scheduled(), [User.Count, Ready]);
    var gated := Setting(Sending(1, 0, false), Holding(), Scheduled(), [User.Count, Gate(0, 7, true)]);
    assert [User.Count, Ready][1 := Gate(0, 7, true)] == [User.Count, Gate(0, 7, true)];
    assert Apply(m, SendEnter(1, 0, 7, true)) == gated;
    Start(gated);
    Counted(gated, 1, 0, Holding(), Scheduled(), [User.Count, Gate(0, 7, true)], 0);
    assert [User.Count, Gate(0, 7, true)][0 := Ready] == [Ready, Gate(0, 7, true)];
    GateShut(gated, Sending(1, 1, true), Holding(), Scheduled());
  }

  lemma GateShut(s: State, root: Root, conn: Conn, me: Worker)
    requires conn.thr == 0 && root.stopWrite && Reachable(s, Setting(root, conn, me, [Ready, Gate(0, 7, true)]))
    ensures Reachable(s, Setting(root, conn, me, [Ready, ToWait(0, 7, true)]))
  {
    assert [Ready, Gate(0, 7, true)][1 := ToWait(0, 7, true)] == [Ready, ToWait(0, 7, true)];
    Then(s, Setting(root, conn, me, [Ready, Gate(0, 7, true)]), SendGate(1));
  }

  // ---- a stale signal ----------------------------------------------------------------------------------

  /** Frame 5 has arrived, or not; `user` is where the only reader stands. */
  function Listening(efd: nat, want: bool, queued: bool, taken: bool, user: User): State {
    var root := Sending(0, 0, false).(efd := efd, wantEfd := want, rcvqsz := if queued then 1 else 0,
                                      events := if queued then [Event(0, 5)] else [],
                                      taken := if taken then [Event(0, 5)] else []);
    Setting(root, Attached(true).(parsed := if queued || taken then [5] else []), Served(), [user, Ready])
  }

  /** The reader finds nothing and asks for a signal. */
  lemma Asks(s: State, efd: nat, taken: bool)
    requires Reachable(s, Listening(efd, false, false, taken, Ready))
    ensures Reachable(s, Listening(efd, true, false, taken, Polling))
  {
    assert [Ready, Ready][0 := Polling] == [Polling, Ready];
    Then(s, Listening(efd, false, false, taken, Ready), GetEnter(0, false));
  }

  lemma GivesUp(s: State)
    requires Reachable(s, Listening(0, true, false, false, Polling))
    ensures Reachable(s, Listening(0, true, false, false, Ready))
  {
    assert [Polling, Ready][0 := Ready] == [Ready, Ready];
    Then(s, Listening(0, true, false, false, Polling), GetTimeout(0));
  }

  lemma FrameComes(s: State)
    requires Reachable(s, Listening(0, true, false, false, Ready))
    ensures Reachable(s, Listening(1, false, true, false, Ready))
  {
    var m := Listening(0, true, false, false, Ready);
    var conn := Attached(true).(parsed := [5]);
    assert [5][1..] == [] && Batch(0, [5]) == [Event(0, 5)] && [] + [5] == [5] && [] + [Event(0, 5)] == [Event(0, 5)];
    Settings(m.root, Attached(true), conn, Served(), Served(), [Ready, Ready]);
    Then(s, m, Read(0, [5]));
  }

  lemma TakesFrame(s: State)
    requires Reachable(s, Listening(1, false, true, false, Ready))
    ensures Reachable(s, Listening(1, false, false, true, Ready))
  {
    assert [Event(0, 5)][1..] == [] && [] + [Event(0, 5)] == [Event(0, 5)] && [Ready, Ready][0 := Ready] == [Ready, Ready];
    Then(s, Listening(1, false, true, false, Ready), GetEnter(0, false));
  }

  lemma WokenAtOnce(s: State)
    requires Reachable(s, Listening(1, true, false, true, Polling))
    ensures Reachable(s, Listening(1, true, false, true, Signalled))
  {
    assert [Polling, Ready][0 := Signalled] == [Signalled, Ready];
    Then(s, Listening(1, true, false, true, Polling), GetPoll(0));
  }

  lemma FindsNothing(s: State)
    requires Reachable(s, Listening(1, true, false, true, Signalled))
    ensures exists t :: Reachable(s, t) && t.fault == NothingQueued
  {
    ReadsSignal(s);
    Then(s, Listening(0, true, false, true, Woken), GetWoken(0));
  }

  lemma ReadsSignal(s: State)
    requires Reachable(s, Listening(1, true, false, true, Signalled))
    ensures Reachable(s, Listening(0, true, false, true, Woken))
  {
    assert [Signalled, Ready][0 := Woken] == [Woken, Ready];
    Then(s, Listening(1, true, false, true, Signalled), GetUnsignal(0));
  }

  /** A reader times out and leaves its request behind; the next frame answers it, and the
      signal stays up after that frame was taken without waiting. The reader's next wait ends at
      once, and it finds nothing: the assertion at line 216 fails. */
  lemma StaleSignal()
    ensures exists t :: Reachable(Init(0, 0, 2), t) && t.fault == NothingQueued
  {
    var s := Init(0, 0, 2);
    Opens(0);
    assert Opened(0) == Listening(0, false, false, false, Ready);
    Asks(s, 0, false);
    GivesUp(s);
    FrameComes(s);
    TakesFrame(s);
    Asks(s, 1, true);
    WokenAtOnce(s);
    FindsNothing(s);
  }

  // ---- a wait that is interrupted ---------------------------------------------------------------------

  /** The wait for the descriptor ends with EINTR, and the assertion behind it fails. */
  lemma WaitInterrupted()
    ensures exists t :: Reachable(Init(0, 0, 2), t) && t.fault == Interrupted
  {
    var s := Init(0, 0, 2);
    Opens(0);
    assert Opened(0) == Listening(0, false, false, false, Ready);
    Asks(s, 0, false);
    Then(s, Listening(0, true, false, false, Polling), GetInterrupt(0));
  }

  // ---- one signal for two readers -----------------------------------------------------------------------

  /** The same with both users reading. */
  function BothListening(efd: nat, want: bool, queued: bool, users: seq<User>): State {
    Listening(efd, want, queued, false, Ready).(users := users)
  }

  lemma BothAsk(s: State)
    requires Reachable(s, Listening(0, true, false, false, Polling))
    ensures Reachable(s, BothListening(0, true, false, [Polling, Polling]))
  {
    assert [Polling, Ready][1 := Polling] == [Polling, Polling];
    Then(s, Listening(0, true, false, false, Polling), GetEnter(1, false));
  }

  lemma OneFrameComes(s: State)
    requires Reachable(s, BothListening(0, true, false, [Polling, Polling]))
    ensures Reachable(s, BothListening(1, false, true, [Polling, Polling]))
  {
    var m := BothListening(0, true, false, [Polling, Polling]);
    var conn := Attached(true).(parsed := [5]);
    assert [5][1..] == [] && Batch(0, [5]) == [Event(0, 5)] && [] + [5] == [5] && [] + [Event(0, 5)] == [Event(0, 5)];
    Settings(m.root, Attached(true), conn, Served(), Served(), [Polling, Polling]);
    Then(s, m, Read(0, [5]));
  }

  lemma OneIsWoken(s: State)
    requires Reachable(s, BothListening(1, false, true, [Polling, Polling]))
    ensures Reachable(s, BothListening(1, false, true, [Signalled, Polling]))
  {
    assert [Polling, Polling][0 := Signalled] == [Signalled, Polling];
    Then(s, BothListening(1, false, true, [Polling, Polling]), GetPoll(0));
  }

  lemma OneTakesSignal(s: State)
    requires Reachable(s, BothListening(1, false, true, [Signalled, Polling]))
    ensures Reachable(s, BothListening(0, false, true, [Woken, Polling]))
  {
    assert [Signalled, Polling][0 := Woken] == [Woken, Polling];
    Then(s, BothListening(1, false, true, [Signalled, Polling]), GetUnsignal(0));
  }

  /** Two readers wait, one frame comes, and one of them takes the signal: the other now waits
      without one although the event is still queued. */
  lemma SignalTaken()
    ensures exists t :: Reachable(Init(0, 0, 2), t) && t.fault == NoFault && !WakeUps.Alert(WakeUps.SignalOf(t))
  {
    var s := Init(0, 0, 2);
    Opens(0);
    assert Opened(0) == Listening(0, false, false, false, Ready);
    Asks(s, 0, false);
    BothAsk(s);
    OneFrameComes(s);
    OneIsWoken(s);
    OneTakesSignal(s);
    var t := BothListening(0, false, true, [Woken, Polling]);
    assert t.users[1].Polling?;
  }
}
