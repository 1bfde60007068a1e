/** One root socket with its connections, the worker event loops and the user threads, as a
    step machine: one step per critical section or unlocked shared access of
    src/core/sock.c, src/core/global.c, src/core/sock.h and src/utils/thread.c.
    Fields marked "history" record the run; no step reads them. */
module Machine {

  const WORKERS: nat := 4

  type Frame = nat

  /** An event of the root's inbound queue; `conn` is history, the code keeps only the frame. */
  datatype Event = Event(conn: nat, frame: Frame)

  /** The tasks of connection c, and the stop task of a worker. */
  datatype Task =
    | Attach(c: nat)
    | StartRead(c: nat)
    | StopRead(c: nat)
    | StartWrite(c: nat)
    | Halt

  // ---- outbound lists -------------------------------------------------------------

  /** A frame list as its `first` chain sees it, and the position its `last` pointer has in
      that chain: |chain| - 1 when the pointer is right, less when it is stale, negative when
      the item it points to is gone. */
  datatype OutList = OutList(chain: seq<Frame>, last: int)

  const EmptyList := OutList([], -1)

  predicate Intact(l: OutList) {
    l.last == |l.chain| - 1
  }

  /** Links `added` (not empty) behind the item `last` points to. What hung behind that item
      is no longer linked; behind an item that is gone, `added` itself is not. */
  function Link(l: OutList, added: OutList, last: int): OutList {
    if l.chain == [] then OutList(added.chain, last)
    else if 0 <= l.last < |l.chain| then OutList(l.chain[..l.last + 1] + added.chain, last)
    else OutList(l.chain, last)
  }

  /** How many frames fall out of the lists when that is done. */
  function Unlinked(l: OutList, added: OutList): nat {
    if l.chain == [] then 0
    else if 0 <= l.last < |l.chain| then |l.chain| - 1 - l.last
    else |added.chain|
  }

  /** frm_out_frame_list_insert: appends and moves `last` to the new item. */
  function Append(l: OutList, f: Frame): OutList {
    var joined := Link(l, OutList([f], 0), 0);
    joined.(last := if l.chain == [] || 0 <= l.last < |l.chain| then |joined.chain| - 1 else -1)
  }

  /** frm_out_frame_list_written: drops k complete frames from the front. */
  function Drop(l: OutList, k: nat): OutList
    requires k <= |l.chain|
  {
    if k == |l.chain| then EmptyList else OutList(l.chain[k..], if l.last < k then -1 else l.last - k)
  }

  /** The merge after EAGAIN (src/core/sock.c:447-459). New frames are linked behind the
      local list, but the local `last` is what gets copied back. */
  function MergeBack(local: OutList, queued: OutList): OutList {
    if queued.chain == [] then local else Link(local, queued, local.last)
  }

  // ---- state ----------------------------------------------------------------------

  /** Where a worker is inside the write handler. `local` is its private copy of the list,
      `removed` the frames written but not yet subtracted from the socket's count. */
  datatype Handler =
    | Idle
    | Test(c: nat, removed: nat)                      // about to lock and test (line 423)
    | Writing(c: nat, local: OutList, removed: nat)   // in the inner loop (line 439)
    | Account(c: nat, removed: nat)                   // about to subtract (line 474)
    | Wake(c: nat, cast: bool)                        // after that, unlocked (line 493)
    | Stop(c: nat)                                    // at the stop label (line 502)

  /** history: what was scheduled, and whether it was cancelled. */
  datatype Entry = Entry(task: Task, cancelled: bool)

  datatype Worker = Worker(
    jobs: seq<Task>,     // the shared queue
    batch: seq<Task>,    // the private one
    cur: seq<Task>,      // popped and not yet executed, at most one
    hand: Handler,
    halted: bool,
    log: seq<Entry>,     // history
    done: seq<Task>,     // history: executed, in order
    dropped: seq<Task>)  // history: discarded by the stop task

  datatype Conn = Conn(
    thr: nat,
    incoming: bool,
    starting: bool,      // it has its table entry, and its attach task is not scheduled yet
    zombie: bool,
    rio: bool,           // the read watcher is active
    wio: bool,           // the write watcher is active
    writing: bool,
    ol: OutList,
    verdict: bool,       // history: the last read decision covering this connection, true for start
    crossed: bool,       // history: its attach task came to stand behind a decision to stop
    cut: bool,           // history: its attach task found the write watcher active
    sent: seq<Frame>,    // history
    written: seq<Frame>, // history
    lost: nat,           // history: frames sent that no list links any more
    parsed: seq<Frame>)  // history

  /** A user thread in fsock_send or fsock_get_event; `dontwait` is the flag a send was called with. */
  datatype User =
    | Ready
    | Gate(c: nat, f: Frame, dontwait: bool)     // before the second test of `writing` (line 259)
    | ToWait(c: nat, f: Frame, dontwait: bool)   // saw STOP, has not locked yet
    | Blocked(c: nat, f: Frame, dontwait: bool)  // in the condition wait
    | Insert(c: nat, f: Frame)                   // past the gate
    | Count                                      // inserted, not yet counted (line 280)
    | Polling                                    // in nn_efd_wait
    | Signalled                                  // the wait returned 0
    | Woken                                      // after nn_efd_unsignal

  /** The shared fields of the root socket. `stopRead` and `stopWrite` stand for `reading` and
      `writing` holding FSOCK_SOCK_STOP_OP. */
  datatype Root = Root(
    sndhwm: int, rcvhwm: int, sndqsz: int, rcvqsz: int,
    stopRead: bool, stopWrite: bool,
    wantEfd: bool, efd: nat, wantWcond: bool,
    events: seq<Event>,
    taken: seq<Event>,   // history: returned by fsock_get_event
    decided: nat)        // history: how many connections the last read decision covered

  /** An assertion of the code that failed. */
  datatype Fault = NoFault | PushedTwice | Interrupted | NothingToRead | NothingQueued

  datatype State = State(root: Root, conns: seq<Conn>, workers: seq<Worker>, users: seq<User>, fault: Fault)

  function InitWorker(): Worker {
    Worker([], [], [], Idle, false, [], [], [])
  }

  function Init(sndhwm: int, rcvhwm: int, users: nat): State {
    State(Root(sndhwm, rcvhwm, 0, 0, false, false, false, 0, false, [], [], 0), [],
          seq(WORKERS, _ => InitWorker()), seq(users, _ => Ready), NoFault)
  }

  // ---- worker queues --------------------------------------------------------------

  /** fsock_queue_item_isinqueue: the item waits in the shared queue or in the private batch. */
  predicate InQueue(w: Worker, t: Task) {
    t in w.batch || t in w.jobs
  }

  function Push(w: Worker, t: Task): Worker {
    w.(jobs := w.jobs + [t], log := w.log + [Entry(t, false)])
  }

  /** Deletes the first occurrence. */
  function Remove(q: seq<Task>, t: Task): seq<Task> {
    if q == [] then [] else if q[0] == t then q[1..] else [q[0]] + Remove(q[1..], t)
  }

  /** Marks the last entry of t that is still standing. */
  function Strike(log: seq<Entry>, t: Task): seq<Entry> {
    if log == [] then []
    else
      var front, e := log[..|log| - 1], log[|log| - 1];
      if e == Entry(t, false) then front + [Entry(t, true)] else Strike(front, t) + [e]
  }

  /** fsock_queue_remove on `jobs`: nothing happens to a task in the private batch. */
  function Cancel(w: Worker, t: Task): Worker {
    if t in w.jobs then w.(jobs := Remove(w.jobs, t), log := Strike(w.log, t)) else w
  }

  function ReadTask(c: nat, on: bool): Task {
    if on then StartRead(c) else StopRead(c)
  }

  /** One turn of fsock_sock_bulk_schedule_unsafe. */
  function Decide(w: Worker, c: nat, on: bool): Worker {
    var pushed := if InQueue(w, ReadTask(c, on)) then w else Push(w, ReadTask(c, on));
    if InQueue(pushed, ReadTask(c, !on)) then Cancel(pushed, ReadTask(c, !on)) else pushed
  }

  /** A decision to stop relies on a stop task that the attach task will undo: the stop task is
      in the private batch already, so it is not scheduled again, and the attach task follows. */
  predicate Overtaken(conn: Conn, w: Worker, c: nat, on: bool) {
    !on && !conn.starting && !conn.zombie && StopRead(c) in w.batch && Attach(c) in w.jobs
  }

  function DecidedConn(conn: Conn, w: Worker, c: nat, on: bool): Conn {
    conn.(verdict := on, crossed := conn.crossed || Overtaken(conn, w, c, on))
  }

  function DecideOne(s: State, c: nat, on: bool): State
    requires c < |s.conns| && s.conns[c].thr < |s.workers|
  {
    var thr := s.conns[c].thr;
    s.(workers := s.workers[thr := Decide(s.workers[thr], c, on)],
       conns := s.conns[c := DecidedConn(s.conns[c], s.workers[thr], c, on)])
  }

  /** The whole bulk macro over the first n connections. */
  function Bulk(s: State, on: bool, n: nat): (t: State)
    requires n <= |s.conns| && Wired(s)
    ensures Wired(t) && t.root == s.root && t.users == s.users && t.fault == s.fault
    ensures |t.conns| == |s.conns| && |t.workers| == |s.workers|
    ensures forall c :: 0 <= c < |s.conns| ==> t.conns[c].thr == s.conns[c].thr
  {
    if n == 0 then s else DecideOne(Bulk(s, on, n - 1), n - 1, on)
  }

  lemma BulkNext(s: State, on: bool, i: nat)
    requires Wired(s) && i < |s.conns|
    ensures var t := Bulk(s, on, i);
            && |t.conns| == |s.conns| && t.conns[i].thr < |t.workers|
            && Bulk(s, on, i + 1) == DecideOne(t, i, on) && |DecideOne(t, i, on).conns| == |s.conns|
  {
  }

  /** Of a connection the bulk macro changes nothing but history. */
  predicate OnlyDecided(conn: Conn, conn': Conn) {
    conn' == conn.(verdict := conn'.verdict, crossed := conn'.crossed)
  }

  lemma {:induction false} BulkConns(s: State, on: bool, n: nat, c: nat)
    requires n <= |s.conns| && Wired(s) && c < |s.conns|
    ensures OnlyDecided(s.conns[c], Bulk(s, on, n).conns[c])
  {
    if n != 0 {
      var t := Bulk(s, on, n - 1);
      BulkConns(s, on, n - 1, c);
      assert Bulk(s, on, n).conns[c]
          == if c == n - 1 then DecidedConn(t.conns[c], t.workers[t.conns[c].thr], c, on) else t.conns[c];
      DecidedOnly(s.conns[c], t.conns[c], t.workers[t.conns[c].thr], c, on);
    }
  }

  lemma DecidedOnly(conn: Conn, conn': Conn, w: Worker, c: nat, on: bool)
    requires OnlyDecided(conn, conn')
    ensures OnlyDecided(conn, DecidedConn(conn', w, c, on))
  {
  }

  lemma DecideFrame(w: Worker, c: nat, on: bool)
    ensures Decide(w, c, on) == w.(jobs := Decide(w, c, on).jobs, log := Decide(w, c, on).log)
  {
  }

  /** The bulk macro only touches the shared queues. */
  lemma {:induction false} BulkFrame(s: State, on: bool, n: nat)
    requires n <= |s.conns| && Wired(s)
    ensures var t := Bulk(s, on, n);
            forall w :: 0 <= w < |s.workers| ==>
              t.workers[w] == s.workers[w].(jobs := t.workers[w].jobs, log := t.workers[w].log)
  {
    if n != 0 {
      BulkFrame(s, on, n - 1);
      var t := Bulk(s, on, n - 1);
      var thr := t.conns[n - 1].thr;
      DecideFrame(t.workers[thr], n - 1, on);
      var u := Bulk(s, on, n);
      forall w | 0 <= w < |s.workers|
        ensures u.workers[w] == s.workers[w].(jobs := u.workers[w].jobs, log := u.workers[w].log)
      {
        assert t.workers[w] == s.workers[w].(jobs := t.workers[w].jobs, log := t.workers[w].log);
        assert u.workers[w] == if w == thr then Decide(t.workers[w], n - 1, on) else t.workers[w];
      }
    }
  }

  /** Every connection has a worker. */
  predicate Wired(s: State) {
    forall c :: 0 <= c < |s.conns| ==> s.conns[c].thr < |s.workers|
  }

  // ---- steps ----------------------------------------------------------------------

  datatype Step =
    // connections and worker loops
    | AddConn(thr: nat, incoming: bool)
    | AttachConn(c: nat)
    | Swap(w: nat)
    | Pop(w: nat)
    | Exec(w: nat)
    | ScheduleHalt(w: nat)
    | Read(c: nat, frames: seq<Frame>)
    | Close(c: nat)
    // the write handler
    | WriteEnter(c: nat)
    | WriteTest(w: nat)
    | WriteSome(w: nat, k: nat)
    | WriteAgain(w: nat)
    | WriteAccount(w: nat)
    | WriteWake(w: nat)
    | WriteStop(w: nat)
    // fsock_send
    | SendEnter(u: nat, to: nat, f: Frame, dontwait: bool)
    | SendGate(u: nat)
    | SendWait(u: nat)
    | SendInsert(u: nat)
    | SendCount(u: nat)
    // fsock_get_event
    | GetEnter(u: nat, dontwait: bool)
    | GetTimeout(u: nat)
    | GetInterrupt(u: nat)
    | GetPoll(u: nat)
    | GetUnsignal(u: nat)
    | GetWoken(u: nat)

  /** The steps of user thread u. */
  predicate By(step: Step, u: nat) {
    match step
    case SendEnter(x, _, _, _) => x == u
    case SendGate(x) => x == u
    case SendWait(x) => x == u
    case SendInsert(x) => x == u
    case SendCount(x) => x == u
    case GetEnter(x, _) => x == u
    case GetTimeout(x) => x == u
    case GetInterrupt(x) => x == u
    case GetPoll(x) => x == u
    case GetUnsignal(x) => x == u
    case GetWoken(x) => x == u
    case _ => false
  }

  /** A worker's event loop is between callbacks. */
  predicate Free(w: Worker) {
    !w.halted && w.cur == [] && w.batch == [] && w.hand == Idle
  }

  /** The write handler runs and refers to a connection that exists. */
  predicate Handling(s: State, w: nat) {
    w < |s.workers| && s.workers[w].hand != Idle && s.workers[w].hand.c < |s.conns|
  }

  /** When a step can happen. After a failed assertion nothing does. */
  predicate Enabled(s: State, step: Step) {
    && s.fault == NoFault && Wired(s)
    && match step
       case AddConn(thr, _) => thr < |s.workers|
       case AttachConn(c) => c < |s.conns| && s.conns[c].starting
       case Swap(w) => w < |s.workers| && Free(s.workers[w])
       case Pop(w) => w < |s.workers| && !s.workers[w].halted && s.workers[w].cur == [] && s.workers[w].batch != []
       case Exec(w) => w < |s.workers| && |s.workers[w].cur| == 1 && s.workers[w].cur[0] != Halt
                       && s.workers[w].cur[0].c < |s.conns|
       case ScheduleHalt(w) => w < |s.workers| && !s.workers[w].halted && !InQueue(s.workers[w], Halt)
       case Read(c, _) => c < |s.conns| && s.conns[c].rio && Free(s.workers[s.conns[c].thr])
       case Close(c) => c < |s.conns| && s.conns[c].rio && Free(s.workers[s.conns[c].thr])
       case WriteEnter(c) => c < |s.conns| && s.conns[c].wio && Free(s.workers[s.conns[c].thr])
       case WriteTest(w) => Handling(s, w) && s.workers[w].hand.Test?
       case WriteSome(w, k) => Handling(s, w) && s.workers[w].hand.Writing? && k <= |s.workers[w].hand.local.chain|
       case WriteAgain(w) => Handling(s, w) && s.workers[w].hand.Writing?
       case WriteAccount(w) => Handling(s, w) && s.workers[w].hand.Account?
       case WriteWake(w) => Handling(s, w) && s.workers[w].hand.Wake?
       case WriteStop(w) => Handling(s, w) && s.workers[w].hand.Stop?
       case SendEnter(u, to, _, _) => u < |s.users| && s.users[u] == Ready && to < |s.conns|
       case SendGate(u) => u < |s.users| && s.users[u].Gate?
       case SendWait(u) => u < |s.users| && s.users[u].ToWait?
       case SendInsert(u) => u < |s.users| && s.users[u].Insert? && s.users[u].c < |s.conns|
       case SendCount(u) => u < |s.users| && s.users[u].Count?
       case GetEnter(u, _) => u < |s.users| && s.users[u] == Ready
       case GetTimeout(u) => u < |s.users| && s.users[u].Polling?
       case GetInterrupt(u) => u < |s.users| && s.users[u].Polling?
       case GetPoll(u) => u < |s.users| && s.users[u].Polling? && 0 < s.root.efd
       case GetUnsignal(u) => u < |s.users| && s.users[u].Signalled?
       case GetWoken(u) => u < |s.users| && s.users[u].Woken?
  }

  function SetWorker(s: State, w: nat, worker: Worker): State
    requires w < |s.workers|
  {
    s.(workers := s.workers[w := worker])
  }

  function SetHand(s: State, w: nat, hand: Handler): State
    requires w < |s.workers|
  {
    SetWorker(s, w, s.workers[w].(hand := hand))
  }

  function SetConn(s: State, c: nat, conn: Conn): State
    requires c < |s.conns|
  {
    s.(conns := s.conns[c := conn])
  }

  function SetUser(s: State, u: nat, user: User): State
    requires u < |s.users|
  {
    s.(users := s.users[u := user])
  }

  /** The flag part of a read decision. */
  function Flagged(s: State, on: bool): State {
    s.(root := s.root.(stopRead := !on, decided := |s.conns|))
  }

  /** A read decision: the flag, then the bulk macro over every connection. */
  function DecideAll(s: State, on: bool): State
    requires Wired(s)
  {
    Bulk(Flagged(s, on), on, |s.conns|)
  }

  function Batch(c: nat, frames: seq<Frame>): seq<Event> {
    if frames == [] then [] else [Event(c, frames[0])] + Batch(c, frames[1..])
  }

  /** What the read handler's critical section (src/core/sock.c:361-382) does to the root's
      fields, with `cnt` counted from 0. */
  function ReadRoot(root: Root, c: nat, frames: seq<Frame>): Root {
    var r := root.(rcvqsz := root.rcvqsz + |frames|);
    if frames == [] then r
    else
      var q := r.(events := r.events + Batch(c, frames));
      if r.wantEfd then q.(efd := r.efd + 1, wantEfd := false) else q
  }

  /** The whole critical section, with the high-water mark (lines 361-392). */
  function ReadStep(s: State, c: nat, frames: seq<Frame>): State
    requires Wired(s) && c < |s.conns|
  {
    var q := ReadRoot(s.root, c, frames);
    var t := SetConn(s, c, s.conns[c].(parsed := s.conns[c].parsed + frames)).(root := q);
    if 0 < q.rcvhwm < q.rcvqsz then DecideAll(t, false) else t
  }

  function TakeRoot(root: Root): Root
    requires root.events != []
  {
    root.(events := root.events[1..], taken := root.taken + [root.events[0]], rcvqsz := root.rcvqsz - 1)
  }

  /** Taking one event (src/core/global.c:216-230). */
  function TakeEvent(s: State, u: nat): State
    requires Wired(s) && u < |s.users|
  {
    if s.root.events == [] then s.(fault := NothingQueued)
    else
      var r := TakeRoot(s.root);
      var t := SetUser(s, u, Ready).(root := r);
      if 0 < r.rcvhwm && r.stopRead && r.rcvqsz < r.rcvhwm then DecideAll(t, true) else t
  }

  /** A connection as it enters the table. */
  function NewConn(thr: nat, incoming: bool): Conn {
    Conn(thr, incoming, true, false, false, false, false, EmptyList, true, false, false, [], [], 0, [])
  }

  /** The attach task is scheduled while the decision in force is to stop; w is the worker. */
  predicate Behind(conn: Conn, w: Worker) {
    !conn.verdict && !conn.zombie && !w.halted
  }

  function StartedConn(conn: Conn, w: Worker): Conn {
    conn.(starting := false, crossed := conn.crossed || Behind(conn, w))
  }

  /** The task callbacks (src/core/sock.c:16-45, src/utils/thread.c:127-137). The attach task
      initialises both watchers, so a write watcher that was active is not any more. */
  function Execute(conn: Conn, t: Task): Conn {
    match t
    case Attach(_) => conn.(rio := true, wio := false, cut := conn.cut || (conn.wio && !conn.zombie))
    case StartRead(_) => conn.(rio := true)
    case StopRead(_) => conn.(rio := false)
    case StartWrite(_) => conn.(wio := true)
    case Halt => conn
  }

  /** The connection after an insertion. */
  function InsertedConn(conn: Conn, f: Frame): Conn {
    conn.(writing := true, ol := Append(conn.ol, f), sent := conn.sent + [f],
          lost := conn.lost + Unlinked(conn.ol, OutList([f], 0)))
  }

  /** The insertion of fsock_send (src/core/global.c:271-278). */
  function InsertStep(s: State, u: nat, c: nat, f: Frame): State
    requires Wired(s) && u < |s.users| && c < |s.conns|
  {
    var conn := s.conns[c];
    var w := s.workers[conn.thr];
    if !conn.writing && InQueue(w, StartWrite(c)) then s.(fault := PushedTwice)
    else
      var t := SetUser(SetConn(s, c, InsertedConn(conn, f)), u, Count);
      if conn.writing then t else SetWorker(t, conn.thr, Push(w, StartWrite(c)))
  }

  /** Where the handler is, and what it made of its connection, after a write. */
  function AfterSome(me: Worker, conn: Conn, k: nat): (Handler, Conn)
    requires me.hand.Writing? && k <= |me.hand.local.chain|
  {
    var Writing(c, local, removed) := me.hand;
    var left := Drop(local, k);
    (if left.chain == [] then Test(c, removed + k) else Writing(c, left, removed + k),
     conn.(written := conn.written + local.chain[..k]))
  }

  /** The same after EAGAIN (lines 445-465). */
  function AfterAgain(me: Worker, conn: Conn): (Handler, Conn)
    requires me.hand.Writing?
  {
    var Writing(c, local, removed) := me.hand;
    var lost := if conn.ol.chain == [] then 0 else Unlinked(local, conn.ol);
    (if removed == 0 then Idle else Test(c, removed),
     conn.(ol := MergeBack(local, conn.ol), lost := conn.lost + lost))
  }

  /** Subtracting the written frames (src/core/sock.c:475-492). */
  function AccountStep(s: State, w: nat, c: nat, removed: nat): State
    requires w < |s.workers|
  {
    var r := s.root.(sndqsz := s.root.sndqsz - removed);
    var resume := 0 < r.sndhwm && r.stopWrite && r.sndqsz < r.sndhwm;
    var r' := if resume then r.(stopWrite := false, wantWcond := false) else r;
    SetHand(s, w, Wake(c, resume && r.wantWcond)).(root := r')
  }

  function Released(users: seq<User>): (r: seq<User>)
    ensures |r| == |users|
    ensures forall u :: 0 <= u < |users| ==>
              r[u] == if users[u].Blocked? then Insert(users[u].c, users[u].f) else users[u]
  {
    seq(|users|, u requires 0 <= u < |users| =>
      if users[u].Blocked? then Insert(users[u].c, users[u].f) else users[u])
  }

  /** What a step does. */
  function Apply(s: State, step: Step): State
    requires Enabled(s, step)
  {
    match step
    case AddConn(thr, incoming) =>
      s.(conns := s.conns + [NewConn(thr, incoming)])
    case AttachConn(c) =>
      var conn, w := s.conns[c], s.workers[s.conns[c].thr];
      SetWorker(SetConn(s, c, StartedConn(conn, w)), conn.thr, Push(w, Attach(c)))
    case Swap(w) =>
      SetWorker(s, w, s.workers[w].(batch := s.workers[w].jobs, jobs := []))
    case Pop(w) =>
      var me := s.workers[w];
      if me.batch[0] == Halt then
        SetWorker(s, w, me.(done := me.done + [Halt], dropped := me.batch[1..], batch := [], halted := true))
      else SetWorker(s, w, me.(cur := [me.batch[0]], batch := me.batch[1..]))
    case Exec(w) =>
      var me := s.workers[w];
      var t := me.cur[0];
      SetWorker(SetConn(s, t.c, Execute(s.conns[t.c], t)), w, me.(cur := [], done := me.done + [t]))
    case ScheduleHalt(w) =>
      SetWorker(s, w, Push(s.workers[w], Halt))
    case Read(c, frames) => ReadStep(s, c, frames)
    case Close(c) =>
      SetConn(s, c, s.conns[c].(zombie := true, rio := false, wio := false))
    case WriteEnter(c) =>
      if s.conns[c].zombie then s else SetHand(s, s.conns[c].thr, Test(c, 0))
    case WriteTest(w) =>
      var Test(c, removed) := s.workers[w].hand;
      if s.conns[c].ol.chain == [] then
        SetHand(s, w, if 0 < removed then Account(c, removed) else Stop(c))
      else
        SetConn(SetHand(s, w, Writing(c, s.conns[c].ol, removed)), c, s.conns[c].(ol := EmptyList))
    case WriteSome(w, k) =>
      var c := s.workers[w].hand.c;
      var (hand, conn) := AfterSome(s.workers[w], s.conns[c], k);
      SetConn(SetHand(s, w, hand), c, conn)
    case WriteAgain(w) =>
      var c := s.workers[w].hand.c;
      var (hand, conn) := AfterAgain(s.workers[w], s.conns[c]);
      SetConn(SetHand(s, w, hand), c, conn)
    case WriteAccount(w) =>
      AccountStep(s, w, s.workers[w].hand.c, s.workers[w].hand.removed)
    case WriteWake(w) =>
      var Wake(c, cast) := s.workers[w].hand;
      SetHand(if cast then s.(users := Released(s.users)) else s, w, Stop(c))
    case WriteStop(w) =>
      var c := s.workers[w].hand.c;
      SetConn(SetHand(s, w, Idle), c, s.conns[c].(wio := false, writing := false))
    case SendEnter(u, to, f, dontwait) =>
      if s.conns[to].zombie || (s.root.stopWrite && dontwait) then s else SetUser(s, u, Gate(to, f, dontwait))
    case SendGate(u) =>
      var Gate(c, f, dontwait) := s.users[u];
      SetUser(s, u, if s.root.stopWrite then ToWait(c, f, dontwait) else Insert(c, f))
    case SendWait(u) =>
      var ToWait(c, f, dontwait) := s.users[u];
      SetUser(s, u, Blocked(c, f, dontwait)).(root := s.root.(wantWcond := true))
    case SendInsert(u) =>
      InsertStep(s, u, s.users[u].c, s.users[u].f)
    case SendCount(u) =>
      var r := s.root.(sndqsz := s.root.sndqsz + 1);
      SetUser(s, u, Ready).(root := r.(stopWrite := r.stopWrite || (0 < r.sndhwm <= r.sndqsz)))
    case GetEnter(u, dontwait) =>
      if s.root.events != [] then TakeEvent(s, u)
      else if dontwait then s
      else SetUser(s, u, Polling).(root := s.root.(wantEfd := true))
    case GetTimeout(u) => SetUser(s, u, Ready)
    case GetInterrupt(_) => s.(fault := Interrupted)
    case GetPoll(u) => SetUser(s, u, Signalled)
    case GetUnsignal(u) =>
      if s.root.efd == 0 then s.(fault := NothingToRead)
      else SetUser(s, u, Woken).(root := s.root.(efd := 0))
    case GetWoken(u) => TakeEvent(s, u)
  }

  // ---- runs -----------------------------------------------------------------------

  /** Each step of the sequence can happen when its turn comes. */
  predicate Valid(s: State, steps: seq<Step>)
    decreases |steps|
  {
    steps == [] || (Enabled(s, steps[0]) && Valid(Apply(s, steps[0]), steps[1..]))
  }

  function Run(s: State, steps: seq<Step>): State
    requires Valid(s, steps)
    decreases |steps|
  {
    if steps == [] then s else Run(Apply(s, steps[0]), steps[1..])
  }

  lemma {:induction false} RunSnoc(s: State, steps: seq<Step>, step: Step)
    requires Valid(s, steps) && Enabled(Run(s, steps), step)
    ensures Valid(s, steps + [step]) && Run(s, steps + [step]) == Apply(Run(s, steps), step)
    decreases |steps|
  {
    if steps == [] {
      assert [] + [step] == [step] && [step][1..] == [];
    } else {
      RunSnoc(Apply(s, steps[0]), steps[1..], step);
      assert (steps + [step])[0] == steps[0] && (steps + [step])[1..] == steps[1..] + [step];
    }
  }
}
