/** The socket as the code keeps it: fields updated in place, under the locks, by the handlers
    of src/core/sock.c, the calls of src/core/global.c and the loop of src/utils/thread.c.
    Each critical section is one step of the machine; each whole routine is a run of it, with
    any steps of other threads in between. */
module Net {
  import opened Machine

  const STOP_OP: int := -1

  /** What writev can answer: bytes that complete k frames, or EAGAIN. */
  datatype WriteResult = Wrote(k: nat) | Again

  class Net {
    // fields of the root socket
    const sndhwm: int
    const rcvhwm: int
    var reading: int
    var writing: int
    var sndqsz: int
    var rcvqsz: int
    var wantEfd: bool
    var wantWcond: bool
    var efd: nat
    var events: seq<Event>
    var conns: seq<Conn>
    // the workers, and where each user thread stands
    var workers: seq<Worker>
    var users: seq<User>
    var fault: Fault
    // history
    ghost var taken: seq<Event>
    ghost var decided: nat

    ghost function RootView(): Root
      reads this
    {
      Root(sndhwm, rcvhwm, sndqsz, rcvqsz, reading == STOP_OP, writing == STOP_OP,
           wantEfd, efd, wantWcond, events, taken, decided)
    }

    ghost function View(): State
      reads this
    {
      State(RootView(), conns, workers, users, fault)
    }

    constructor (sndhwm: int, rcvhwm: int, n: nat)
      ensures View() == Init(sndhwm, rcvhwm, n)
    {
      this.sndhwm, this.rcvhwm := sndhwm, rcvhwm;
      reading, writing, sndqsz, rcvqsz := 0, 0, 0, 0;
      wantEfd, wantWcond, efd := false, false, 0;
      events, conns, taken, decided := [], [], [], 0;
      workers := seq(WORKERS, _ => InitWorker());
      users := seq(n, _ => Ready);
      fault := NoFault;
    }

    /** One turn of the bulk macro. */
    method DecideConn(c: nat, on: bool)
      requires c < |conns| && conns[c].thr < |workers|
      modifies this`conns, this`workers
      ensures View() == DecideOne(old(View()), c, on)
    {
      var thr := conns[c].thr;
      var me, was := workers[thr], workers[thr];
      if !InQueue(me, ReadTask(c, on)) {
        me := Push(me, ReadTask(c, on));
      }
      if InQueue(me, ReadTask(c, !on)) {
        me := Cancel(me, ReadTask(c, !on));
      }
      workers := workers[thr := me];
      conns := conns[c := DecidedConn(conns[c], was, c, on)];
    }

    method BulkTurn(ghost s: State, c: nat, on: bool)
      requires Wired(s) && c < |s.conns| && View() == Bulk(s, on, c)
      modifies this`conns, this`workers
      ensures View() == Bulk(s, on, c + 1) && |conns| == |s.conns|
    {
      BulkNext(s, on, c);
      DecideConn(c, on);
    }

    /** fsock_sock_bulk_schedule_unsafe over every connection, in slot order. */
    method BulkSchedule(on: bool)
      requires Wired(View())
      modifies this`conns, this`workers
      ensures View() == Bulk(old(View()), on, |old(View()).conns|)
    {
      ghost var s := View();
      var n := |conns|;
      for i := 0 to n
        invariant View() == Bulk(s, on, i)
      {
        BulkTurn(s, i, on);
      }
    }

    /** The private batch of a read handler (src/core/sock.c:340-359). */
    method Collect(c: nat, frames: seq<Frame>) returns (queue: seq<Event>, cnt: nat)
      ensures queue == Batch(c, frames) && cnt == |frames|
    {
      queue, cnt := [], 0;
      while cnt < |frames|
        invariant cnt <= |frames| && queue + Batch(c, frames[cnt..]) == Batch(c, frames)
      {
        assert frames[cnt..][1..] == frames[cnt + 1..];
        queue := queue + [Event(c, frames[cnt])];
        cnt := cnt + 1;
      }
      assert frames[cnt..] == [];
    }

    /** The critical section of the read handler up to the mark (lines 363-382). */
    method HandOver(c: nat, queue: seq<Event>, cnt: nat, frames: seq<Frame>)
      requires c < |conns| && queue == Batch(c, frames) && cnt == |frames|
      modifies this`rcvqsz, this`events, this`efd, this`wantEfd, this`conns
      ensures View() == SetConn(old(View()), c, old(conns)[c].(parsed := old(conns)[c].parsed + frames))
                          .(root := ReadRoot(old(RootView()), c, frames))
    {
      conns := conns[c := conns[c].(parsed := conns[c].parsed + frames)];
      rcvqsz := rcvqsz + cnt;
      if cnt > 0 {
        events := events + queue;
        if wantEfd {
          efd := efd + 1;
          wantEfd := false;
        }
      }
      assert RootView() == ReadRoot(old(RootView()), c, frames);
    }

    /** Stopping or starting every reader: the flag, then the bulk macro. */
    method DecideReads(on: bool)
      requires Wired(View())
      modifies this`reading, this`decided, this`conns, this`workers
      ensures View() == DecideAll(old(View()), on)
    {
      reading := if on then 0 else STOP_OP;
      decided := |conns|;
      assert View() == Flagged(old(View()), on);
      BulkSchedule(on);
    }

    /** The read handler once the parser has its frames (src/core/sock.c:340-392). */
    method ReadHandler(c: nat, frames: seq<Frame>)
      requires Wired(View()) && c < |conns|
      modifies this
      ensures View() == ReadStep(old(View()), c, frames)
    {
      var queue, cnt := Collect(c, frames);
      HandOver(c, queue, cnt, frames);
      if rcvhwm > 0 && rcvhwm < rcvqsz {
        DecideReads(false);
      }
    }

    /** Taking one event under the lock (src/core/global.c:216-229). */
    method TakeLocked(u: nat) returns (r: seq<Event>)
      requires Wired(View()) && u < |users|
      modifies this
      ensures View() == TakeEvent(old(View()), u)
      ensures r == if old(events) == [] then [] else [old(events)[0]]
    {
      if events == [] {
        fault := NothingQueued;
        return [];
      }
      r := [events[0]];
      taken := taken + r;
      events := events[1..];
      rcvqsz := rcvqsz - 1;
      users := users[u := Ready];
      if rcvhwm > 0 && reading == STOP_OP && rcvqsz < rcvhwm {
        DecideReads(true);
      }
    }

    /** The insertion of fsock_send (lines 271-278). */
    method InsertLocked(u: nat, c: nat, f: Frame)
      requires Wired(View()) && u < |users| && c < |conns|
      modifies this`conns, this`workers, this`users, this`fault
      ensures View() == InsertStep(old(View()), u, c, f)
    {
      var conn := conns[c];
      if !conn.writing {
        if InQueue(workers[conn.thr], StartWrite(c)) {
          fault := PushedTwice;
          return;
        }
        workers := workers[conn.thr := Push(workers[conn.thr], StartWrite(c))];
        conn := conn.(writing := true);
      }
      conn := conn.(ol := Append(conn.ol, f), sent := conn.sent + [f],
                    lost := conn.lost + Unlinked(conn.ol, OutList([f], 0)));
      conns := conns[c := conn];
      users := users[u := Count];
    }

    /** Counting it (lines 281-290). */
    method CountLocked(u: nat)
      requires Enabled(View(), SendCount(u))
      modifies this`sndqsz, this`writing, this`users
      ensures View() == Apply(old(View()), SendCount(u))
    {
      sndqsz := sndqsz + 1;
      if sndhwm > 0 && writing != STOP_OP && sndqsz >= sndhwm {
        writing := STOP_OP;
      }
      users := users[u := Ready];
    }

    /** Subtracting what a write handler removed (src/core/sock.c:475-492). */
    method AccountLocked(w: nat, c: nat, removed: nat)
      requires w < |workers|
      modifies this`sndqsz, this`writing, this`wantWcond, this`workers
      ensures View() == AccountStep(old(View()), w, c, removed)
    {
      sndqsz := sndqsz - removed;
      var broadcast := false;
      if sndhwm > 0 && writing == STOP_OP && sndqsz < sndhwm {
        writing := 0;
        if wantWcond {
          wantWcond := false;
          broadcast := true;
        }
      }
      workers := workers[w := workers[w].(hand := Wake(c, broadcast))];
    }

    // ---- the worker loop ------------------------------------------------------------------

    /** Connecting or accepting: the table entry (src/core/global.c:179-181,
        src/core/sock.c:187-189). */
    method AddLocked(thr: nat, incoming: bool)
      requires Enabled(View(), AddConn(thr, incoming))
      modifies this`conns
      ensures View() == Apply(old(View()), AddConn(thr, incoming))
    {
      conns := conns + [NewConn(thr, incoming)];
    }

    /** The attach task, scheduled afterwards without the root's lock (src/core/global.c:186,
        src/core/sock.c:201). */
    method AttachLocked(c: nat)
      requires Enabled(View(), AttachConn(c)) && conns[c].thr < |workers|
      modifies this`conns, this`workers
      ensures View() == Apply(old(View()), AttachConn(c))
    {
      var thr := conns[c].thr;
      conns := conns[c := StartedConn(conns[c], workers[thr])];
      workers := workers[thr := Push(workers[thr], Attach(c))];
    }

    /** The swap at the head of async_routine (src/utils/thread.c:87-92). */
    method SwapLocked(w: nat)
      requires Enabled(View(), Swap(w))
      modifies this`workers
      ensures View() == Apply(old(View()), Swap(w))
    {
      workers := workers[w := workers[w].(batch := workers[w].jobs, jobs := [])];
    }

    /** Popping the next task of the private batch; at the stop task the rest is discarded
        (lines 95-100). */
    method PopBatch(w: nat)
      requires Enabled(View(), Pop(w))
      modifies this`workers
      ensures View() == Apply(old(View()), Pop(w))
    {
      var me := workers[w];
      var item := me.batch[0];
      if item == Halt {
        me := me.(done := me.done + [Halt], dropped := me.batch[1..], batch := [], halted := true);
      } else {
        me := me.(cur := [item], batch := me.batch[1..]);
      }
      workers := workers[w := me];
    }

    /** The task callback (src/core/sock.c:16-45, src/utils/thread.c:127-137). */
    method TaskRoutine(w: nat)
      requires Enabled(View(), Exec(w))
      modifies this`workers, this`conns
      ensures View() == Apply(old(View()), Exec(w))
    {
      var task := workers[w].cur[0];
      var conn := conns[task.c];
      match task {
        case Attach(_) => conn := conn.(rio := true, wio := false, cut := conn.cut || (conn.wio && !conn.zombie));
        case StartRead(_) => conn := conn.(rio := true);
        case StopRead(_) => conn := conn.(rio := false);
        case StartWrite(_) => conn := conn.(wio := true);
      }
      conns := conns[task.c := conn];
      workers := workers[w := workers[w].(cur := [], done := workers[w].done + [task])];
    }

    // ---- the write handler ------------------------------------------------------------------

    /** Testing for empty and taking the whole list (src/core/sock.c:423-438). */
    method TakeList(w: nat)
      requires Enabled(View(), WriteTest(w))
      modifies this`workers, this`conns
      ensures View() == Apply(old(View()), WriteTest(w))
    {
      var c, removed := workers[w].hand.c, workers[w].hand.removed;
      var hand := Writing(c, conns[c].ol, removed);
      if conns[c].ol.chain == [] {
        hand := if removed > 0 then Account(c, removed) else Stop(c);
      } else {
        conns := conns[c := conns[c].(ol := EmptyList)];
      }
      workers := workers[w := workers[w].(hand := hand)];
    }

    /** After a write that completed k frames (line 470). */
    method FramesWritten(w: nat, k: nat)
      requires Enabled(View(), WriteSome(w, k))
      modifies this`workers, this`conns
      ensures View() == Apply(old(View()), WriteSome(w, k))
    {
      var c, ol, removed := workers[w].hand.c, workers[w].hand.local, workers[w].hand.removed;
      conns := conns[c := conns[c].(written := conns[c].written + ol.chain[..k])];
      ol, removed := Drop(ol, k), removed + k;
      workers := workers[w := workers[w].(hand := if ol.chain == [] then Test(c, removed) else Writing(c, ol, removed))];
    }

    /** Linking what is left of the private list before the new frames (lines 447-459). */
    method Merge(ol: OutList, conn: Conn) returns (merged: Conn)
      ensures merged == conn.(ol := MergeBack(ol, conn.ol),
                              lost := conn.lost + if conn.ol.chain == [] then 0 else Unlinked(ol, conn.ol))
    {
      merged := conn.(ol := ol);
      if conn.ol.chain != [] {
        merged := conn.(ol := Link(ol, conn.ol, ol.last), lost := conn.lost + Unlinked(ol, conn.ol));
      }
    }

    /** The EAGAIN branch (lines 445-465). */
    method PutBack(w: nat)
      requires Enabled(View(), WriteAgain(w))
      modifies this`workers, this`conns
      ensures View() == Apply(old(View()), WriteAgain(w))
    {
      var c, removed := workers[w].hand.c, workers[w].hand.removed;
      var conn := Merge(workers[w].hand.local, conns[c]);
      conns := conns[c := conn];
      workers := workers[w := workers[w].(hand := if removed == 0 then Idle else Test(c, removed))];
    }

    /** pthread_cond_broadcast: every blocked sender goes on (line 494). */
    method ReleaseAll()
      modifies this`users
      ensures users == Released(old(users))
    {
      var u := 0;
      while u < |users|
        invariant u <= |users| == |old(users)|
        invariant forall i :: 0 <= i < |users| ==> users[i] == if i < u then Released(old(users))[i] else old(users)[i]
      {
        if users[u].Blocked? {
          users := users[u := Insert(users[u].c, users[u].f)];
        }
        u := u + 1;
      }
    }

    method WakeSenders(w: nat)
      requires Enabled(View(), WriteWake(w))
      modifies this`workers, this`users
      ensures View() == Apply(old(View()), WriteWake(w))
    {
      var c, broadcast := workers[w].hand.c, workers[w].hand.cast;
      workers := workers[w := workers[w].(hand := Stop(c))];
      if broadcast {
        ReleaseAll();
      }
    }

    /** The stop label (lines 503-506). */
    method ResetWriting(w: nat)
      requires Enabled(View(), WriteStop(w))
      modifies this`workers, this`conns
      ensures View() == Apply(old(View()), WriteStop(w))
    {
      var c := workers[w].hand.c;
      conns := conns[c := conns[c].(wio := false, writing := false)];
      workers := workers[w := workers[w].(hand := Idle)];
    }

    // ---- fsock_send and fsock_get_event, up to and between their critical sections -------------

    /** The tests before the gate (src/core/global.c:253-258). */
    method EnterSend(u: nat, to: nat, f: Frame, dontwait: bool) returns (entered: bool)
      requires Enabled(View(), SendEnter(u, to, f, dontwait))
      modifies this`users
      ensures View() == Apply(old(View()), SendEnter(u, to, f, dontwait))
      ensures entered <==> !conns[to].zombie && !(writing == STOP_OP && dontwait)
    {
      if conns[to].zombie {
        return false;
      }
      if writing == STOP_OP && dontwait {
        return false;
      }
      users := users[u := Gate(to, f, dontwait)];
      entered := true;
    }

    /** The second test of `writing` (line 259). */
    method PassGate(u: nat)
      requires Enabled(View(), SendGate(u))
      modifies this`users
      ensures View() == Apply(old(View()), SendGate(u))
    {
      var c, f, dontwait := users[u].c, users[u].f, users[u].dontwait;
      users := users[u := if writing == STOP_OP then ToWait(c, f, dontwait) else Insert(c, f)];
    }

    /** Asking for the broadcast and going to sleep (lines 260-262). */
    method Sleep(u: nat)
      requires Enabled(View(), SendWait(u))
      modifies this`users, this`wantWcond
      ensures View() == Apply(old(View()), SendWait(u))
    {
      wantWcond := true;
      users := users[u := Blocked(users[u].c, users[u].f, users[u].dontwait)];
    }

    /** The head of fsock_get_event (lines 195-203). */
    method EnterGet(u: nat, dontwait: bool) returns (r: seq<Event>)
      requires Enabled(View(), GetEnter(u, dontwait))
      modifies this
      ensures View() == Apply(old(View()), GetEnter(u, dontwait))
      ensures r == if old(events) == [] then [] else [old(events)[0]]
    {
      r := [];
      if events != [] {
        r := TakeLocked(u);
      } else if !dontwait {
        wantEfd := true;
        users := users[u := Polling];
      }
    }

    /** What the descriptor does to a waiting reader (lines 205-213). */
    method DescriptorStep(u: nat, step: Step)
      requires Enabled(View(), step)
      requires step == GetTimeout(u) || step == GetInterrupt(u) || step == GetPoll(u) || step == GetUnsignal(u)
      modifies this`users, this`efd, this`fault
      ensures View() == Apply(old(View()), step)
    {
      match step {
        case GetTimeout(_) => users := users[u := Ready];
        case GetInterrupt(_) => fault := Interrupted;
        case GetPoll(_) => users := users[u := Signalled];
        case GetUnsignal(_) =>
          if efd == 0 {
            fault := NothingToRead;
          } else {
            efd := 0;
            users := users[u := Woken];
          }
      }
    }

    /** End of stream or a parse error (src/core/sock.c:396-406). */
    method CloseConn(c: nat)
      requires Enabled(View(), Close(c))
      modifies this`conns
      ensures View() == Apply(old(View()), Close(c))
    {
      conns := conns[c := conns[c].(rio := false, wio := false, zombie := true)];
    }

    /** The entry of the write handler (lines 412-420). */
    method EnterHandler(c: nat)
      requires Enabled(View(), WriteEnter(c))
      modifies this`workers
      ensures View() == Apply(old(View()), WriteEnter(c))
    {
      if !conns[c].zombie {
        workers := workers[conns[c].thr := workers[conns[c].thr].(hand := Test(c, 0))];
      }
    }

    /** fsock_thread_join schedules the stop task (src/utils/thread.c:73). */
    method ScheduleStop(w: nat)
      requires Enabled(View(), ScheduleHalt(w))
      modifies this`workers
      ensures View() == Apply(old(View()), ScheduleHalt(w))
    {
      workers := workers[w := Push(workers[w], Halt)];
    }

    // ---- other threads ------------------------------------------------------------------------

    method PerformWorker(step: Step)
      requires Enabled(View(), step)
      requires step.AddConn? || step.AttachConn? || step.Swap? || step.Pop? || step.Exec? || step.ScheduleHalt?
               || step.Close? || step.Read?
      modifies this
      ensures View() == Apply(old(View()), step)
    {
      match step {
        case AddConn(thr, incoming) => AddLocked(thr, incoming);
        case AttachConn(c) => AttachLocked(c);
        case Swap(w) => SwapLocked(w);
        case Pop(w) => PopBatch(w);
        case Exec(w) => TaskRoutine(w);
        case ScheduleHalt(w) => ScheduleStop(w);
        case Close(c) => CloseConn(c);
        case Read(c, frames) => ReadHandler(c, frames);
      }
    }

    method PerformWrite(step: Step)
      requires Enabled(View(), step)
      requires step.WriteEnter? || step.WriteTest? || step.WriteSome? || step.WriteAgain? || step.WriteAccount?
               || step.WriteWake? || step.WriteStop?
      modifies this
      ensures View() == Apply(old(View()), step)
    {
      match step {
        case WriteEnter(c) => EnterHandler(c);
        case WriteTest(w) => TakeList(w);
        case WriteSome(w, k) => FramesWritten(w, k);
        case WriteAgain(w) => PutBack(w);
        case WriteAccount(w) => AccountLocked(w, workers[w].hand.c, workers[w].hand.removed);
        case WriteWake(w) => WakeSenders(w);
        case WriteStop(w) => ResetWriting(w);
      }
    }

    method PerformUser(step: Step)
      requires Enabled(View(), step)
      requires step.SendEnter? || step.SendGate? || step.SendWait? || step.SendInsert? || step.SendCount?
               || step.GetEnter? || step.GetTimeout? || step.GetInterrupt? || step.GetPoll? || step.GetUnsignal?
               || step.GetWoken?
      modifies this
      ensures View() == Apply(old(View()), step)
    {
      match step {
        case SendEnter(u, to, f, dontwait) => var _ := EnterSend(u, to, f, dontwait);
        case SendGate(u) => PassGate(u);
        case SendWait(u) => Sleep(u);
        case SendInsert(u) => InsertLocked(u, users[u].c, users[u].f);
        case SendCount(u) => CountLocked(u);
        case GetEnter(u, dontwait) => var _ := EnterGet(u, dontwait);
        case GetWoken(u) => var _ := TakeLocked(u);
        case GetTimeout(u) => DescriptorStep(u, step);
        case GetInterrupt(u) => DescriptorStep(u, step);
        case GetPoll(u) => DescriptorStep(u, step);
        case GetUnsignal(u) => DescriptorStep(u, step);
      }
    }

    method CanPerform(step: Step) returns (can: bool)
      ensures can <==> Enabled(View(), step)
    {
      var now := Root(sndhwm, rcvhwm, sndqsz, rcvqsz, reading == STOP_OP, writing == STOP_OP,
                      wantEfd, efd, wantWcond, events, [], 0);
      can := Enabled(State(now, conns, workers, users, fault), step);
    }

    /** Any step, carried out in place. */
    method Perform(step: Step)
      requires Enabled(View(), step)
      modifies this
      ensures View() == Apply(old(View()), step)
    {
      if step.AddConn? || step.AttachConn? || step.Swap? || step.Pop? || step.Exec? || step.ScheduleHalt?
        || step.Close? || step.Read? {
        PerformWorker(step);
      } else if step.WriteEnter? || step.WriteTest? || step.WriteSome? || step.WriteAgain? || step.WriteAccount?
                || step.WriteWake? || step.WriteStop? {
        PerformWrite(step);
      } else {
        PerformUser(step);
      }
    }
  }
}
