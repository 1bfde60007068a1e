/** A worker runs one callback at a time, and a closed connection stays closed: what the event loop
    and the flag of a closed connection (src/core/sock.c:396-420, src/core/global.c:253-256) keep out. */
module Callbacks {
  import opened Machine
  import opened Flow
  import opened Invariant
  import opened Preservation
  import opened Routines

  /** Between the start of a callback and its end the worker's thread does nothing but go on with
      it: a popped task is executed, a batch is popped, a handler takes its next step; and after its
      stop task it does nothing at all. */
  lemma OneAtATime(s: State, step: Step, w: nat)
    requires Core(s) && Enabled(s, step) && w < |s.workers| && Own(s.conns, step, w)
    ensures var me := s.workers[w];
            && !me.halted
            && (me.hand != Idle ==> HandStep(me.hand, step, w))
            && (me.cur != [] ==> step == Exec(w))
            && (me.cur == [] && me.batch != [] ==> step == Pop(w))
  {
    assert QueuesOk(s.workers[w]);
  }

  // ---- the batch -------------------------------------------------------------------------------

  /** What the worker has taken out of its shared queue, ever, in the order in which it was taken. */
  function Lane(me: Worker): seq<Task> {
    me.done + me.cur + me.batch + me.dropped
  }

  lemma OwnLane(s: State, step: Step, w: nat)
    requires Core(s) && Enabled(s, step) && w < |s.workers| && Own(s.conns, step, w)
    requires step.Pop? || step.Exec?
    ensures w < |Apply(s, step).workers| && Lane(Apply(s, step).workers[w]) == Lane(s.workers[w])
  {
    var me := s.workers[w];
    assert QueuesOk(me);
    if step.Pop? {
      assert me.batch == [me.batch[0]] + me.batch[1..];
    } else {
      assert me.cur == [me.cur[0]];
    }
  }

  lemma HandLane(s: State, step: Step, w: nat)
    requires Enabled(s, step) && w < |s.workers| && WriteStep(step)
    ensures w < |Apply(s, step).workers| && Lane(Apply(s, step).workers[w]) == Lane(s.workers[w])
  {
  }

  lemma ReadLane(s: State, step: Step, w: nat)
    requires Enabled(s, step) && w < |s.workers| && (step.Read? || step.Close?)
    ensures w < |Apply(s, step).workers| && Lane(Apply(s, step).workers[w]) == Lane(s.workers[w])
  {
    if step.Read? {
      ReadUntouched(s, step.c, step.frames, w);
    }
  }

  /** Only the swap adds to it, and nothing is taken from it or reordered. */
  lemma LaneStays(s: State, step: Step, w: nat)
    requires Core(s) && Enabled(s, step) && w < |s.workers| && step != Swap(w)
    ensures w < |Apply(s, step).workers| && Lane(Apply(s, step).workers[w]) == Lane(s.workers[w])
  {
    if !Own(s.conns, step, w) {
      OthersUntouched(s, step, w);
    } else if step.Pop? || step.Exec? {
      OwnLane(s, step, w);
    } else if WriteStep(step) {
      HandLane(s, step, w);
    } else {
      ReadLane(s, step, w);
    }
  }

  lemma {:induction false} LaneStaysRun(s: State, steps: seq<Step>, w: nat)
    requires Core(s) && Valid(s, steps) && w < |s.workers| && Swap(w) !in steps
    ensures w < |Run(s, steps).workers| && Lane(Run(s, steps).workers[w]) == Lane(s.workers[w])
    decreases |steps|
  {
    if steps != [] {
      CoreStep(s, steps[0]);
      LaneStays(s, steps[0], w);
      LaneStaysRun(Apply(s, steps[0]), steps[1..], w);
    }
  }

  /** In every run that goes on from a swap, under any interleaving: when the worker is through with
      its batch and has not swapped again, it has executed exactly the tasks that were queued at the
      swap, in order, up to the stop task if that is among them, and discarded those behind it. */
  lemma BatchInAnyRun(s: State, w: nat, steps: seq<Step>)
    requires Core(s) && Enabled(s, Swap(w)) && Valid(Apply(s, Swap(w)), steps) && Swap(w) !in steps
    ensures w < |Run(Apply(s, Swap(w)), steps).workers|
    ensures var was, me := s.workers[w], Run(Apply(s, Swap(w)), steps).workers[w];
            me.cur == [] && me.batch == [] ==>
              if me.halted then
                && me.done + me.dropped == was.done + was.jobs
                && me.done != [] && me.done[|me.done| - 1] == Halt && Halt !in me.done[..|me.done| - 1]
              else me.done == was.done + was.jobs && Halt !in was.jobs
  {
    var was, t := s.workers[w], Apply(s, Swap(w));
    assert QueuesOk(was);
    assert Lane(t.workers[w]) == was.done + was.jobs;
    CoreStep(s, Swap(w));
    LaneStaysRun(t, steps, w);
    CoreRun(t, steps);
    assert QueuesOk(Run(t, steps).workers[w]);
    if Run(t, steps).workers[w].cur == [] && Run(t, steps).workers[w].batch == [] {
      Through(was, Run(t, steps).workers[w]);
    }
  }

  lemma Through(was: Worker, me: Worker)
    requires QueuesOk(me) && Lane(me) == was.done + was.jobs && me.cur == [] && me.batch == []
    ensures if me.halted then
              && me.done + me.dropped == was.done + was.jobs
              && me.done != [] && me.done[|me.done| - 1] == Halt && Halt !in me.done[..|me.done| - 1]
            else me.done == was.done + was.jobs && Halt !in was.jobs
  {
    assert Lane(me) == me.done + me.dropped;
    assert forall x :: x in was.jobs ==> x in was.done + was.jobs;
  }

  // ---- closed connections --------------------------------------------------------------------

  predicate Closed(s: State, c: nat) {
    c < |s.conns| && s.conns[c].zombie
  }

  /** Whenever a connection can be read, what is read can be frames, in any number, or its end; and
      nothing but a stopped watcher or a worker that is busy or stopped keeps it from being read. */
  lemma ReadOrClose(s: State, c: nat, frames: seq<Frame>)
    requires s.fault == NoFault && Wired(s) && c < |s.conns|
    ensures Enabled(s, Read(c, frames)) <==> Enabled(s, Close(c))
    ensures var me := s.workers[s.conns[c].thr];
            Enabled(s, Read(c, frames)) || !s.conns[c].rio || me.halted || me.cur != [] || me.batch != [] || me.hand != Idle
  {
  }

  /** Closing ends all callbacks of the connection at once. */
  lemma CloseStops(s: State, c: nat)
    requires Enabled(s, Close(c))
    ensures var t := Apply(s, Close(c));
            && Closed(t, c) && !Enabled(t, Close(c)) && !Enabled(t, WriteEnter(c))
            && forall frames :: !Enabled(t, Read(c, frames))
  {
  }

  /** From then on no send to it is let in, and its write handler returns at once. */
  lemma ClosedRefuses(s: State, step: Step, c: nat)
    requires Closed(s, c) && Enabled(s, step) && ((step.SendEnter? && step.to == c) || step == WriteEnter(c))
    ensures Apply(s, step) == s
  {
  }

  lemma DecideClosed(s: State, on: bool, c: nat)
    requires Wired(s) && c < |s.conns|
    ensures c < |DecideAll(s, on).conns| && (Closed(DecideAll(s, on), c) <==> Closed(s, c))
  {
    BulkConns(Flagged(s, on), on, |s.conns|, c);
  }

  lemma ReadClosed(s: State, d: nat, frames: seq<Frame>, c: nat)
    requires Wired(s) && d < |s.conns| && c < |s.conns|
    ensures Closed(ReadStep(s, d, frames), c) <==> Closed(s, c)
  {
    DecideClosed(SetConn(s, d, s.conns[d].(parsed := s.conns[d].parsed + frames)).(root := ReadRoot(s.root, d, frames)),
                 false, c);
  }

  lemma TakeClosed(s: State, u: nat, c: nat)
    requires Wired(s) && u < |s.users| && c < |s.conns|
    ensures Closed(TakeEvent(s, u), c) <==> Closed(s, c)
  {
    if s.root.events != [] {
      DecideClosed(SetUser(s, u, Ready).(root := TakeRoot(s.root)), true, c);
    }
  }

  lemma ExecClosed(s: State, w: nat, c: nat)
    requires Enabled(s, Exec(w)) && c < |s.conns|
    ensures Closed(Apply(s, Exec(w)), c) <==> Closed(s, c)
  {
    var t := s.workers[w].cur[0];
    assert Execute(s.conns[t.c], t).zombie == s.conns[t.c].zombie;
  }

  lemma CloseClosed(s: State, d: nat, c: nat)
    requires Enabled(s, Close(d)) && c < |s.conns|
    ensures Closed(Apply(s, Close(d)), c) <==> Closed(s, c) || d == c
  {
  }

  lemma LoopClosed(s: State, step: Step, c: nat)
    requires Enabled(s, step) && c < |s.conns| && !step.Exec? && !step.Close? && (WorkerStep(step) || step.AddConn?)
    ensures Closed(Apply(s, step), c) <==> Closed(s, c)
  {
  }

  lemma HandlerClosed(s: State, step: Step, c: nat)
    requires Enabled(s, step) && c < |s.conns| && WriteStep(step)
    ensures Closed(Apply(s, step), c) <==> Closed(s, c)
  {
  }

  lemma UserClosed(s: State, step: Step, c: nat)
    requires Enabled(s, step) && c < |s.conns| && !TakeStep(s, step)
    requires !WorkerStep(step) && !WriteStep(step) && !step.AddConn? && !step.Read?
    ensures Closed(Apply(s, step), c) <==> Closed(s, c)
  {
  }

  /** A connection is closed by its read handler's end and by nothing else, and for good. */
  lemma ClosedExactly(s: State, step: Step, c: nat)
    requires Enabled(s, step) && c < |s.conns|
    ensures Closed(Apply(s, step), c) <==> Closed(s, c) || step == Close(c)
  {
    if step.Exec? {
      ExecClosed(s, step.w, c);
    } else if step.Close? {
      CloseClosed(s, step.c, c);
    } else if WorkerStep(step) || step.AddConn? {
      LoopClosed(s, step, c);
    } else if WriteStep(step) {
      HandlerClosed(s, step, c);
    } else if step.Read? {
      ReadClosed(s, step.c, step.frames, c);
    } else if TakeStep(s, step) {
      TakeClosed(s, step.u, c);
    } else {
      UserClosed(s, step, c);
    }
  }

  // ---- the watchers --------------------------------------------------------------------------------

  /** The step executes this task. */
  predicate Executes(s: State, step: Step, x: Task) {
    step.Exec? && step.w < |s.workers| && s.workers[step.w].cur == [x]
  }

  /** A read watcher is started by the attach task and the task to start reading and stopped by the
      one to stop reading and by closing; a write watcher is started by the write task and stopped by
      the handler's end, by closing, and by the attach task. Being closed makes no difference to the
      tasks. */
  predicate Watches(s: State, step: Step, t: State, c: nat) {
    && c < |s.conns| && c < |t.conns|
    && t.conns[c].rio ==
         (if Executes(s, step, Attach(c)) || Executes(s, step, StartRead(c)) then true
          else if Executes(s, step, StopRead(c)) || step == Close(c) then false
          else s.conns[c].rio)
    && t.conns[c].wio ==
         (if Executes(s, step, StartWrite(c)) then true
          else if Executes(s, step, Attach(c)) || step == Close(c)
                  || (step.WriteStop? && step.w < |s.workers| && !s.workers[step.w].hand.Idle? && s.workers[step.w].hand.c == c)
               then false
          else s.conns[c].wio)
  }

  predicate SameWatchers(s: State, t: State, c: nat) {
    c < |s.conns| && c < |t.conns| && t.conns[c].rio == s.conns[c].rio && t.conns[c].wio == s.conns[c].wio
  }

  lemma DecideWatches(s: State, on: bool, c: nat)
    requires Wired(s) && c < |s.conns|
    ensures SameWatchers(s, DecideAll(s, on), c)
  {
    BulkConns(Flagged(s, on), on, |s.conns|, c);
  }

  lemma ReadWatches(s: State, d: nat, frames: seq<Frame>, c: nat)
    requires Wired(s) && d < |s.conns| && c < |s.conns|
    ensures SameWatchers(s, ReadStep(s, d, frames), c)
  {
    DecideWatches(SetConn(s, d, s.conns[d].(parsed := s.conns[d].parsed + frames)).(root := ReadRoot(s.root, d, frames)),
                  false, c);
  }

  lemma TakeWatches(s: State, u: nat, c: nat)
    requires Wired(s) && u < |s.users| && c < |s.conns|
    ensures SameWatchers(s, TakeEvent(s, u), c)
  {
    if s.root.events != [] {
      DecideWatches(SetUser(s, u, Ready).(root := TakeRoot(s.root)), true, c);
    }
  }

  lemma ExecWatches(s: State, w: nat, c: nat)
    requires Enabled(s, Exec(w)) && c < |s.conns|
    ensures Watches(s, Exec(w), Apply(s, Exec(w)), c)
  {
    var x := s.workers[w].cur[0];
    assert s.workers[w].cur == [x];
    assert forall y :: s.workers[w].cur == [y] <==> y == x;
    assert Apply(s, Exec(w)).conns == s.conns[x.c := Execute(s.conns[x.c], x)];
  }

  lemma LoopWatches(s: State, step: Step, c: nat)
    requires Enabled(s, step) && c < |s.conns| && !step.Exec? && !step.Close? && (WorkerStep(step) || step.AddConn?)
    ensures Watches(s, step, Apply(s, step), c)
  {
  }

  lemma CloseWatches(s: State, d: nat, c: nat)
    requires Enabled(s, Close(d)) && c < |s.conns|
    ensures Watches(s, Close(d), Apply(s, Close(d)), c)
  {
  }

  lemma HandlerWatches(s: State, step: Step, c: nat)
    requires Enabled(s, step) && c < |s.conns| && WriteStep(step) && !step.WriteStop?
    ensures Watches(s, step, Apply(s, step), c)
  {
  }

  lemma StopWatches(s: State, w: nat, c: nat)
    requires Enabled(s, WriteStop(w)) && c < |s.conns|
    ensures Watches(s, WriteStop(w), Apply(s, WriteStop(w)), c)
  {
  }

  lemma UserWatches(s: State, step: Step, c: nat)
    requires Enabled(s, step) && c < |s.conns| && !TakeStep(s, step)
    requires !WorkerStep(step) && !WriteStep(step) && !step.AddConn? && !step.Read?
    ensures Watches(s, step, Apply(s, step), c)
  {
  }

  /** Nothing else starts or stops a watcher. */
  lemma WatchersExactly(s: State, step: Step, c: nat)
    requires Enabled(s, step) && c < |s.conns|
    ensures Watches(s, step, Apply(s, step), c)
  {
    if step.Exec? {
      ExecWatches(s, step.w, c);
    } else if step.Close? {
      CloseWatches(s, step.c, c);
    } else if WorkerStep(step) || step.AddConn? {
      LoopWatches(s, step, c);
    } else if step.WriteStop? {
      StopWatches(s, step.w, c);
    } else if WriteStep(step) {
      HandlerWatches(s, step, c);
    } else if step.Read? {
      ReadWatches(s, step.c, step.frames, c);
    } else if TakeStep(s, step) {
      TakeWatches(s, step.u, c);
    } else {
      UserWatches(s, step, c);
    }
  }
}
