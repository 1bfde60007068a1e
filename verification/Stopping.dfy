/** A task that no decision concerns - the stop task, an attach task, a write task - stays with its
    worker once it is scheduled: nobody cancels it. So a worker that is told to stop does. */
module Stopping {
  import opened Machine
  import opened Invariant
  import opened Preservation
  import opened Flow

  /** Pending, executed, or discarded by the stop task. */
  predicate Has(me: Worker, x: Task) {
    x in me.jobs || x in me.batch || x in me.cur || x in me.done || x in me.dropped
  }

  predicate Decidable(x: Task) {
    x.StartRead? || x.StopRead?
  }

  predicate HasAt(s: State, w: nat, x: Task) {
    w < |s.workers| && Has(s.workers[w], x)
  }

  lemma {:induction false} RemoveKeeps(q: seq<Task>, t: Task, x: Task)
    requires x in q && x != t
    ensures x in Remove(q, t)
  {
    if q[0] != t && q[0] != x {
      RemoveKeeps(q[1..], t, x);
    }
  }

  lemma DecideKeeps(me: Worker, c: nat, on: bool, x: Task)
    requires !Decidable(x) && Has(me, x)
    ensures Has(Decide(me, c, on), x)
  {
    var pushed := if InQueue(me, ReadTask(c, on)) then me else Push(me, ReadTask(c, on));
    if x in pushed.jobs {
      RemoveKeeps(pushed.jobs, ReadTask(c, !on), x);
    }
  }

  lemma DecideOneKeeps(t: State, c: nat, on: bool, w: nat, x: Task)
    requires c < |t.conns| && t.conns[c].thr < |t.workers| && !Decidable(x) && HasAt(t, w, x)
    ensures HasAt(DecideOne(t, c, on), w, x)
  {
    if t.conns[c].thr == w {
      DecideKeeps(t.workers[w], c, on, x);
    }
  }

  lemma {:induction false} BulkKeeps(s: State, on: bool, n: nat, w: nat, x: Task)
    requires Wired(s) && n <= |s.conns| && !Decidable(x) && HasAt(s, w, x)
    ensures HasAt(Bulk(s, on, n), w, x)
  {
    if n != 0 {
      BulkKeeps(s, on, n - 1, w, x);
      BulkNext(s, on, n - 1);
      DecideOneKeeps(Bulk(s, on, n - 1), n - 1, on, w, x);
    }
  }

  lemma ReadKeeps(s: State, c: nat, frames: seq<Frame>, w: nat, x: Task)
    requires Wired(s) && c < |s.conns| && !Decidable(x) && HasAt(s, w, x)
    ensures HasAt(ReadStep(s, c, frames), w, x)
  {
    var t := SetConn(s, c, s.conns[c].(parsed := s.conns[c].parsed + frames)).(root := ReadRoot(s.root, c, frames));
    BulkKeeps(Flagged(t, false), false, |t.conns|, w, x);
  }

  lemma TakeKeeps(s: State, u: nat, w: nat, x: Task)
    requires Wired(s) && u < |s.users| && !Decidable(x) && HasAt(s, w, x)
    ensures HasAt(TakeEvent(s, u), w, x)
  {
    if s.root.events != [] {
      var t := SetUser(s, u, Ready).(root := TakeRoot(s.root));
      BulkKeeps(Flagged(t, true), true, |t.conns|, w, x);
    }
  }

  lemma PopKeeps(s: State, v: nat, w: nat, x: Task)
    requires Core(s) && Enabled(s, Pop(v)) && HasAt(s, w, x)
    ensures HasAt(Apply(s, Pop(v)), w, x)
  {
    var me := s.workers[v];
    assert QueuesOk(me);
    assert x in me.batch <==> x == me.batch[0] || x in me.batch[1..];
  }

  lemma LoopKeeps(s: State, step: Step, w: nat, x: Task)
    requires Enabled(s, step) && HasAt(s, w, x)
    requires (WorkerStep(step) && !step.Pop?) || step.AddConn?
    ensures HasAt(Apply(s, step), w, x)
  {
  }

  lemma HandlerKeeps(s: State, step: Step, w: nat, x: Task)
    requires Enabled(s, step) && HasAt(s, w, x) && WriteStep(step)
    ensures HasAt(Apply(s, step), w, x)
  {
  }

  lemma UserKeeps(s: State, step: Step, w: nat, x: Task)
    requires Enabled(s, step) && HasAt(s, w, x) && !TakeStep(s, step)
    requires !WorkerStep(step) && !WriteStep(step) && !step.AddConn? && !step.Read?
    ensures HasAt(Apply(s, step), w, x)
  {
  }

  /** No step takes it away. */
  lemma TaskStays(s: State, step: Step, w: nat, x: Task)
    requires Core(s) && Enabled(s, step) && !Decidable(x) && HasAt(s, w, x)
    ensures HasAt(Apply(s, step), w, x)
  {
    if step.Pop? {
      PopKeeps(s, step.w, w, x);
    } else if WorkerStep(step) || step.AddConn? {
      LoopKeeps(s, step, w, x);
    } else if WriteStep(step) {
      HandlerKeeps(s, step, w, x);
    } else if step.Read? {
      ReadKeeps(s, step.c, step.frames, w, x);
    } else if TakeStep(s, step) {
      TakeKeeps(s, step.u, w, x);
    } else {
      UserKeeps(s, step, w, x);
    }
  }

  lemma {:induction false} TaskStaysRun(s: State, steps: seq<Step>, w: nat, x: Task)
    requires Core(s) && Valid(s, steps) && !Decidable(x) && HasAt(s, w, x)
    ensures HasAt(Run(s, steps), w, x)
    decreases |steps|
  {
    if steps != [] {
      CoreStep(s, steps[0]);
      TaskStays(s, steps[0], w, x);
      TaskStaysRun(Apply(s, steps[0]), steps[1..], w, x);
    }
  }

  /** The tasks that a step puts behind the others of a worker: telling a worker to stop, attaching
      a connection, and the first frame of a send that finds the token free. */
  lemma Scheduled(s: State, step: Step)
    requires Core(s) && Enabled(s, step)
    ensures step.ScheduleHalt? ==> LastOf(Apply(s, step), step.w, Halt)
    ensures step.AttachConn? ==> LastOf(Apply(s, step), s.conns[step.c].thr, Attach(step.c))
    ensures step.SendInsert? && !s.conns[s.users[step.u].c].writing ==>
              LastOf(Apply(s, step), s.conns[s.users[step.u].c].thr, StartWrite(s.users[step.u].c))
  {
    if step.SendInsert? {
      InsertGoes(s, step.u);
    }
  }

  predicate LastOf(t: State, w: nat, x: Task) {
    w < |t.workers| && t.workers[w].jobs != [] && t.workers[w].jobs[|t.workers[w].jobs| - 1] == x
  }

  /** A worker that has the stop task is stopped or will find it in a queue; with both queues empty
      it is stopped. */
  lemma Stops(s: State, w: nat)
    requires Core(s) && HasAt(s, w, Halt)
    ensures s.workers[w].halted || InQueue(s.workers[w], Halt)
  {
    var me := s.workers[w];
    assert QueuesOk(me);
  }

  // ---- the way to the stop task ---------------------------------------------------------------------

  predicate ByWorker(step: Step, w: nat) {
    match step
    case Swap(x) => x == w
    case Pop(x) => x == w
    case Exec(x) => x == w
    case WriteTest(x) => x == w
    case WriteSome(x, _) => x == w
    case WriteAccount(x) => x == w
    case WriteWake(x) => x == w
    case WriteStop(x) => x == w
    case _ => false
  }

  /** How far a handler is from its end when all its writes succeed. */
  function Ahead(hand: Handler, conns: seq<Conn>): nat {
    match hand
    case Idle => 0
    case Stop(_) => 1
    case Wake(_, _) => 2
    case Account(_, _) => 3
    case Test(c, _) => if c < |conns| && conns[c].ol.chain != [] then 6 else 4
    case Writing(c, _, _) => if c < |conns| && conns[c].ol.chain != [] then 7 else 5
  }

  /** How far its worker is from an empty pair of queues. */
  function Behind(me: Worker): nat {
    |me.cur| + 2 * |me.batch| + 3 * |me.jobs|
  }

  /** What the worker does next when nothing else happens. */
  function NextOf(me: Worker, w: nat): Step {
    match me.hand
    case Test(_, _) => WriteTest(w)
    case Writing(_, local, _) => WriteSome(w, |local.chain|)
    case Account(_, _) => WriteAccount(w)
    case Wake(_, _) => WriteWake(w)
    case Stop(_) => WriteStop(w)
    case Idle => if me.cur != [] then Exec(w) else if me.batch != [] then Pop(w) else Swap(w)
  }

  /** It can do that, and is nearer to the stop task, or there, afterwards. */
  predicate Nearer(s: State, w: nat) {
    && w < |s.workers| && Enabled(s, NextOf(s.workers[w], w))
    && var t := Apply(s, NextOf(s.workers[w], w));
       && t.fault == NoFault && w < |t.workers|
       && var me, me' := s.workers[w], t.workers[w];
          me'.halted || (me.hand.Idle? && me'.hand.Idle? && Behind(me') < Behind(me))
          || (Behind(me') == Behind(me) && Ahead(me'.hand, t.conns) < Ahead(me.hand, s.conns))
  }

  lemma HandNearer(s: State, w: nat)
    requires Core(s) && s.fault == NoFault && w < |s.workers| && !s.workers[w].hand.Idle?
    ensures Nearer(s, w)
  {
    assert Owns(s.workers[w], w, s.conns);
  }

  lemma LoopNearer(s: State, w: nat)
    requires Core(s) && s.fault == NoFault && w < |s.workers| && s.workers[w].hand.Idle?
    requires !s.workers[w].halted && HasAt(s, w, Halt)
    ensures Nearer(s, w)
  {
    var me := s.workers[w];
    Stops(s, w);
    assert QueuesOk(me) && Owns(me, w, s.conns);
    if me.cur != [] {
      assert me.cur[0] in me.cur && me.cur == [me.cur[0]];
    }
  }

  lemma OneNearer(s: State, w: nat)
    requires Core(s) && s.fault == NoFault && HasAt(s, w, Halt) && !s.workers[w].halted
    ensures Nearer(s, w) && Core(Apply(s, NextOf(s.workers[w], w))) && HasAt(Apply(s, NextOf(s.workers[w], w)), w, Halt)
  {
    if s.workers[w].hand.Idle? {
      LoopNearer(s, w);
    } else {
      HandNearer(s, w);
    }
    CoreStep(s, NextOf(s.workers[w], w));
    TaskStays(s, NextOf(s.workers[w], w), w, Halt);
  }

  /** The measure that goes down. */
  function Distance(s: State, w: nat): (nat, nat)
    requires w < |s.workers|
  {
    if s.workers[w].halted then (0, 0) else (Behind(s.workers[w]) + 1, Ahead(s.workers[w].hand, s.conns))
  }

  lemma NearerShrinks(s: State, w: nat)
    requires Nearer(s, w) && !s.workers[w].halted
    ensures var d, d' := Distance(s, w), Distance(Apply(s, NextOf(s.workers[w], w)), w);
            d'.0 < d.0 || (d'.0 == d.0 && d'.1 < d.1)
  {
  }

  /** A run of the worker's own steps that ends with the worker stopped. */
  ghost predicate StopsBy(s: State, more: seq<Step>, w: nat) {
    && Valid(s, more) && (forall i :: 0 <= i < |more| ==> ByWorker(more[i], w))
    && w < |Run(s, more).workers| && Run(s, more).workers[w].halted
  }

  lemma StopsAfter(s: State, step: Step, t: State, rest: seq<Step>, w: nat)
    requires Enabled(s, step) && t == Apply(s, step) && ByWorker(step, w) && StopsBy(t, rest, w)
    ensures StopsBy(s, [step] + rest, w)
  {
    assert ([step] + rest)[0] == step && ([step] + rest)[1..] == rest;
  }

  /** A worker that has its stop task before it, with its distance from there. */
  ghost predicate ToStop(s: State, w: nat, behind: nat, ahead: nat) {
    Core(s) && s.fault == NoFault && HasAt(s, w, Halt) && Distance(s, w) == (behind, ahead)
  }

  lemma OneStepOn(s: State, w: nat, behind: nat, ahead: nat) returns (step: Step, t: State, behind': nat, ahead': nat)
    requires ToStop(s, w, behind, ahead) && 0 < behind
    ensures Enabled(s, step) && t == Apply(s, step) && ByWorker(step, w) && ToStop(t, w, behind', ahead')
    ensures behind' < behind || (behind' == behind && ahead' < ahead)
  {
    OneNearer(s, w);
    NearerShrinks(s, w);
    step := NextOf(s.workers[w], w);
    t := Apply(s, step);
    behind', ahead' := Distance(t, w).0, Distance(t, w).1;
  }

  lemma {:induction false} StopsFrom(s: State, w: nat, behind: nat, ahead: nat) returns (more: seq<Step>)
    requires ToStop(s, w, behind, ahead)
    ensures StopsBy(s, more, w)
    decreases behind, ahead
  {
    if behind == 0 {
      more := [];
    } else {
      var step, t, behind', ahead' := OneStepOn(s, w, behind, ahead);
      var rest := StopsFrom(t, w, behind', ahead');
      StopsAfter(s, step, t, rest, w);
      more := [step] + rest;
    }
  }

  /** A worker that was told to stop can always do so by itself, through whatever it has begun and
      whatever is queued before: the thread that joins it is not left waiting. */
  lemma CanStop(s: State, w: nat) returns (more: seq<Step>)
    requires Core(s) && s.fault == NoFault && HasAt(s, w, Halt)
    ensures StopsBy(s, more, w)
  {
    more := StopsFrom(s, w, Distance(s, w).0, Distance(s, w).1);
  }
}
