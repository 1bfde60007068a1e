/** The two routines of a worker that span several critical sections, with any steps of the
    other threads in between. Each is a run of the machine. */
module Routines {
  import opened Machine
  import opened Net
  import opened Flow
  import opened Invariant
  import opened Preservation

  /** The step is one of worker w's own thread. */
  predicate Own(conns: seq<Conn>, step: Step, w: nat) {
    match step
    case Swap(x) => x == w
    case Pop(x) => x == w
    case Exec(x) => x == w
    case WriteTest(x) => x == w
    case WriteSome(x, _) => x == w
    case WriteAgain(x) => x == w
    case WriteAccount(x) => x == w
    case WriteWake(x) => x == w
    case WriteStop(x) => x == w
    case Read(c, _) => c < |conns| && conns[c].thr == w
    case Close(c) => c < |conns| && conns[c].thr == w
    case WriteEnter(c) => c < |conns| && conns[c].thr == w
    case _ => false
  }

  /** What other threads can change about a worker: its shared queue. */
  predicate Untouched(me: Worker, me': Worker) {
    me' == me.(jobs := me'.jobs, log := me'.log)
  }

  lemma BulkUntouched(s: State, on: bool, w: nat)
    requires Wired(s) && w < |s.workers|
    ensures var t := DecideAll(s, on); w < |t.workers| && Untouched(s.workers[w], t.workers[w])
  {
    BulkFrame(Flagged(s, on), on, |s.conns|);
  }

  lemma ReadUntouched(s: State, c: nat, frames: seq<Frame>, w: nat)
    requires Wired(s) && c < |s.conns| && w < |s.workers|
    ensures w < |ReadStep(s, c, frames).workers| && Untouched(s.workers[w], ReadStep(s, c, frames).workers[w])
  {
    var t := SetConn(s, c, s.conns[c].(parsed := s.conns[c].parsed + frames));
    BulkUntouched(t.(root := ReadRoot(s.root, c, frames)), false, w);
  }

  lemma TakeUntouched(s: State, u: nat, w: nat)
    requires Wired(s) && u < |s.users| && w < |s.workers|
    ensures w < |TakeEvent(s, u).workers| && Untouched(s.workers[w], TakeEvent(s, u).workers[w])
  {
    if s.root.events != [] {
      BulkUntouched(SetUser(s, u, Ready).(root := TakeRoot(s.root)), true, w);
    }
  }

  lemma WorkerUntouched(s: State, step: Step, w: nat)
    requires Enabled(s, step) && w < |s.workers| && !Own(s.conns, step, w)
    requires WorkerStep(step) || step.AddConn? || WriteStep(step)
    ensures w < |Apply(s, step).workers| && Untouched(s.workers[w], Apply(s, step).workers[w])
  {
  }

  lemma OthersUntouched(s: State, step: Step, w: nat)
    requires Enabled(s, step) && w < |s.workers| && !Own(s.conns, step, w)
    ensures w < |Apply(s, step).workers| && Untouched(s.workers[w], Apply(s, step).workers[w])
  {
    if step.Read? {
      ReadUntouched(s, step.c, step.frames, w);
    } else if TakeStep(s, step) {
      TakeUntouched(s, step.u, w);
    } else if WorkerStep(step) || step.AddConn? || WriteStep(step) {
      WorkerUntouched(s, step, w);
    }
  }

  /** Connection c is where it was, and no more of it is written. */
  predicate SameWritten(s: State, t: State, c: nat) {
    c < |s.conns| <= |t.conns| && t.conns[c].thr == s.conns[c].thr && t.conns[c].written == s.conns[c].written
  }

  lemma DecideWritten(s: State, on: bool, c: nat)
    requires Wired(s) && c < |s.conns|
    ensures SameWritten(s, DecideAll(s, on), c)
  {
    BulkConns(Flagged(s, on), on, |s.conns|, c);
  }

  lemma ReadWritten(s: State, d: nat, frames: seq<Frame>, c: nat)
    requires Wired(s) && d < |s.conns| && c < |s.conns|
    ensures SameWritten(s, ReadStep(s, d, frames), c)
  {
    DecideWritten(SetConn(s, d, s.conns[d].(parsed := s.conns[d].parsed + frames)).(root := ReadRoot(s.root, d, frames)),
                  false, c);
  }

  lemma TakeWritten(s: State, u: nat, c: nat)
    requires Wired(s) && u < |s.users| && c < |s.conns|
    ensures SameWritten(s, TakeEvent(s, u), c)
  {
    if s.root.events != [] {
      DecideWritten(SetUser(s, u, Ready).(root := TakeRoot(s.root)), true, c);
    }
  }

  lemma LoopWritten(s: State, step: Step, c: nat)
    requires Enabled(s, step) && c < |s.conns| && (WorkerStep(step) || step.AddConn?)
    ensures SameWritten(s, Apply(s, step), c)
  {
  }

  lemma HandlerWritten(s: State, step: Step, c: nat)
    requires Enabled(s, step) && c < |s.conns| && WriteStep(step)
    requires step.WriteSome? ==> s.workers[step.w].hand.c != c
    ensures SameWritten(s, Apply(s, step), c)
  {
  }

  lemma UserWritten(s: State, step: Step, c: nat)
    requires Enabled(s, step) && c < |s.conns| && !TakeStep(s, step)
    requires !WorkerStep(step) && !WriteStep(step) && !step.AddConn? && !step.Read?
    ensures SameWritten(s, Apply(s, step), c)
  {
  }

  /** Only a write of its own handler adds to what is written of a connection. */
  lemma WrittenStays(s: State, step: Step, c: nat)
    requires Enabled(s, step) && c < |s.conns|
    requires step.WriteSome? ==> s.workers[step.w].hand.c != c
    ensures SameWritten(s, Apply(s, step), c)
  {
    if WorkerStep(step) || step.AddConn? {
      LoopWritten(s, step, c);
    } else if WriteStep(step) {
      HandlerWritten(s, step, c);
    } else if step.Read? {
      ReadWritten(s, step.c, step.frames, c);
    } else if TakeStep(s, step) {
      TakeWritten(s, step.u, c);
    } else {
      UserWritten(s, step, c);
    }
  }

  /** So no other thread does. */
  lemma OthersWritten(s: State, step: Step, w: nat, c: nat)
    requires Core(s) && Enabled(s, step) && c < |s.conns| && s.conns[c].thr == w && !Own(s.conns, step, w)
    ensures SameWritten(s, Apply(s, step), c)
  {
    if step.WriteSome? {
      assert Owns(s.workers[step.w], step.w, s.conns);
    }
    WrittenStays(s, step, c);
  }

  /** A run so far, from s to t; s meets the invariant, and so does t then. */
  ghost predicate Ran(s: State, steps: seq<Step>, t: State) {
    Core(s) && Valid(s, steps) && Run(s, steps) == t
  }

  /** One more step of a run. */
  method Take(net: Net, step: Step, ghost s: State, ghost steps: seq<Step>) returns (ghost steps': seq<Step>)
    requires Enabled(net.View(), step) && Ran(s, steps, net.View())
    modifies net
    ensures Ran(s, steps', net.View()) && net.View() == Apply(old(net.View()), step)
    ensures steps' == steps + [step]
  {
    RunSnoc(s, steps, step);
    net.Perform(step);
    steps' := steps + [step];
  }

  /** The steps of a script that can happen when their turn comes, without worker w's own. */
  function Feasible(s: State, script: seq<Step>, w: nat): seq<Step>
    decreases |script|
  {
    if script == [] then []
    else if Enabled(s, script[0]) && !Own(s.conns, script[0], w) then
      [script[0]] + Feasible(Apply(s, script[0]), script[1..], w)
    else Feasible(s, script[1..], w)
  }

  /** What the other threads leave of worker w and of its connections. */
  predicate Bystander(s: State, t: State, w: nat) {
    && w < |s.workers| && w < |t.workers| && Untouched(s.workers[w], t.workers[w])
    && forall c :: 0 <= c < |s.conns| && s.conns[c].thr == w ==> SameWritten(s, t, c)
  }

  lemma BystanderStep(s: State, m: State, step: Step, w: nat)
    requires Bystander(s, m, w) && Core(m) && Enabled(m, step) && !Own(m.conns, step, w)
    ensures Bystander(s, Apply(m, step), w)
  {
    OthersUntouched(m, step, w);
    forall c | 0 <= c < |s.conns| && s.conns[c].thr == w
      ensures SameWritten(s, Apply(m, step), c)
    {
      assert SameWritten(s, m, c);
      OthersWritten(m, step, w, c);
    }
  }

  /** One more step of the script, of what is to come to `all` in the end. */
  lemma FeasibleOn(now: seq<Step>, s: State, script: seq<Step>, i: nat, w: nat, all: seq<Step>)
    requires i < |script| && now + Feasible(s, script[i..], w) == all
    ensures if Enabled(s, script[i]) && !Own(s.conns, script[i], w)
            then (now + [script[i]]) + Feasible(Apply(s, script[i]), script[i + 1..], w) == all
            else now + Feasible(s, script[i + 1..], w) == all
  {
    assert script[i..][1..] == script[i + 1..];
  }

  lemma BystanderOn(s: State, m: State, t: State, w: nat)
    requires Bystander(s, m, w) && Bystander(m, t, w)
    ensures Bystander(s, t, w)
  {
    forall c | 0 <= c < |s.conns| && s.conns[c].thr == w
      ensures SameWritten(s, t, c)
    {
      assert SameWritten(s, m, c) && SameWritten(m, t, c);
    }
  }

  /** One such step, if it can happen. */
  method TryStep(net: Net, w: nat, step: Step, ghost s: State, ghost steps: seq<Step>) returns (ghost steps': seq<Step>)
    requires w < |net.workers| && Ran(s, steps, net.View())
    modifies net
    ensures Ran(s, steps', net.View()) && Bystander(old(net.View()), net.View(), w)
    ensures if Enabled(old(net.View()), step) && !Own(old(net.conns), step, w)
            then net.View() == Apply(old(net.View()), step) && steps' == steps + [step]
            else net.View() == old(net.View()) && steps' == steps
  {
    steps' := steps;
    var can := net.CanPerform(step);
    if can && !Own(net.conns, step, w) {
      CoreRun(s, steps');
      BystanderStep(net.View(), net.View(), step, w);
      steps' := Take(net, step, s, steps');
    }
  }

  /** Whatever the other threads do next, as far as they can. */
  method Interfere(net: Net, w: nat, script: seq<Step>, ghost s: State, ghost steps: seq<Step>)
    returns (ghost steps': seq<Step>)
    requires w < |net.workers| && Ran(s, steps, net.View())
    modifies net
    ensures Ran(s, steps', net.View()) && steps' == steps + Feasible(old(net.View()), script, w)
    ensures Bystander(old(net.View()), net.View(), w)
  {
    steps' := steps;
    var i := 0;
    ghost var start, all := net.View(), steps + Feasible(net.View(), script, w);
    assert script[0..] == script;
    while i < |script|
      invariant i <= |script| && Ran(s, steps', net.View()) && Bystander(start, net.View(), w)
      invariant steps' + Feasible(net.View(), script[i..], w) == all
    {
      ghost var m := net.View();
      FeasibleOn(steps', m, script, i, w, all);
      steps' := TryStep(net, w, script[i], s, steps');
      BystanderOn(start, m, net.View(), w);
      i := i + 1;
    }
    assert script[i..] == [];
  }

  /** One turn of the loop in async_routine: pop a task and execute it, with other threads
      stepping in before each. The stop task ends the loop instead. */
  method RunTask(net: Net, w: nat, script: seq<Step>, ghost s: State, ghost steps: seq<Step>)
    returns (ghost steps': seq<Step>)
    requires Ran(s, steps, net.View()) && w < |net.workers| && net.fault == NoFault
    requires !net.workers[w].halted && net.workers[w].cur == [] && net.workers[w].batch != []
    modifies net
    ensures Ran(s, steps', net.View()) && w < |net.workers|
    ensures steps + Feasible(old(net.View()), script, w) <= steps'
    ensures var was, me := old(net.workers)[w], net.workers[w];
            net.fault == NoFault ==>
              && me.cur == [] && me.hand == was.hand
              && (if was.batch[0] == Halt then me.halted && me.batch == [] && me.dropped == was.batch[1..]
                  else !me.halted && me.batch == was.batch[1..] && me.dropped == was.dropped)
              && me.done == was.done + [was.batch[0]]
  {
    steps' := Interfere(net, w, script, s, steps);
    if net.fault == NoFault {
      CoreRun(s, steps');
      steps' := Take(net, Pop(w), s, steps');
      if !net.workers[w].halted {
        CoreRun(s, steps');
        assert QueuesOk(net.workers[w]) && Owns(net.workers[w], w, net.conns);
        assert net.workers[w].cur[0] in net.workers[w].cur;
        steps' := Take(net, Exec(w), s, steps');
      }
    }
  }

  /** async_routine (src/utils/thread.c:85-107). Whatever is scheduled, cancelled or decided
      meanwhile, it executes exactly the tasks that were queued at the swap, in order, up to
      the stop task if that is among them, and discards the ones behind it. `script[i]` is what
      the other threads do around turn i. */
  method AsyncRoutine(net: Net, w: nat, script: seq<seq<Step>>) returns (ghost steps: seq<Step>)
    requires Enabled(net.View(), Swap(w)) && Core(net.View())
    modifies net
    ensures Ran(old(net.View()), steps, net.View()) && w < |net.workers|
    ensures var me, was := net.workers[w], old(net.workers)[w];
            net.fault == NoFault && |was.jobs| <= |script| ==>
              && me.cur == [] && me.batch == [] && me.hand == Idle && (me.halted <==> Halt in was.jobs)
              && (!me.halted ==> me.done == was.done + was.jobs)
              && (me.halted ==> exists k :: 0 <= k < |was.jobs| && was.jobs[k] == Halt && Halt !in was.jobs[..k]
                                  && me.done == was.done + was.jobs[..k + 1] && me.dropped == was.jobs[k + 1..])
  {
    ghost var s, was := net.View(), net.workers[w];
    steps := [];
    steps := Take(net, Swap(w), s, steps);
    var turn := 0;
    while net.fault == NoFault && turn < |script| && net.workers[w].batch != []
      invariant Ran(s, steps, net.View()) && w < |net.workers| && 0 <= turn <= |script|
      invariant net.fault == NoFault ==> Executed(was, net.workers[w], turn)
    {
      assert was.jobs[turn..][1..] == was.jobs[turn + 1..] && was.jobs[turn..][0] == was.jobs[turn];
      assert was.jobs[..turn + 1] == was.jobs[..turn] + [was.jobs[turn]];
      steps := RunTask(net, w, script[turn], s, steps);
      turn := turn + 1;
    }
    assert |was.jobs| == turn ==> was.jobs[..turn] == was.jobs;
  }

  /** After `turn` turns: that many tasks are done, and either the rest is still to come or the
      last one was the stop task. */
  ghost predicate Executed(was: Worker, me: Worker, turn: nat) {
    && turn <= |was.jobs| && me.cur == [] && me.hand == Idle
    && me.done == was.done + was.jobs[..turn]
    && if me.halted then
         me.batch == [] && 0 < turn && was.jobs[turn - 1] == Halt && Halt !in was.jobs[..turn - 1]
         && me.dropped == was.jobs[turn..]
       else me.batch == was.jobs[turn..] && Halt !in was.jobs[..turn]
  }

  // ---- the write handler ---------------------------------------------------------------------

  /** What happens at one writev call: other threads first, then its answer. */
  datatype Turn = Turn(before: seq<Step>, result: WriteResult)

  /** The step fits where the handler is. */
  predicate HandStep(hand: Handler, step: Step, w: nat) {
    match hand
    case Test(_, _) => step == WriteTest(w)
    case Writing(_, local, _) => step == WriteAgain(w) || (step.WriteSome? && step.w == w && step.k <= |local.chain|)
    case Account(_, _) => step == WriteAccount(w)
    case Wake(_, _) => step == WriteWake(w)
    case Stop(_) => step == WriteStop(w)
    case Idle => false
  }

  /** Where it goes from there. */
  predicate HandNext(hand: Handler, step: Step, hand': Handler) {
    match hand
    case Test(c, removed) =>
      if hand'.Writing? then hand'.c == c && hand'.removed == removed
      else hand' == if 0 < removed then Account(c, removed) else Stop(c)
    case Writing(c, local, removed) =>
      if step.WriteAgain? then hand' == if removed == 0 then Idle else Test(c, removed)
      else step.WriteSome? && step.k <= |local.chain|
           && hand' == if step.k == |local.chain| then Test(c, removed + step.k)
                       else Writing(c, Drop(local, step.k), removed + step.k)
    case Account(c, _) => hand'.Wake? && hand'.c == c
    case Wake(c, _) => hand' == Stop(c)
    case Stop(_) => hand' == Idle
    case Idle => false
  }

  lemma HandGoes(s: State, step: Step, w: nat)
    requires s.fault == NoFault && Wired(s) && Handling(s, w) && HandStep(s.workers[w].hand, step, w)
    ensures Enabled(s, step)
    ensures var t := Apply(s, step);
            w < |t.workers| && HandNext(s.workers[w].hand, step, t.workers[w].hand) && t.fault == NoFault
  {
  }

  /** When the handler is through, the connection holds the token and its watcher is active iff
      it left at EAGAIN. */
  lemma HandEnds(s: State, step: Step, w: nat)
    requires Core(s) && Enabled(s, step) && Handling(s, w) && (step == WriteStop(w) || step == WriteAgain(w))
    ensures var c, t := s.workers[w].hand.c, Apply(s, step);
            c < |t.conns| && t.conns[c].writing == t.conns[c].wio == step.WriteAgain?
  {
    HandlerContext(s, w);
  }

  /** What one step of worker w's handler, where it fits, leads to. */
  lemma HandTaken(s: State, step: Step, w: nat)
    requires Core(s) && s.fault == NoFault && w < |s.workers| && s.workers[w].hand != Idle
    requires HandStep(s.workers[w].hand, step, w)
    ensures Enabled(s, step)
    ensures var hand, t := s.workers[w].hand, Apply(s, step);
            && w < |t.workers| && HandNext(hand, step, t.workers[w].hand)
            && (t.workers[w].hand.Idle? ==>
                  hand.c < |t.conns| && t.conns[hand.c].writing == t.conns[hand.c].wio == step.WriteAgain?)
  {
    assert Owns(s.workers[w], w, s.conns);
    HandGoes(s, step, w);
    if step.WriteStop? || step.WriteAgain? {
      HandEnds(s, step, w);
    }
  }

  /** The frames that a step of the handler records as written. */
  function Output(hand: Handler, step: Step): seq<Frame> {
    if hand.Writing? && step.WriteSome? && step.k <= |hand.local.chain| then hand.local.chain[..step.k] else []
  }

  lemma HandWrites(s: State, step: Step, w: nat)
    requires Core(s) && Enabled(s, step) && Handling(s, w) && HandStep(s.workers[w].hand, step, w)
    ensures var c, t := s.workers[w].hand.c, Apply(s, step);
            && c < |s.conns| && s.conns[c].thr == w && c < |t.conns| && t.conns[c].thr == w
            && t.conns[c].written == s.conns[c].written + Output(s.workers[w].hand, step)
  {
    var c := s.workers[w].hand.c;
    assert Owns(s.workers[w], w, s.conns);
    if !step.WriteSome? {
      WrittenStays(s, step, c);
      assert s.conns[c].written + [] == s.conns[c].written;
    }
  }

  /** One step of worker w's handler, other threads stepping in before it. */
  method TakeAfter(net: Net, w: nat, others: seq<Step>, step: Step, ghost s: State, ghost steps: seq<Step>)
    returns (ghost steps': seq<Step>)
    requires Ran(s, steps, net.View()) && w < |net.workers| && net.fault == NoFault
    requires net.workers[w].hand != Idle && HandStep(net.workers[w].hand, step, w)
    modifies net
    ensures Ran(s, steps', net.View()) && w < |net.workers|
    ensures steps' == steps + Feasible(old(net.View()), others, w)
            || steps' == steps + Feasible(old(net.View()), others, w) + [step]
    ensures net.fault == NoFault ==> HandNext(old(net.workers)[w].hand, step, net.workers[w].hand)
    ensures net.fault == NoFault ==>
              var c := old(net.workers)[w].hand.c;
              && c < |old(net.conns)| && c < |net.conns| && net.conns[c].thr == w
              && net.conns[c].written == old(net.conns)[c].written + Output(old(net.workers)[w].hand, step)
    ensures net.fault == NoFault && net.workers[w].hand.Idle? ==>
              var c := old(net.workers)[w].hand.c;
              c < |net.conns| && net.conns[c].writing == net.conns[c].wio == step.WriteAgain?
  {
    CoreRun(s, steps);
    assert Owns(net.workers[w], w, net.conns);
    steps' := Interfere(net, w, others, s, steps);
    if net.fault == NoFault {
      CoreRun(s, steps');
      HandTaken(net.View(), step, w);
      HandWrites(net.View(), step, w);
      steps' := Take(net, step, s, steps');
    }
  }

  /** The handler is on connection c, or is through with it. */
  predicate On(net: Net, w: nat, c: nat)
    reads net
  {
    && w < |net.workers|
    && (net.fault == NoFault ==>
          if net.workers[w].hand.Idle? then c < |net.conns| && net.conns[c].writing == net.conns[c].wio
          else net.workers[w].hand.c == c)
  }

  /** The complete frames that these answers of writev come to. */
  function Completed(answers: seq<Turn>): nat {
    if answers == [] then 0
    else
      var last := answers[|answers| - 1].result;
      Completed(answers[..|answers| - 1]) + match last case Wrote(k) => k case Again => 0
  }

  /** How many of a list are written by then. */
  function Through(list: seq<Frame>, answers: seq<Turn>): (m: nat)
    ensures m <= |list|
  {
    if Completed(answers) < |list| then Completed(answers) else |list|
  }

  predicate EndsAgain(answers: seq<Turn>) {
    answers != [] && answers[|answers| - 1].result.Again?
  }

  /** After these answers, on a list taken with `was` written and `before` frames removed: what is
      written is the part of the list that they complete, what is left is the rest of it, and the
      loop has ended iff there is no rest or the last answer was EAGAIN. */
  predicate Written(now: seq<Frame>, hand: Handler, list: seq<Frame>, was: seq<Frame>, before: nat, answers: seq<Turn>) {
    var m := Through(list, answers);
    && now == was + list[..m]
    && match hand
       case Writing(_, local, removed) => local.chain == list[m..] && removed == before + m && !EndsAgain(answers) && m < |list|
       case Test(_, removed) => removed == before + m && (m == |list| || EndsAgain(answers))
       case Idle => before + m == 0 && EndsAgain(answers)
       case _ => false
  }

  lemma OneMoreAnswer(now: seq<Frame>, hand: Handler, list: seq<Frame>, was: seq<Frame>, before: nat, answers: seq<Turn>,
                      turn: Turn, step: Step, w: nat, hand': Handler)
    requires hand.Writing? && Written(now, hand, list, was, before, answers) && HandNext(hand, step, hand')
    requires step == (match turn.result
                      case Again => WriteAgain(w)
                      case Wrote(k) => WriteSome(w, if k < |hand.local.chain| then k else |hand.local.chain|))
    ensures Written(now + Output(hand, step), hand', list, was, before, answers + [turn])
  {
    var all, m := answers + [turn], Through(list, answers);
    assert all[..|answers|] == answers;
    var n := Through(list, all);
    assert now + Output(hand, step) == was + list[..n] by {
      assert list[..m] + list[m..][..n - m] == list[..n];
      assert was + list[..m] + list[m..][..n - m] == was + (list[..m] + list[m..][..n - m]);
    }
    assert list[m..][n - m..] == list[n..];
  }

  /** One writev and what follows from its answer (lines 440-470). */
  method WriteOnce(net: Net, w: nat, c: nat, turn: Turn, ghost list: seq<Frame>, ghost was: seq<Frame>, ghost before: nat,
                   ghost answers: seq<Turn>, ghost s: State, ghost steps: seq<Step>)
    returns (ghost steps': seq<Step>)
    requires Ran(s, steps, net.View()) && On(net, w, c) && net.fault == NoFault && net.workers[w].hand.Writing?
    requires c < |net.conns| && Written(net.conns[c].written, net.workers[w].hand, list, was, before, answers)
    modifies net
    ensures Ran(s, steps', net.View()) && On(net, w, c)
    ensures net.fault == NoFault ==>
              c < |net.conns| && Written(net.conns[c].written, net.workers[w].hand, list, was, before, answers + [turn])
  {
    ghost var now, hand := net.conns[c].written, net.workers[w].hand;
    var n := |net.workers[w].hand.local.chain|;
    var step := match turn.result case Again => WriteAgain(w) case Wrote(k) => WriteSome(w, if k < n then k else n);
    steps' := TakeAfter(net, w, turn.before, step, s, steps);
    if net.fault == NoFault {
      OneMoreAnswer(now, hand, list, was, before, answers, turn, step, w, net.workers[w].hand);
    }
  }

  /** The inner loop: writing the private list until it is empty, or EAGAIN (lines 439-471). The
      frames that the answers complete are written, in order, and no others. */
  method WriteList(net: Net, w: nat, c: nat, script: seq<Turn>, ghost s: State, ghost steps: seq<Step>)
    returns (ghost steps': seq<Step>, used: nat)
    requires Ran(s, steps, net.View()) && On(net, w, c) && net.fault == NoFault && net.workers[w].hand.Writing?
    requires c < |net.conns|
    modifies net
    ensures Ran(s, steps', net.View()) && On(net, w, c)
    ensures used <= |script| && (used == 0 ==> net.workers[w].hand.Writing?)
    ensures net.fault == NoFault ==> used == |script| || !net.workers[w].hand.Writing?
    ensures net.fault == NoFault ==> net.workers[w].hand.Idle? || net.workers[w].hand.Test? || net.workers[w].hand.Writing?
    ensures net.fault == NoFault && net.workers[w].hand.Idle? ==> 0 < used && script[used - 1].result.Again?
    ensures net.fault == NoFault ==>
              c < |net.conns| && var hand := old(net.workers)[w].hand;
              Written(net.conns[c].written, net.workers[w].hand, hand.local.chain, old(net.conns)[c].written, hand.removed,
                      script[..used])
  {
    steps', used := steps, 0;
    ghost var list, was, before := net.workers[w].hand.local.chain, net.conns[c].written, net.workers[w].hand.removed;
    NothingYet(net.View(), s, steps, w);
    while net.fault == NoFault && net.workers[w].hand.Writing? && used < |script|
      invariant Ran(s, steps', net.View()) && On(net, w, c)
      invariant used <= |script| && (used == 0 ==> net.workers[w].hand.Writing?)
      invariant net.fault == NoFault ==>
                  c < |net.conns| && Written(net.conns[c].written, net.workers[w].hand, list, was, before, script[..used])
      decreases |script| - used
    {
      assert script[..used + 1] == script[..used] + [script[used]];
      steps' := WriteOnce(net, w, c, script[used], list, was, before, script[..used], s, steps');
      used := used + 1;
    }
  }

  lemma NothingYet(t: State, s: State, steps: seq<Step>, w: nat)
    requires Ran(s, steps, t) && w < |t.workers| && t.workers[w].hand.Writing? && t.workers[w].hand.c < |t.conns|
    ensures var Writing(c, local, removed) := t.workers[w].hand;
            Written(t.conns[c].written, t.workers[w].hand, local.chain, t.conns[c].written, removed, [])
  {
    CoreRun(s, steps);
    var Writing(c, local, _) := t.workers[w].hand;
    assert QueuesOk(t.workers[w]);
    assert t.conns[c].written + local.chain[..0] == t.conns[c].written && local.chain[0..] == local.chain;
  }

  /** The end of the handler: subtract, wake the senders, give the token back (lines 474-506). */
  method FinishHandler(net: Net, w: nat, c: nat, others: nat -> seq<Step>, ghost s: State, ghost steps: seq<Step>)
    returns (ghost steps': seq<Step>)
    requires Ran(s, steps, net.View()) && On(net, w, c) && net.fault == NoFault && c < |net.conns|
    requires net.workers[w].hand.Account? || net.workers[w].hand.Stop?
    modifies net
    ensures Ran(s, steps', net.View()) && On(net, w, c)
    ensures net.fault == NoFault ==> net.workers[w].hand.Idle? && !net.conns[c].writing
    ensures net.fault == NoFault ==> net.conns[c].written == old(net.conns)[c].written
  {
    steps' := steps;
    if net.workers[w].hand.Account? {
      steps' := TakeAfter(net, w, others(1), WriteAccount(w), s, steps');
      if net.fault == NoFault {
        steps' := TakeAfter(net, w, others(2), WriteWake(w), s, steps');
      }
    }
    if net.fault == NoFault {
      steps' := TakeAfter(net, w, others(3), WriteStop(w), s, steps');
    }
  }

  /** Where the outer loop stands after `used` answers. */
  predicate Between(net: Net, w: nat, c: nat, script: seq<Turn>, used: nat)
    requires On(net, w, c)
    reads net
  {
    net.fault == NoFault ==>
      match net.workers[w].hand
      case Test(_, _) => true
      case Writing(_, _, _) => used == |script|
      case Idle => net.conns[c].writing ==> 0 < used <= |script| && script[used - 1].result.Again?
      case _ => false
  }

  /** A list that the handler took, and the answers it got on it. */
  datatype Batch = Batch(list: seq<Frame>, answers: seq<Turn>)

  /** What of it was written. */
  function Part(b: Batch): seq<Frame> {
    b.list[..Through(b.list, b.answers)]
  }

  function Answers(bs: seq<Batch>): seq<Turn> {
    if bs == [] then [] else Answers(bs[..|bs| - 1]) + bs[|bs| - 1].answers
  }

  function Parts(bs: seq<Batch>): seq<Frame> {
    if bs == [] then [] else Parts(bs[..|bs| - 1]) + Part(bs[|bs| - 1])
  }

  /** After a batch with `before` frames removed: as many more are, if the handler goes on; it ends
      at EAGAIN only if none are, and otherwise it has given the token back. */
  predicate Removes(hand: Handler, conn: Conn, before: nat, b: Batch) {
    match hand
    case Writing(_, _, removed) => removed == before + |Part(b)|
    case Test(_, removed) => removed == before + |Part(b)| && (Part(b) == b.list || EndsAgain(b.answers))
    case Idle => (before + |Part(b)| == 0 && EndsAgain(b.answers)) || !conn.writing
    case _ => false
  }

  lemma WrittenPart(now: seq<Frame>, hand: Handler, conn: Conn, was: seq<Frame>, before: nat, b: Batch)
    requires Written(now, hand, b.list, was, before, b.answers)
    ensures now == was + Part(b) && Removes(hand, conn, before, b)
  {
    assert b.list[..|b.list|] == b.list;
  }

  /** One turn of the outer loop: take the list and write it, or finish if it is empty. */
  method OuterTurn(net: Net, w: nat, c: nat, script: seq<Turn>, others: nat -> seq<Step>,
                   ghost s: State, ghost steps: seq<Step>)
    returns (ghost steps': seq<Step>, used: nat, ghost batch: Batch)
    requires Ran(s, steps, net.View()) && On(net, w, c) && net.fault == NoFault && net.workers[w].hand.Test?
    requires c < |net.conns|
    modifies net
    ensures Ran(s, steps', net.View()) && On(net, w, c) && Between(net, w, c, script, used)
    ensures used <= |script| && (net.fault == NoFault && net.workers[w].hand.Test? ==> 0 < used)
    ensures batch.answers == script[..used]
    ensures net.fault == NoFault ==>
              && c < |net.conns| && net.conns[c].written == old(net.conns)[c].written + Part(batch)
              && Removes(net.workers[w].hand, net.conns[c], old(net.workers)[w].hand.removed, batch)
  {
    used, batch := 0, Batch([], []);
    ghost var was, before := net.conns[c].written, net.workers[w].hand.removed;
    assert was + Part(batch) == was;
    steps' := TakeAfter(net, w, others(0), WriteTest(w), s, steps);
    if net.fault == NoFault {
      if net.workers[w].hand.Writing? {
        ghost var list := net.workers[w].hand.local.chain;
        steps', used := WriteList(net, w, c, script, s, steps');
        batch := Batch(list, script[..used]);
        if net.fault == NoFault {
          WrittenPart(net.conns[c].written, net.workers[w].hand, net.conns[c], was, before, batch);
        }
      } else {
        steps' := FinishHandler(net, w, c, others, s, steps');
      }
    }
  }

  /** What the handler has done so far, batch by batch: it wrote of each list what the answers on it
      completed, and nothing else was written of the connection. */
  predicate Handled(hand: Handler, conn: Conn, was: seq<Frame>, bs: seq<Batch>) {
    && conn.written == was + Parts(bs)
    && match hand
       case Test(_, removed) => removed == |Parts(bs)|
       case Writing(_, _, removed) => removed == |Parts(bs)|
       case Idle => (Parts(bs) == [] && EndsAgain(Answers(bs))) || !conn.writing
       case _ => false
  }

  lemma BatchesSnoc(bs: seq<Batch>, b: Batch)
    ensures Answers(bs + [b]) == Answers(bs) + b.answers && Parts(bs + [b]) == Parts(bs) + Part(b)
  {
    assert (bs + [b])[..|bs|] == bs;
  }

  lemma OneMoreBatch(hand: Handler, conn: Conn, was: seq<Frame>, bs: seq<Batch>, b: Batch, now: seq<Frame>)
    requires now == was + Parts(bs) && conn.written == now + Part(b) && Removes(hand, conn, |Parts(bs)|, b)
    ensures Handled(hand, conn, was, bs + [b]) && Answers(bs + [b]) == Answers(bs) + b.answers
  {
    var parts, part, all := Parts(bs), Part(b), Answers(bs) + b.answers;
    BatchesSnoc(bs, b);
    assert was + parts + part == was + (parts + part);
    assert EndsAgain(b.answers) ==> EndsAgain(all);
  }

  /** fsock_sock_write_handler (src/core/sock.c:412-507) with anything the other threads do in
      between and any answers of writev. It is a run of the machine, in which exactly the frames
      that the answers complete are written, list by list. When it ends before the answers run out,
      the token was given back and the watcher stopped, both or neither, and neither only if its
      last answer was EAGAIN and nothing was written. */
  method WriteHandler(net: Net, c: nat, script: seq<Turn>, others: (nat, nat) -> seq<Step>)
    returns (ghost steps: seq<Step>, used: nat, ghost batches: seq<Batch>)
    requires Enabled(net.View(), WriteEnter(c)) && Core(net.View()) && !net.conns[c].zombie
    modifies net
    ensures Ran(old(net.View()), steps, net.View()) && On(net, old(net.conns)[c].thr, c) && used <= |script|
    ensures var hand := net.workers[old(net.conns)[c].thr].hand;
            net.fault == NoFault && used < |script| ==>
              && hand.Idle?
              && (net.conns[c].writing ==> 0 < used && script[used - 1].result.Again?)
    ensures net.fault == NoFault ==>
              && c < |net.conns| && Answers(batches) == script[..used]
              && Handled(net.workers[old(net.conns)[c].thr].hand, net.conns[c], old(net.conns)[c].written, batches)
  {
    ghost var s, was := net.View(), net.conns[c].written;
    var w := net.conns[c].thr;
    used, steps, batches := 0, [], [];
    steps := Take(net, WriteEnter(c), s, steps);
    assert was + [] == was;
    while net.fault == NoFault && net.workers[w].hand.Test?
      invariant Ran(s, steps, net.View()) && On(net, w, c) && used <= |script|
      invariant Between(net, w, c, script, used)
      invariant net.fault == NoFault ==>
                  && c < |net.conns| && Answers(batches) == script[..used]
                  && Handled(net.workers[w].hand, net.conns[c], was, batches)
      decreases |script| - used, net.fault == NoFault && net.workers[w].hand.Test?
    {
      var turn: nat := used;
      ghost var now, batch := net.conns[c].written, Batch([], []);
      var more;
      steps, more, batch := OuterTurn(net, w, c, script[used..], (k: nat) => others(turn, k), s, steps);
      if net.fault == NoFault {
        OneMoreBatch(net.workers[w].hand, net.conns[c], was, batches, batch, now);
        assert script[..used] + script[used..][..more] == script[..used + more];
      }
      used := used + more;
      batches := batches + [batch];
    }
  }
}
