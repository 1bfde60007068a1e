/** The event descriptor that wakes a reader (src/core/global.c:191-231,
    src/utils/efd_eventfd.inc:68-93): what one reader can rely on, and exactly which step
    breaks it. */
module WakeUps {
  import opened Machine
  import opened Flow
  import opened Preservation

  /** The part of the state the hand-over is about. */
  datatype Signal = Signal(efd: nat, wantEfd: bool, events: seq<Event>, users: seq<User>, fault: Fault)

  function SignalOf(s: State): Signal {
    Signal(s.root.efd, s.root.wantEfd, s.root.events, s.users, s.fault)
  }

  predicate Reading(u: User) {
    u.Polling? || u.Signalled? || u.Woken?
  }

  predicate GetStep(step: Step) {
    step.GetEnter? || step.GetTimeout? || step.GetInterrupt? || step.GetPoll? || step.GetUnsignal? || step.GetWoken?
  }

  /** Only user k calls fsock_get_event. */
  predicate OnlyReader(step: Step, k: nat) {
    GetStep(step) ==> step.u == k
  }

  predicate OneReader(x: Signal, k: nat) {
    k < |x.users| && forall u :: 0 <= u < |x.users| && u != k ==> !Reading(x.users[u])
  }

  predicate SomePolling(x: Signal) {
    exists u :: 0 <= u < |x.users| && x.users[u].Polling?
  }

  /** While any reader waits, the descriptor is signalled or there is nothing to read. */
  predicate Alert(x: Signal) {
    SomePolling(x) ==> 0 < x.efd || (x.wantEfd && x.events == [])
  }

  /** A reader takes the signal while another waits that no request stands for. */
  predicate Steals(x: Signal, step: Step) {
    && step.GetUnsignal? && 0 < x.efd && !(x.wantEfd && x.events == [])
    && exists u :: 0 <= u < |x.users| && u != step.u && x.users[u].Polling?
  }

  /** The descriptor and the request flag agree with what the reader is doing: a signal means
      that there is something to read, and comes only to a reader that asked. */
  predicate Agreed(x: Signal, k: nat) {
    && OneReader(x, k) && x.fault == NoFault
    && match x.users[k]
       case Polling => if 0 < x.efd then !x.wantEfd && x.events != [] else x.wantEfd && x.events == []
       case Signalled => 0 < x.efd && !x.wantEfd && x.events != []
       case Woken => x.efd == 0 && !x.wantEfd && x.events != []
       case _ => x.efd == 0 && !x.wantEfd
  }

  /** No reader moved, and nothing else changed. */
  predicate Aside(x: Signal, y: Signal) {
    && y == x.(users := y.users) && |y.users| == |x.users|
    && forall u :: 0 <= u < |x.users| ==> y.users[u] == x.users[u] || (!Reading(y.users[u]) && !Reading(x.users[u]))
  }

  function Took(x: Signal, u: nat): Signal
    requires u < |x.users|
  {
    if x.events == [] then x.(fault := NothingQueued)
    else x.(events := x.events[1..], users := x.users[u := Ready])
  }

  /** Every effect a step can have here. */
  predicate SignalStep(x: Signal, step: Step, y: Signal) {
    if step.Read? then
      if step.frames == [] then y == x
      else y == x.(events := x.events + Batch(step.c, step.frames), wantEfd := false,
                   efd := if x.wantEfd then x.efd + 1 else x.efd)
    else if GetStep(step) then
      step.u < |x.users| && match step
      case GetEnter(u, dontwait) =>
        x.users[u] == Ready
        && y == if x.events != [] then Took(x, u) else if dontwait then x
                else x.(users := x.users[u := Polling], wantEfd := true)
      case GetTimeout(u) => x.users[u].Polling? && y == x.(users := x.users[u := Ready])
      case GetInterrupt(u) => x.users[u].Polling? && y == x.(fault := Interrupted)
      case GetPoll(u) => x.users[u].Polling? && 0 < x.efd && y == x.(users := x.users[u := Signalled])
      case GetUnsignal(u) =>
        x.users[u].Signalled?
        && y == if x.efd == 0 then x.(fault := NothingToRead) else x.(users := x.users[u := Woken], efd := 0)
      case GetWoken(u) => x.users[u].Woken? && y == Took(x, u)
    else Aside(x, y)
  }

  lemma TakeSignal(s: State, u: nat)
    requires Wired(s) && u < |s.users|
    ensures SignalOf(TakeEvent(s, u)) == Took(SignalOf(s), u)
  {
  }

  lemma ReadSignal(s: State, step: Step)
    requires Enabled(s, step) && step.Read?
    ensures SignalStep(SignalOf(s), step, SignalOf(ReadStep(s, step.c, step.frames)))
  {
  }

  lemma GetSignal(s: State, step: Step)
    requires Enabled(s, step) && GetStep(step)
    ensures SignalStep(SignalOf(s), step, SignalOf(Apply(s, step)))
  {
    if TakeStep(s, step) {
      TakeSignal(s, step.u);
    }
  }

  lemma AsideWorker(s: State, step: Step)
    requires Enabled(s, step) && (WorkerStep(step) || step.AddConn?)
    ensures Aside(SignalOf(s), SignalOf(Apply(s, step)))
  {
  }

  lemma AsideWrite(s: State, step: Step)
    requires Enabled(s, step) && WriteStep(step)
    ensures Aside(SignalOf(s), SignalOf(Apply(s, step)))
  {
  }

  lemma AsideSend(s: State, step: Step)
    requires Enabled(s, step) && (step.SendEnter? || step.SendGate? || step.SendWait? || step.SendCount?)
    ensures Aside(SignalOf(s), SignalOf(Apply(s, step)))
  {
  }

  lemma AsideInsert(s: State, u: nat)
    requires Enabled(s, SendInsert(u)) && Core(s)
    ensures Aside(SignalOf(s), SignalOf(Apply(s, SendInsert(u))))
  {
    InsertGoes(s, u);
  }

  lemma SignalOfStep(s: State, step: Step)
    requires Enabled(s, step) && Core(s)
    ensures SignalStep(SignalOf(s), step, SignalOf(Apply(s, step)))
  {
    if step.Read? {
      ReadSignal(s, step);
    } else if GetStep(step) {
      GetSignal(s, step);
    } else if WorkerStep(step) || step.AddConn? {
      AsideWorker(s, step);
    } else if WriteStep(step) {
      AsideWrite(s, step);
    } else if step.SendInsert? {
      AsideInsert(s, step.u);
    } else {
      AsideSend(s, step);
    }
  }

  /** For any number of readers, timeouts or not, the one step that leaves a reader waiting
      with something to read and no signal. */
  lemma AlertExactly(x: Signal, step: Step, y: Signal)
    requires Alert(x) && SignalStep(x, step, y)
    ensures Alert(y) <==> !Steals(x, step)
  {
    if u :| 0 <= u < |y.users| && y.users[u].Polling? && !(step.GetEnter? && step.u == u) {
      assert x.users[u].Polling?;
    }
    if Steals(x, step) {
      var u :| 0 <= u < |x.users| && u != step.u && x.users[u].Polling?;
      assert y.users[u].Polling?;
    }
  }

  lemma OneReaderStep(x: Signal, step: Step, y: Signal, k: nat)
    requires OneReader(x, k) && SignalStep(x, step, y) && OnlyReader(step, k)
    ensures OneReader(y, k) && !Steals(x, step)
  {
  }

  /** A wait that ends without a signal: after 10 seconds, or with EINTR, which fails the
      assertion behind it. */
  predicate Disturbs(step: Step) {
    step.GetTimeout? || step.GetInterrupt?
  }

  /** The timeout is the one step after which descriptor and flag no longer fit the reader: it
      leaves a request or a signal behind. Every other step but the interrupted wait keeps them
      in agreement, so the assertions on waking up cannot fail. */
  lemma AgreedExactly(x: Signal, step: Step, y: Signal, k: nat)
    requires Agreed(x, k) && SignalStep(x, step, y) && OnlyReader(step, k)
    ensures Agreed(y, k) <==> !Disturbs(step)
  {
  }

  /** The descriptor is signalled only while there is something to read, and neither assertion
      on waking up (src/utils/efd_eventfd.inc:81-93, src/core/global.c:216) has failed. */
  predicate Fine(x: Signal) {
    x.fault != NothingToRead && x.fault != NothingQueued && (0 < x.efd ==> x.events != [])
  }

  /** What the reader found on its way is still there. */
  predicate Sound(x: Signal, k: nat) {
    OneReader(x, k) && (x.users[k].Signalled? ==> 0 < x.efd) && (x.users[k].Woken? ==> x.events != [])
  }

  /** The last event is taken, and the signal stays. */
  predicate Leaves(x: Signal, step: Step) {
    (step.GetEnter? || step.GetWoken?) && |x.events| == 1 && 0 < x.efd
  }

  /** Timeouts or not, the one step after which a signal stands for nothing. */
  lemma FineExactly(x: Signal, step: Step, y: Signal, k: nat)
    requires x.fault == NoFault && Fine(x) && Sound(x, k) && SignalStep(x, step, y) && OnlyReader(step, k)
    ensures Fine(y) <==> !Leaves(x, step)
    ensures Fine(y) ==> Sound(y, k)
  {
  }

  /** While descriptor and flag agree with the reader, it takes no event under a signal. */
  lemma AgreedLeaves(x: Signal, step: Step, y: Signal, k: nat)
    requires Agreed(x, k) && SignalStep(x, step, y) && OnlyReader(step, k)
    ensures !Leaves(x, step)
  {
  }

  predicate OneReaderRun(steps: seq<Step>, k: nat) {
    forall i :: 0 <= i < |steps| ==> OnlyReader(steps[i], k)
  }

  predicate NeverSteals(s: State, steps: seq<Step>)
    requires Valid(s, steps)
    decreases |steps|
  {
    steps == [] || (!Steals(SignalOf(s), steps[0]) && NeverSteals(Apply(s, steps[0]), steps[1..]))
  }

  /** In every state of the run. */
  predicate AlwaysAlert(s: State, steps: seq<Step>)
    requires Valid(s, steps)
    decreases |steps|
  {
    Alert(SignalOf(s)) && (steps == [] || AlwaysAlert(Apply(s, steps[0]), steps[1..]))
  }

  lemma {:induction false} AlertRun(s: State, steps: seq<Step>)
    requires Core(s) && Valid(s, steps) && Alert(SignalOf(s))
    ensures AlwaysAlert(s, steps) <==> NeverSteals(s, steps)
    decreases |steps|
  {
    if steps != [] {
      var t := Apply(s, steps[0]);
      CoreStep(s, steps[0]);
      SignalOfStep(s, steps[0]);
      AlertExactly(SignalOf(s), steps[0], SignalOf(t));
      if Alert(SignalOf(t)) {
        AlertRun(t, steps[1..]);
      }
    }
  }

  /** A single reader has nobody to steal from. */
  lemma {:induction false} OneReaderSteals(s: State, steps: seq<Step>, k: nat)
    requires Core(s) && Valid(s, steps) && OneReaderRun(steps, k) && OneReader(SignalOf(s), k)
    ensures NeverSteals(s, steps)
    decreases |steps|
  {
    if steps != [] {
      var t := Apply(s, steps[0]);
      CoreStep(s, steps[0]);
      SignalOfStep(s, steps[0]);
      OneReaderStep(SignalOf(s), steps[0], SignalOf(t), k);
      OneReaderSteals(t, steps[1..], k);
    }
  }

  predicate NeverLeaves(s: State, steps: seq<Step>)
    requires Valid(s, steps)
    decreases |steps|
  {
    steps == [] || (!Leaves(SignalOf(s), steps[0]) && NeverLeaves(Apply(s, steps[0]), steps[1..]))
  }

  /** In every state of the run. */
  predicate AlwaysFine(s: State, steps: seq<Step>)
    requires Valid(s, steps)
    decreases |steps|
  {
    Fine(SignalOf(s)) && (steps == [] || AlwaysFine(Apply(s, steps[0]), steps[1..]))
  }

  lemma {:induction false} FineRun(s: State, steps: seq<Step>, k: nat)
    requires Core(s) && Valid(s, steps) && OneReaderRun(steps, k) && Fine(SignalOf(s)) && Sound(SignalOf(s), k)
    ensures AlwaysFine(s, steps) <==> NeverLeaves(s, steps)
    decreases |steps|
  {
    if steps != [] {
      var t := Apply(s, steps[0]);
      CoreStep(s, steps[0]);
      SignalOfStep(s, steps[0]);
      FineExactly(SignalOf(s), steps[0], SignalOf(t), k);
      if Fine(SignalOf(t)) {
        FineRun(t, steps[1..], k);
      }
    }
  }

  lemma {:induction false} FineAtTheEnd(s: State, steps: seq<Step>)
    requires Valid(s, steps) && AlwaysFine(s, steps)
    ensures Fine(SignalOf(Run(s, steps)))
    decreases |steps|
  {
    if steps != [] {
      FineAtTheEnd(Apply(s, steps[0]), steps[1..]);
    }
  }

  lemma {:induction false} AgreedRun(s: State, steps: seq<Step>, k: nat)
    requires Core(s) && Valid(s, steps) && OneReaderRun(steps, k) && Agreed(SignalOf(s), k)
    requires forall i :: 0 <= i < |steps| ==> !Disturbs(steps[i])
    ensures Run(s, steps).fault == NoFault && NeverLeaves(s, steps)
    decreases |steps|
  {
    if steps != [] {
      var t := Apply(s, steps[0]);
      CoreStep(s, steps[0]);
      SignalOfStep(s, steps[0]);
      AgreedExactly(SignalOf(s), steps[0], SignalOf(t), k);
      AgreedLeaves(SignalOf(s), steps[0], SignalOf(t), k);
      AgreedRun(t, steps[1..], k);
    }
  }

  /** In no run, with any number of readers, does a push meet a task that is still queued. */
  lemma {:induction false} NeverPushedTwice(s: State, steps: seq<Step>)
    requires Core(s) && Valid(s, steps) && s.fault != PushedTwice
    ensures Run(s, steps).fault != PushedTwice
    decreases |steps|
  {
    if steps != [] {
      CoreStep(s, steps[0]);
      SignalOfStep(s, steps[0]);
      NeverPushedTwice(Apply(s, steps[0]), steps[1..]);
    }
  }
}
