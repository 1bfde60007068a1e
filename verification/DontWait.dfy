/** Callers of fsock_send who do not want to wait (src/core/global.c:257-264). Their flag counts in
    the first test of `writing` only; the second can send them to the wait like anybody else. */
module DontWait {
  import opened Machine
  import opened Flow

  /** User u waits for the count to drop below the mark; with `hasty`, although it asked not to. */
  predicate Waits(users: seq<User>, u: nat, hasty: bool) {
    u < |users| && (users[u].ToWait? || users[u].Blocked?) && (hasty ==> users[u].dontwait)
  }

  /** The second test finds sending stopped. */
  predicate ShutOut(s: State, step: Step, u: nat, hasty: bool) {
    && step == SendGate(u) && s.root.stopWrite
    && u < |s.users| && s.users[u].Gate? && (hasty ==> s.users[u].dontwait)
  }

  /** What others can do to user u: nothing, but for waking it up. Only a send that counts its
      frame can stop sending. */
  predicate Left(s: State, step: Step, t: State, u: nat) {
    && u < |s.users| == |t.users| && (t.users[u] == s.users[u] || (s.users[u].Blocked? && t.users[u].Insert?))
    && t.root.sndhwm == s.root.sndhwm && (!s.root.stopWrite && !step.SendCount? ==> !t.root.stopWrite)
  }

  lemma LeftWorker(s: State, step: Step, u: nat)
    requires Enabled(s, step) && u < |s.users| && (WorkerStep(step) || step.AddConn?)
    ensures Left(s, step, Apply(s, step), u)
  {
  }

  lemma LeftWrite(s: State, step: Step, u: nat)
    requires Enabled(s, step) && u < |s.users| && WriteStep(step)
    ensures Left(s, step, Apply(s, step), u)
  {
  }

  lemma LeftShared(s: State, step: Step, u: nat)
    requires Enabled(s, step) && u < |s.users| && !By(step, u) && (step.Read? || TakeStep(s, step))
    ensures Left(s, step, Apply(s, step), u)
  {
  }

  lemma LeftUser(s: State, step: Step, u: nat)
    requires Enabled(s, step) && u < |s.users| && !By(step, u) && !TakeStep(s, step)
    requires !WorkerStep(step) && !WriteStep(step) && !step.AddConn? && !step.Read?
    ensures Left(s, step, Apply(s, step), u)
  {
  }

  lemma LeftByOthers(s: State, step: Step, u: nat)
    requires Enabled(s, step) && u < |s.users| && !By(step, u)
    ensures Left(s, step, Apply(s, step), u)
  {
    if WorkerStep(step) || step.AddConn? {
      LeftWorker(s, step, u);
    } else if WriteStep(step) {
      LeftWrite(s, step, u);
    } else if step.Read? || TakeStep(s, step) {
      LeftShared(s, step, u);
    } else {
      LeftUser(s, step, u);
    }
  }

  lemma BlockedSteps(s: State, step: Step, u: nat)
    requires Enabled(s, step) && u < |s.users| && s.users[u].Blocked? && !WriteStep(step)
    ensures u < |Apply(s, step).users| && Apply(s, step).users[u] == s.users[u]
  {
    LeftByOthers(s, step, u);
    if WorkerStep(step) || step.AddConn? {
      LoopUsers(s, step, u);
    }
  }

  lemma LoopUsers(s: State, step: Step, u: nat)
    requires Enabled(s, step) && u < |s.users| && (WorkerStep(step) || step.AddConn?)
    ensures u < |Apply(s, step).users| && Apply(s, step).users[u] == s.users[u]
  {
  }

  lemma BlockedWrites(s: State, step: Step, u: nat)
    requires Enabled(s, step) && u < |s.users| && s.users[u].Blocked? && WriteStep(step)
    ensures u < |Apply(s, step).users|
    ensures Apply(s, step).users[u]
         == if step.WriteWake? && s.workers[step.w].hand.cast then Insert(s.users[u].c, s.users[u].f) else s.users[u]
  {
  }

  /** A blocked sender goes on with its frame when a handler makes the broadcast that it announced,
      without looking at the mark again, and at nothing else. */
  lemma BlockedExactly(s: State, step: Step, u: nat)
    requires Enabled(s, step) && u < |s.users| && s.users[u].Blocked?
    ensures u < |Apply(s, step).users|
    ensures Apply(s, step).users[u]
         == if step.WriteWake? && s.workers[step.w].hand.cast then Insert(s.users[u].c, s.users[u].f) else s.users[u]
  {
    if WriteStep(step) {
      BlockedWrites(s, step, u);
    } else {
      BlockedSteps(s, step, u);
    }
  }

  lemma OwnTake(s: State, step: Step, u: nat, hasty: bool)
    requires Enabled(s, step) && By(step, u) && TakeStep(s, step) && !Waits(s.users, u, hasty)
    ensures !Waits(Apply(s, step).users, u, hasty)
  {
  }

  lemma OwnStep(s: State, step: Step, u: nat, hasty: bool)
    requires Enabled(s, step) && By(step, u) && !TakeStep(s, step) && !Waits(s.users, u, hasty)
    ensures Waits(Apply(s, step).users, u, hasty) <==> ShutOut(s, step, u, hasty)
  {
  }

  /** The only way into the wait. */
  lemma WaitsExactly(s: State, step: Step, u: nat, hasty: bool)
    requires Enabled(s, step) && u < |s.users| && !Waits(s.users, u, hasty)
    ensures u < |Apply(s, step).users| && (Waits(Apply(s, step).users, u, hasty) <==> ShutOut(s, step, u, hasty))
  {
    if !By(step, u) {
      LeftByOthers(s, step, u);
    } else if TakeStep(s, step) {
      OwnTake(s, step, u, hasty);
    } else {
      OwnStep(s, step, u, hasty);
    }
  }

  predicate NeverShutOut(s: State, steps: seq<Step>, u: nat, hasty: bool)
    requires Valid(s, steps)
    decreases |steps|
  {
    steps == [] || (!ShutOut(s, steps[0], u, hasty) && NeverShutOut(Apply(s, steps[0]), steps[1..], u, hasty))
  }

  /** In no state of the run. */
  predicate NeverWaits(s: State, steps: seq<Step>, u: nat, hasty: bool)
    requires Valid(s, steps)
    decreases |steps|
  {
    !Waits(s.users, u, hasty) && (steps == [] || NeverWaits(Apply(s, steps[0]), steps[1..], u, hasty))
  }

  lemma {:induction false} WaitsRun(s: State, steps: seq<Step>, u: nat, hasty: bool)
    requires Valid(s, steps) && u < |s.users| && !Waits(s.users, u, hasty)
    ensures NeverWaits(s, steps, u, hasty) <==> NeverShutOut(s, steps, u, hasty)
    decreases |steps|
  {
    if steps != [] {
      WaitsExactly(s, steps[0], u, hasty);
      if !Waits(Apply(s, steps[0]).users, u, hasty) {
        WaitsRun(Apply(s, steps[0]), steps[1..], u, hasty);
      }
    }
  }

  // ---- between the two tests ------------------------------------------------------------------

  predicate OthersOnly(steps: seq<Step>, u: nat) {
    forall i :: 0 <= i < |steps| ==> !By(steps[i], u)
  }

  predicate NothingCounted(steps: seq<Step>) {
    forall i :: 0 <= i < |steps| ==> !steps[i].SendCount?
  }

  lemma {:induction false} GateRun(s: State, steps: seq<Step>, u: nat)
    requires Valid(s, steps) && OthersOnly(steps, u) && u < |s.users| && s.users[u].Gate?
    ensures var t := Run(s, steps); u < |t.users| && t.users[u] == s.users[u] && t.root.sndhwm == s.root.sndhwm
    ensures !s.root.stopWrite && NothingCounted(steps) ==> !Run(s, steps).root.stopWrite
    decreases |steps|
  {
    if steps != [] {
      LeftByOthers(s, steps[0], u);
      GateRun(Apply(s, steps[0]), steps[1..], u);
    }
  }

  /** The first test lets a send with DONWAIT in. */
  predicate LetIn(s: State, u: nat, c: nat, f: Frame) {
    Enabled(s, SendEnter(u, c, f, true)) && Apply(s, SendEnter(u, c, f, true)).users[u].Gate?
  }

  function Entered(s: State, u: nat, c: nat, f: Frame): State
    requires LetIn(s, u, c, f)
  {
    Apply(s, SendEnter(u, c, f, true))
  }

  /** Such a send, whatever others do until its second test: the count was below the mark at the
      first, and the call waits iff it has reached the mark at the second, for which another
      send must have counted its frame in between. */
  lemma SecondTest(s: State, u: nat, c: nat, f: Frame, between: seq<Step>)
    requires FlowOk(s) && LetIn(s, u, c, f) && OthersOnly(between, u) && Valid(Entered(s, u, c, f), between)
    requires Run(Entered(s, u, c, f), between).fault == NoFault
    ensures !(0 < s.root.sndhwm <= s.root.sndqsz)
    ensures var t := Run(Entered(s, u, c, f), between);
            && Enabled(t, SendGate(u)) && t.root.sndhwm == s.root.sndhwm
            && var user := Apply(t, SendGate(u)).users[u];
               && user == (if 0 < t.root.sndhwm <= t.root.sndqsz then ToWait(c, f, true) else Insert(c, f))
               && (NothingCounted(between) ==> user == Insert(c, f))
  {
    FlowStep(s, SendEnter(u, c, f, true));
    FlowRun(Entered(s, u, c, f), between);
    GateRun(Entered(s, u, c, f), between, u);
  }
}
