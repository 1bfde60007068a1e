/** The two high-water marks as a step law: when exactly reading and sending are stopped, resumed
    and announced (src/core/sock.c:384-392, 479-494, src/core/global.c:222-229, 281-290). */
module HighWater {
  import opened Machine
  import opened Flow

  /** Reading is stopped above the mark and stays so down to it; below it runs. */
  predicate ReadMark(s: State, t: State) {
    && t.root.rcvhwm == s.root.rcvhwm
    && if 0 < s.root.rcvhwm then
         t.root.stopRead <==>
           s.root.rcvhwm < t.root.rcvqsz || (s.root.stopRead && s.root.rcvhwm <= t.root.rcvqsz)
       else t.root.stopRead == s.root.stopRead
  }

  /** Every read that ends above the mark stops all connections there are then, also those that came
      after the stop before; and resuming starts them all. */
  predicate Covers(s: State, step: Step, t: State) {
    t.root.decided ==
      if (step.Read? && 0 < s.root.rcvhwm < t.root.rcvqsz) || (s.root.stopRead && !t.root.stopRead) then |t.conns|
      else s.root.decided
  }

  /** The broadcast for blocked senders is announced by the subtraction that ends a stop they asked
      to be woken from, and the request lasts until then. */
  predicate Announces(s: State, step: Step, t: State) {
    && (t.root.wantWcond <==> step.SendWait? || (s.root.wantWcond && !(s.root.stopWrite && !t.root.stopWrite)))
    && (step.WriteAccount? ==>
          && step.w < |t.workers| && t.workers[step.w].hand.Wake?
          && (t.workers[step.w].hand.cast <==> s.root.wantWcond && s.root.stopWrite && !t.root.stopWrite))
  }

  predicate MarkStep(s: State, step: Step, t: State) {
    ReadMark(s, t) && Covers(s, step, t) && Announces(s, step, t)
  }

  lemma ReadEnds(s: State, c: nat, frames: seq<Frame>)
    requires Wired(s) && c < |s.conns|
    ensures var q, t := ReadRoot(s.root, c, frames), ReadStep(s, c, frames);
            && t.root == (if 0 < q.rcvhwm < q.rcvqsz then q.(stopRead := true, decided := |s.conns|) else q)
            && |t.conns| == |s.conns| && q.rcvhwm == s.root.rcvhwm && q.stopRead == s.root.stopRead
            && q.decided == s.root.decided && q.wantWcond == s.root.wantWcond && q.stopWrite == s.root.stopWrite
            && q.rcvqsz == s.root.rcvqsz + |frames|
  {
  }

  lemma ReadMarks(s: State, step: Step)
    requires FlowOk(s) && Enabled(s, step) && step.Read?
    ensures MarkStep(s, step, Apply(s, step))
  {
    ReadEnds(s, step.c, step.frames);
  }

  lemma TakeMarks(s: State, step: Step)
    requires FlowOk(s) && Enabled(s, step) && TakeStep(s, step)
    ensures MarkStep(s, step, Apply(s, step))
  {
  }

  lemma LoopMarks(s: State, step: Step)
    requires FlowOk(s) && Enabled(s, step) && (WorkerStep(step) || step.AddConn?)
    ensures MarkStep(s, step, Apply(s, step))
  {
  }

  lemma HandlerMarks(s: State, step: Step)
    requires FlowOk(s) && Enabled(s, step) && WriteStep(step)
    ensures MarkStep(s, step, Apply(s, step))
  {
  }

  lemma UserMarks(s: State, step: Step)
    requires FlowOk(s) && Enabled(s, step) && !TakeStep(s, step)
    requires !WorkerStep(step) && !WriteStep(step) && !step.AddConn? && !step.Read?
    ensures MarkStep(s, step, Apply(s, step))
  {
  }

  /** Every step, whatever it does. */
  lemma MarksExactly(s: State, step: Step)
    requires FlowOk(s) && Enabled(s, step)
    ensures MarkStep(s, step, Apply(s, step))
  {
    if WorkerStep(step) || step.AddConn? {
      LoopMarks(s, step);
    } else if WriteStep(step) {
      HandlerMarks(s, step);
    } else if step.Read? {
      ReadMarks(s, step);
    } else if TakeStep(s, step) {
      TakeMarks(s, step);
    } else {
      UserMarks(s, step);
    }
  }
}
