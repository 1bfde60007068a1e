/** Senders blocked at the high-water mark (src/core/global.c:257-264, src/core/sock.c:479-494):
    which step puts one to sleep with nobody left to wake it. */
module Sleepers {
  import opened Machine
  import opened Flow

  predicate SomeBlocked(s: State) {
    exists u :: 0 <= u < |s.users| && s.users[u].Blocked?
  }

  predicate Casting(w: Worker) {
    w.hand.Wake? && w.hand.cast
  }

  /** Some worker has announced a broadcast and not yet made it. */
  predicate PendingCast(s: State) {
    exists w :: 0 <= w < |s.workers| && Casting(s.workers[w])
  }

  /** A sender that sleeps has asked for the broadcast and the mark is still to be crossed
      downwards, or the broadcast is on its way. */
  predicate WillBeWoken(s: State) {
    SomeBlocked(s) ==> (s.root.wantWcond && s.root.stopWrite) || PendingCast(s)
  }

  /** A sender goes to sleep on a test that no longer holds. */
  predicate LateSleep(s: State, step: Step) {
    step.SendWait? && !s.root.stopWrite && !PendingCast(s)
  }

  /** t has no new sleeper and lost no promise of s. */
  predicate KeepsPromise(s: State, t: State) {
    && (SomeBlocked(t) ==> SomeBlocked(s))
    && t.root.wantWcond == s.root.wantWcond && (s.root.stopWrite ==> t.root.stopWrite)
    && (PendingCast(s) ==> PendingCast(t))
  }

  /** Same users, flags and announcements. */
  predicate SameSleep(s: State, t: State) {
    && |t.users| == |s.users| && |t.workers| == |s.workers|
    && (forall u :: 0 <= u < |s.users| ==> t.users[u].Blocked? == s.users[u].Blocked?)
    && t.root.wantWcond == s.root.wantWcond && (s.root.stopWrite ==> t.root.stopWrite)
    && (forall w :: 0 <= w < |s.workers| ==> Casting(t.workers[w]) == Casting(s.workers[w]))
  }

  lemma SameSleepKeeps(s: State, t: State)
    requires SameSleep(s, t)
    ensures KeepsPromise(s, t)
  {
    if w :| 0 <= w < |s.workers| && Casting(s.workers[w]) {
      assert Casting(t.workers[w]);
    }
  }

  lemma DecideSleep(s: State, t: State, on: bool)
    requires Wired(t) && SameSleep(s, t)
    ensures SameSleep(s, DecideAll(t, on))
  {
    BulkFrame(Flagged(t, on), on, |t.conns|);
  }

  lemma ReadSleep(s: State, c: nat, frames: seq<Frame>)
    requires Wired(s) && c < |s.conns|
    ensures SameSleep(s, ReadStep(s, c, frames))
  {
    var t := SetConn(s, c, s.conns[c].(parsed := s.conns[c].parsed + frames)).(root := ReadRoot(s.root, c, frames));
    DecideSleep(s, t, false);
  }

  lemma TakeSleep(s: State, u: nat)
    requires Wired(s) && u < |s.users| && !s.users[u].Blocked?
    ensures SameSleep(s, TakeEvent(s, u))
  {
    if s.root.events != [] {
      DecideSleep(s, SetUser(s, u, Ready).(root := TakeRoot(s.root)), true);
    }
  }

  lemma WorkerSleep(s: State, step: Step)
    requires Enabled(s, step)
    requires WorkerStep(step) || step.AddConn?
    ensures SameSleep(s, Apply(s, step))
  {
  }

  lemma WriteSleep(s: State, step: Step)
    requires Enabled(s, step) && WriteStep(step) && !step.WriteAccount? && !step.WriteWake?
    ensures SameSleep(s, Apply(s, step))
  {
  }

  lemma UserSleep(s: State, step: Step)
    requires Enabled(s, step) && !WorkerStep(step) && !WriteStep(step) && !TakeStep(s, step)
    requires !step.AddConn? && !step.Read? && !step.SendWait?
    ensures SameSleep(s, Apply(s, step))
  {
  }

  /** Subtracting may clear the request, but then announces the broadcast. */
  lemma AccountSleep(s: State, w: nat)
    requires Enabled(s, WriteAccount(w)) && WillBeWoken(s)
    ensures WillBeWoken(Apply(s, WriteAccount(w)))
  {
    var t := Apply(s, WriteAccount(w));
    if x :| 0 <= x < |s.workers| && Casting(s.workers[x]) {
      assert Casting(t.workers[x]);
    } else if SomeBlocked(s) && !t.root.stopWrite {
      assert Casting(t.workers[w]);
    }
  }

  lemma WakeSleep(s: State, w: nat)
    requires Enabled(s, WriteWake(w)) && WillBeWoken(s)
    ensures WillBeWoken(Apply(s, WriteWake(w)))
  {
    var t := Apply(s, WriteWake(w));
    if !s.workers[w].hand.cast {
      if x :| 0 <= x < |s.workers| && Casting(s.workers[x]) {
        assert Casting(t.workers[x]);
      }
    }
  }

  /** The promise survives every step except falling asleep after the last broadcast. */
  lemma WokenExactly(s: State, step: Step)
    requires Enabled(s, step) && WillBeWoken(s)
    ensures WillBeWoken(Apply(s, step)) <==> !LateSleep(s, step)
  {
    var t := Apply(s, step);
    if step.SendWait? {
      assert t.users[step.u].Blocked? && t.workers == s.workers;
    } else if step.WriteAccount? {
      AccountSleep(s, step.w);
    } else if step.WriteWake? {
      WakeSleep(s, step.w);
    } else {
      if WriteStep(step) {
        WriteSleep(s, step);
      } else if WorkerStep(step) || step.AddConn? {
        WorkerSleep(s, step);
      } else if step.Read? {
        ReadSleep(s, step.c, step.frames);
      } else if TakeStep(s, step) {
        TakeSleep(s, step.u);
      } else {
        UserSleep(s, step);
      }
      SameSleepKeeps(s, t);
    }
  }

  predicate NoLateSleep(s: State, steps: seq<Step>)
    requires Valid(s, steps)
    decreases |steps|
  {
    steps == [] || (!LateSleep(s, steps[0]) && NoLateSleep(Apply(s, steps[0]), steps[1..]))
  }

  /** In every state of the run a sleeping sender is bound to be woken. */
  predicate AlwaysWoken(s: State, steps: seq<Step>)
    requires Valid(s, steps)
    decreases |steps|
  {
    WillBeWoken(s) && (steps == [] || AlwaysWoken(Apply(s, steps[0]), steps[1..]))
  }

  lemma {:induction false} WokenRun(s: State, steps: seq<Step>)
    requires Valid(s, steps) && WillBeWoken(s)
    ensures AlwaysWoken(s, steps) <==> NoLateSleep(s, steps)
    decreases |steps|
  {
    if steps != [] {
      WokenExactly(s, steps[0]);
      if WillBeWoken(Apply(s, steps[0])) {
        WokenRun(Apply(s, steps[0]), steps[1..]);
      }
    }
  }

  lemma {:induction false} WokenAtTheEnd(s: State, steps: seq<Step>)
    requires Valid(s, steps) && AlwaysWoken(s, steps)
    ensures WillBeWoken(Run(s, steps))
    decreases |steps|
  {
    if steps != [] {
      WokenAtTheEnd(Apply(s, steps[0]), steps[1..]);
    }
  }
}
