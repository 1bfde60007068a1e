/** What holds in every state of every run, from a fresh socket with any high-water marks, any
    number of user threads and any interleaving of them with the four workers. */
module Theorems {
  import opened Machine
  import opened TaskLists
  import opened Invariant
  import opened Connections
  import opened Preservation
  import opened Flow
  import opened Counts
  import opened WakeUps
  import opened Senders
  import opened Sleepers
  import opened Attaching
  import opened DontWait
  import HighWater
  import Stopping

  /** A socket as fsock_socket leaves it, with its high-water marks set and no calls under way. */
  predicate Fresh(s: State) {
    s == Init(s.root.sndhwm, s.root.rcvhwm, |s.users|)
  }

  lemma CoreReached(s: State, steps: seq<Step>)
    requires Fresh(s) && Valid(s, steps)
    ensures Core(Run(s, steps))
  {
    CoreInit(s.root.sndhwm, s.root.rcvhwm, |s.users|);
    CoreRun(s, steps);
  }

  lemma FlowInit(s: State)
    requires Fresh(s)
    ensures FlowOk(s)
  {
  }

  lemma FlowReached(s: State, steps: seq<Step>)
    requires Fresh(s) && Valid(s, steps)
    ensures FlowOk(Run(s, steps))
  {
    FlowInit(s);
    FlowRun(s, steps);
  }

  lemma CountInit(s: State)
    requires Fresh(s)
    ensures CountOk(s) && BoundOk(s)
  {
    SumBound(Uncounted, s.users, 0);
    SumBound(Past, s.users, 0);
    SumBound(WorkerLoad, s.workers, 0);
    assert |s.users| * 0 == 0 && |s.workers| * 0 == 0;
  }

  /** The marks and the numbers of threads never change. */
  predicate Constant(s: State, t: State) {
    t.root.sndhwm == s.root.sndhwm && t.root.rcvhwm == s.root.rcvhwm
    && |t.users| == |s.users| && |t.workers| == |s.workers|
  }

  lemma ConstantWorker(s: State, step: Step)
    requires Enabled(s, step) && (WorkerStep(step) || step.AddConn?)
    ensures Constant(s, Apply(s, step))
  {
  }

  lemma ConstantWrite(s: State, step: Step)
    requires Enabled(s, step) && WriteStep(step)
    ensures Constant(s, Apply(s, step))
  {
  }

  lemma ConstantShared(s: State, step: Step)
    requires Enabled(s, step) && (step.Read? || TakeStep(s, step))
    ensures Constant(s, Apply(s, step))
  {
  }

  lemma ConstantStep(s: State, step: Step)
    requires Enabled(s, step)
    ensures Constant(s, Apply(s, step))
  {
    if WorkerStep(step) || step.AddConn? {
      ConstantWorker(s, step);
    } else if WriteStep(step) {
      ConstantWrite(s, step);
    } else if step.Read? || TakeStep(s, step) {
      ConstantShared(s, step);
    }
  }

  lemma {:induction false} ConstantRun(s: State, steps: seq<Step>)
    requires Valid(s, steps)
    ensures Constant(s, Run(s, steps))
    decreases |steps|
  {
    if steps != [] {
      ConstantStep(s, steps[0]);
      ConstantRun(Apply(s, steps[0]), steps[1..]);
    }
  }

  lemma PendingSel(w: Worker, kind: Kind, c: nat)
    ensures Sel(Pending(w), kind, c) == Sel(w.cur, kind, c) + Sel(w.batch, kind, c) + Sel(w.jobs, kind, c)
  {
    SelConcat(w.cur + w.batch, w.jobs, kind, c);
    SelConcat(w.cur, w.batch, kind, c);
  }

  // ---- read decisions -----------------------------------------------------------------------

  /** The decision in force for connection c. */
  function Decision(root: Root, c: nat): bool {
    if c < root.decided then !root.stopRead else true
  }

  /** For an open, attached connection on a running worker, the last of its pending read tasks,
      or its watcher when there is none, is that decision. */
  predicate DecisionHolds(s: State, c: nat)
    requires c < |s.conns| && s.conns[c].thr < |s.workers|
  {
    var w := s.workers[s.conns[c].thr];
    var tasks := Sel(Pending(w), Kind.Reading, c);
    !w.halted && !s.conns[c].zombie && !s.conns[c].starting ==>
      Decision(s.root, c) == if tasks != [] then TurnsOn(tasks[|tasks| - 1]) else s.conns[c].rio
  }

  lemma DecisionInForce(s: State, c: nat)
    requires c < |s.conns| && s.conns[c].thr < |s.workers| && ConnOk(ViewOf(s, c), c)
    requires s.conns[c].verdict == Decision(s.root, c) && !s.conns[c].crossed
    ensures DecisionHolds(s, c)
  {
    PendingSel(s.workers[s.conns[c].thr], Kind.Reading, c);
  }

  /** Scheduled behind a decision to stop, the attach task undoes it. */
  lemma AttachBreaks(s: State, c: nat)
    requires Core(s) && FlowOk(s) && Enabled(s, AttachConn(c)) && Behind(s.conns[c], s.workers[s.conns[c].thr])
    ensures var t := Apply(s, AttachConn(c)); Wired(t) && c < |t.conns| && !DecisionHolds(t, c)
  {
    var me, t := s.workers[s.conns[c].thr], Apply(s, AttachConn(c));
    BegunView(s.conns[c], me, c);
    PendingSel(t.workers[t.conns[c].thr], Kind.Reading, c);
  }

  /** A decision that relies on a stop task ahead of the attach task is lost. */
  lemma StopBreaks(s: State, c: nat)
    requires Core(s) && c < |s.conns| && Overtaken(s.conns[c], s.workers[s.conns[c].thr], c, false)
    ensures var t := DecideAll(s, false); Wired(t) && c < |t.conns| && !DecisionHolds(t, c)
  {
    var f, me := Flagged(s, false), s.workers[s.conns[c].thr];
    assert QueuesOk(me) && ConnOk(ViewOf(s, c), c);
    SelMember(me.batch, Kind.Reading, c, StopRead(c));
    SelMember(me.jobs, Kind.Reading, c, Attach(c));
    OvertakenLoses(ViewOf(s, c), c);
    BulkView(f, false, |s.conns|, c);
    var t := DecideAll(s, false);
    assert ViewOf(t, c) == Decided(ViewOf(s, c), c, false);
    PendingSel(t.workers[t.conns[c].thr], Kind.Reading, c);
  }

  lemma CrossingBreaks(s: State, step: Step, c: nat)
    requires Core(s) && FlowOk(s) && Enabled(s, step) && c < |s.conns| && Crossing(s, step, c)
    ensures Wired(Apply(s, step)) && c < |Apply(s, step).conns| && !DecisionHolds(Apply(s, step), c)
  {
    if step.AttachConn? {
      AttachBreaks(s, c);
    } else {
      var q := ReadRoot(s.root, step.c, step.frames);
      var parsed := s.conns[step.c].parsed + step.frames;
      var t := SetConn(s, step.c, s.conns[step.c].(parsed := parsed));
      CoreParsed(s, step.c, parsed);
      CoreRest(t, t.(root := q));
      StopBreaks(t.(root := q), c);
    }
  }

  /** The decision in force holds for connection c in every state of the run. */
  ghost predicate AlwaysDecided(s: State, steps: seq<Step>, c: nat)
    requires Valid(s, steps)
    decreases |steps|
  {
    && (c < |s.conns| ==> s.conns[c].thr < |s.workers| && DecisionHolds(s, c))
    && (steps == [] || AlwaysDecided(Apply(s, steps[0]), steps[1..], c))
  }

  lemma {:induction false} DecidedUnlessCrossed(s: State, steps: seq<Step>, c: nat)
    requires Core(s) && FlowOk(s) && Valid(s, steps) && !MarksOf(s, c).crossed
    ensures AlwaysDecided(s, steps, c) <==> NeverCrossed(s, steps, c)
    decreases |steps|
  {
    if c < |s.conns| {
      assert ConnOk(ViewOf(s, c), c);
      DecisionInForce(s, c);
    }
    if steps != [] {
      var t := Apply(s, steps[0]);
      CoreStep(s, steps[0]);
      FlowStep(s, steps[0]);
      MarksStep(s, steps[0], c);
      if c < |s.conns| && Crossing(s, steps[0], c) {
        CrossingBreaks(s, steps[0], c);
      } else {
        DecidedUnlessCrossed(t, steps[1..], c);
      }
    }
  }

  lemma {:induction false} DecidedAtTheEnd(s: State, steps: seq<Step>, c: nat)
    requires Valid(s, steps) && AlwaysDecided(s, steps, c)
    ensures var t := Run(s, steps); c < |t.conns| ==> t.conns[c].thr < |t.workers| && DecisionHolds(t, c)
    decreases |steps|
  {
    if steps != [] {
      DecidedAtTheEnd(Apply(s, steps[0]), steps[1..], c);
    }
  }

  /** Last decision wins. In every state of the run the last pending read task of an open,
      attached connection is the decision in force for it, and with none pending that is the
      state of its read watcher, iff no step lets the connection's attach task stand behind a
      decision to stop. The decision is the owner's latest one for each connection in the table
      by then, and "start" for the others. */
  lemma LastDecisionWins(s: State, steps: seq<Step>, c: nat)
    requires Fresh(s) && Valid(s, steps)
    ensures AlwaysDecided(s, steps, c) <==> NeverCrossed(s, steps, c)
    ensures NeverCrossed(s, steps, c) ==>
              var t := Run(s, steps); c < |t.conns| ==> t.conns[c].thr < |t.workers| && DecisionHolds(t, c)
  {
    CoreReached(s, []);
    FlowInit(s);
    DecidedUnlessCrossed(s, steps, c);
    if NeverCrossed(s, steps, c) {
      DecidedAtTheEnd(s, steps, c);
    }
  }

  // ---- the write token --------------------------------------------------------------------

  /** How many hold the write token of connection c: its pending write tasks, and its active
      write watcher. */
  function HoldersOf(s: State, c: nat): nat
    requires c < |s.conns| && s.conns[c].thr < |s.workers|
  {
    |Sel(Pending(s.workers[s.conns[c].thr]), Writes, c)| + if s.conns[c].wio then 1 else 0
  }

  lemma HoldersInView(s: State, c: nat)
    requires c < |s.conns| && s.conns[c].thr < |s.workers|
    ensures HoldersOf(s, c) == Holders(ViewOf(s, c))
  {
    PendingSel(s.workers[s.conns[c].thr], Writes, c);
  }

  /** The write token. `writing` is never held by two, and a running write handler is always
      under an active watcher; for an open connection on a running worker, `writing` is set iff
      exactly one holds it, iff no step executed the attach task under an active write watcher.
      No push ever meets a queued task. */
  lemma WriteToken(s: State, steps: seq<Step>, c: nat)
    requires Fresh(s) && Valid(s, steps)
    ensures var t := Run(s, steps);
            && t.fault != PushedTwice
            && (c < |t.conns| ==>
                  && t.conns[c].thr < |t.workers|
                  && var conn, w, token := t.conns[c], t.workers[t.conns[c].thr], if t.conns[c].writing then 1 else 0;
                     && HoldersOf(t, c) <= token
                     && (w.hand != Idle && w.hand.c == c ==> conn.wio && conn.writing)
                     && (!w.halted && !conn.zombie ==> (HoldersOf(t, c) == token <==> NeverCut(s, steps, c))))
  {
    var t := Run(s, steps);
    CoreReached(s, []);
    CoreReached(s, steps);
    NeverPushedTwice(s, steps);
    MarksRun(s, steps, c);
    if c < |t.conns| {
      assert ConnOk(ViewOf(t, c), c) && Owns(t.workers[t.conns[c].thr], t.conns[c].thr, t.conns);
      HoldersInView(t, c);
    }
  }

  /** Both hold for a connection that no decision to stop and no send reaches between its table
      entry and its attach task. */
  lemma SoundIfLeftAlone(s: State, steps: seq<Step>, c: nat)
    requires Fresh(s) && Valid(s, steps) && LeftAlone(s, steps, c)
    ensures NeverCrossed(s, steps, c) && NeverCut(s, steps, c)
  {
    CoreReached(s, []);
    SafeIfLeftAlone(s, steps, c);
  }

  // ---- order ----------------------------------------------------------------------------------

  /** What was written, then the handler's private list, then the connection's list is the
      sequence of frames sent with the lost ones deleted; and is that sequence iff none was. */
  predicate Outbound(s: State, c: nat)
    requires c < |s.conns| && s.conns[c].thr < |s.workers|
  {
    var conn := s.conns[c];
    var transit := conn.written + Local(s.workers[conn.thr], c).chain + conn.ol.chain;
    && Subseq(transit, conn.sent) && |transit| + conn.lost == |conn.sent|
    && (transit == conn.sent <==> conn.lost == 0)
  }

  lemma OutboundInForce(s: State, c: nat)
    requires c < |s.conns| && s.conns[c].thr < |s.workers| && ConnOk(ViewOf(s, c), c)
    ensures Outbound(s, c)
  {
    SubseqFull(InTransit(ViewOf(s, c)), s.conns[c].sent);
  }

  /** Outbound order. The run delivers, or still holds, exactly what was sent iff none of its
      steps links behind a stale `last` pointer; none does if EAGAIN never finds new frames. */
  lemma OutboundFifo(s: State, steps: seq<Step>, c: nat)
    requires Fresh(s) && Valid(s, steps)
    ensures var t := Run(s, steps);
            c < |t.conns| ==>
              && t.conns[c].thr < |t.workers| && Outbound(t, c)
              && (InTransit(ViewOf(t, c)) == t.conns[c].sent <==> NeverAstray(s, steps, c))
    ensures NoRacingMerge(s, steps, c) ==> NeverAstray(s, steps, c)
  {
    var t := Run(s, steps);
    CoreReached(s, []);
    CoreReached(s, steps);
    LostExactly(s, steps, c);
    if c < |t.conns| {
      assert ConnOk(ViewOf(t, c), c);
      OutboundInForce(t, c);
    }
    if NoRacingMerge(s, steps, c) {
      NothingLost(s, steps, c);
    }
  }

  /** Each worker executes what was scheduled on it and not cancelled, in that order, each
      once, and nothing after its stop task. */
  predicate InSequence(me: Worker) {
    && Kept(me.log) == me.done + me.dropped + Pending(me)
    && (forall i, j :: 0 <= i < j < |me.batch + me.jobs| ==> (me.batch + me.jobs)[i] != (me.batch + me.jobs)[j])
    && if me.halted then
         me.cur == [] && me.batch == [] && me.done != []
         && me.done[|me.done| - 1] == Halt && Halt !in me.done[..|me.done| - 1]
       else me.dropped == [] && Halt !in me.done
  }

  lemma SequenceInForce(me: Worker)
    requires QueuesOk(me)
    ensures InSequence(me)
  {
    assert me.done + me.dropped + me.cur + me.batch + me.jobs == me.done + me.dropped + Pending(me);
  }

  lemma WorkerFifo(s: State, steps: seq<Step>, w: nat)
    requires Fresh(s) && Valid(s, steps)
    ensures w < |Run(s, steps).workers| ==> InSequence(Run(s, steps).workers[w])
  {
    var t := Run(s, steps);
    CoreReached(s, steps);
    if w < |t.workers| {
      assert QueuesOk(t.workers[w]);
      SequenceInForce(t.workers[w]);
    }
  }

  // ---- stopping -------------------------------------------------------------------------------

  /** Telling a worker to stop puts the stop task last in its queue, and whatever follows, the task
      is still in one of its queues or the worker has stopped. */
  lemma StopIsKept(s: State, steps: seq<Step>, w: nat, more: seq<Step>)
    requires Fresh(s) && Valid(s, steps) && Enabled(Run(s, steps), ScheduleHalt(w))
    requires Valid(Apply(Run(s, steps), ScheduleHalt(w)), more)
    ensures Stopping.LastOf(Apply(Run(s, steps), ScheduleHalt(w)), w, Halt)
    ensures var t := Run(Apply(Run(s, steps), ScheduleHalt(w)), more);
            w < |t.workers| && (t.workers[w].halted || InQueue(t.workers[w], Halt))
  {
    var m := Run(s, steps);
    CoreReached(s, steps);
    Stopping.Scheduled(m, ScheduleHalt(w));
    CoreStep(m, ScheduleHalt(w));
    var t := Apply(m, ScheduleHalt(w));
    Stopping.TaskStaysRun(t, more, w, Halt);
    CoreRun(t, more);
    Stopping.Stops(Run(t, more), w);
  }

  /** At any point of any run each worker can be stopped: told to, if it was not, it gets there by
      its own steps. */
  lemma WorkersCanStop(s: State, steps: seq<Step>, w: nat) returns (more: seq<Step>)
    requires Fresh(s) && Valid(s, steps) && Run(s, steps).fault == NoFault && w < |Run(s, steps).workers|
    ensures var t := Run(s, steps); Valid(t, more) && w < |Run(t, more).workers| && Run(t, more).workers[w].halted
  {
    var t := Run(s, steps);
    CoreReached(s, steps);
    if t.workers[w].halted {
      more := [];
    } else if InQueue(t.workers[w], Halt) {
      more := Stopping.CanStop(t, w);
    } else {
      Stopping.Scheduled(t, ScheduleHalt(w));
      CoreStep(t, ScheduleHalt(w));
      var rest := Stopping.CanStop(Apply(t, ScheduleHalt(w)), w);
      more := [ScheduleHalt(w)] + rest;
      assert more[0] == ScheduleHalt(w) && more[1..] == rest;
    }
  }

  /** The two high-water marks, at every step of every run. */
  lemma MarksAtEveryStep(s: State, steps: seq<Step>, step: Step)
    requires Fresh(s) && Valid(s, steps) && Enabled(Run(s, steps), step)
    ensures HighWater.MarkStep(Run(s, steps), step, Apply(Run(s, steps), step))
  {
    FlowReached(s, steps);
    HighWater.MarksExactly(Run(s, steps), step);
  }

  // ---- what is forgotten -----------------------------------------------------------------------

  /** In every state of the run a connection with frames in its list holds the token, iff no
      send comes between a test for empty and its reset. */
  lemma NoFrameForgotten(s: State, steps: seq<Step>, c: nat)
    requires Fresh(s) && Valid(s, steps)
    ensures AlwaysAttended(s, steps, c) <==> ResetsEmpty(s, steps, c)
  {
    CoreReached(s, []);
    StrandedNever(s, steps, c);
  }

  /** In every state of the run a sleeping sender is bound to be woken when the count drops
      below the mark, iff no sender falls asleep on an outdated test. */
  lemma NoSenderForgotten(s: State, steps: seq<Step>)
    requires Fresh(s) && Valid(s, steps)
    ensures AlwaysWoken(s, steps) <==> NoLateSleep(s, steps)
  {
    WokenRun(s, steps);
  }

  // ---- callers who do not want to wait -----------------------------------------------------------

  /** User u, or u in calls with DONWAIT (`hasty`), gets into the wait in no state of the run iff
      it never makes its second test while sending is stopped. */
  lemma NeverMadeToWait(s: State, steps: seq<Step>, u: nat, hasty: bool)
    requires Fresh(s) && Valid(s, steps) && u < |s.users|
    ensures NeverWaits(s, steps, u, hasty) <==> NeverShutOut(s, steps, u, hasty)
  {
    WaitsRun(s, steps, u, hasty);
  }

  /** A send with DONWAIT, at any point of any run: its first test lets it in only below the
      mark; it then waits iff the count has reached the mark by its second test, for which
      another send must have counted its frame in between. */
  lemma DontWaitWaits(s: State, steps: seq<Step>, u: nat, c: nat, f: Frame, between: seq<Step>)
    requires Fresh(s) && Valid(s, steps) && LetIn(Run(s, steps), u, c, f) && OthersOnly(between, u)
    requires Valid(Entered(Run(s, steps), u, c, f), between)
    requires Run(Entered(Run(s, steps), u, c, f), between).fault == NoFault
    ensures var r := Run(s, steps).root; !(0 < s.root.sndhwm <= r.sndqsz)
    ensures var t := Run(Entered(Run(s, steps), u, c, f), between);
            && Enabled(t, SendGate(u))
            && var user := Apply(t, SendGate(u)).users[u];
               && user == (if 0 < s.root.sndhwm <= t.root.sndqsz then ToWait(c, f, true) else Insert(c, f))
               && (NothingCounted(between) ==> user == Insert(c, f))
  {
    FlowReached(s, steps);
    ConstantRun(s, steps);
    SecondTest(Run(s, steps), u, c, f, between);
  }

  // ---- counts -----------------------------------------------------------------------------------

  /** No send has yet to count its frame, and no handler is under way. */
  predicate AtRest(s: State) {
    && (forall u :: 0 <= u < |s.users| ==> !s.users[u].Count?)
    && forall w :: 0 <= w < |s.workers| ==> s.workers[w].hand == Idle
  }

  lemma CountAtRest(s: State)
    requires CountOk(s) && AtRest(s)
    ensures s.root.sndqsz == Sum(ConnLoad, s.conns)
  {
    SumBound(Uncounted, s.users, 0);
    SumBound(WorkerLoad, s.workers, 0);
    assert |s.users| * 0 == 0 && |s.workers| * 0 == 0;
  }

  /** Send counting. The count, with what senders have inserted and not counted, is the number
      of frames held by connections and handlers, written and not subtracted, or lost; so when
      no sender and no handler is under way it is the backlog, plus what was lost. */
  lemma SendCountExact(s: State, steps: seq<Step>)
    requires Fresh(s) && Valid(s, steps)
    ensures var t := Run(s, steps);
            && CountOk(t)
            && (AtRest(t) ==> t.root.sndqsz == Sum(ConnLoad, t.conns))
  {
    CountInit(s);
    CountRun(s, steps);
    var t := Run(s, steps);
    if AtRest(t) {
      CountAtRest(t);
    }
  }

  /** In a run in which no sender falls asleep on an outdated test, nobody sleeps when the socket is
      at rest with its backlog, lost frames included, below the mark. */
  lemma NobodySleepsAtRest(s: State, steps: seq<Step>)
    requires Fresh(s) && Valid(s, steps) && NoLateSleep(s, steps)
    ensures var t := Run(s, steps);
            AtRest(t) && !(0 < t.root.sndhwm <= Sum(ConnLoad, t.conns)) ==> !SomeBlocked(t)
  {
    var t := Run(s, steps);
    if AtRest(t) {
      WokenRun(s, steps);
      WokenAtTheEnd(s, steps);
      SendCountExact(s, steps);
      FlowReached(s, steps);
      assert !PendingCast(t);
    }
  }

  /** Receiving and the two high-water marks: counts, hysteresis, and inbound order. */
  lemma Receiving(s: State, steps: seq<Step>, c: nat)
    requires Fresh(s) && Valid(s, steps)
    ensures var t, rcvhwm, sndhwm := Run(s, steps), s.root.rcvhwm, s.root.sndhwm;
            && t.root.rcvqsz == |t.root.events|
            && (0 < rcvhwm && t.root.stopRead ==> rcvhwm <= t.root.rcvqsz)
            && (0 < rcvhwm && !t.root.stopRead ==> t.root.rcvqsz <= rcvhwm)
            && (t.root.stopWrite <==> 0 < sndhwm <= t.root.sndqsz)
            && (c < |t.conns| ==> From(t.root.taken, c) + From(t.root.events, c) == t.conns[c].parsed)
  {
    FlowReached(s, steps);
    ConstantRun(s, steps);
    var t := Run(s, steps);
    FromConcat(t.root.taken, t.root.events, c);
  }

  // ---- wake-ups -----------------------------------------------------------------------------------

  lemma SignalInit(s: State, k: nat)
    requires Fresh(s) && k < |s.users|
    ensures Agreed(SignalOf(s), k) && Fine(SignalOf(s)) && Sound(SignalOf(s), k)
  {
  }

  /** Any number of readers: in every state of the run the descriptor is signalled whenever one
      waits and there is something to read, iff no reader takes a signal that another waits for;
      and a single reader has nobody to take it from. */
  lemma ReadersWokenInTime(s: State, steps: seq<Step>)
    requires Fresh(s) && Valid(s, steps)
    ensures AlwaysAlert(s, steps) <==> NeverSteals(s, steps)
    ensures forall k: nat :: k < |s.users| && OneReaderRun(steps, k) ==> NeverSteals(s, steps)
  {
    CoreReached(s, []);
    AlertRun(s, steps);
    forall k: nat | k < |s.users| && OneReaderRun(steps, k)
      ensures NeverSteals(s, steps)
    {
      SignalInit(s, k);
      OneReaderSteals(s, steps, k);
    }
  }

  /** One reader, its waits timed out or not: in every state of the run the descriptor is
      signalled only while there is something to read, and no assertion on waking up has failed,
      iff the reader never takes the last event while the descriptor is signalled. */
  lemma SignalsMeanEvents(s: State, steps: seq<Step>, k: nat)
    requires Fresh(s) && Valid(s, steps) && k < |s.users| && OneReaderRun(steps, k)
    ensures AlwaysFine(s, steps) <==> NeverLeaves(s, steps)
  {
    CoreReached(s, []);
    SignalInit(s, k);
    FineRun(s, steps, k);
  }

  /** It never does, and nothing fails, if no wait is timed out or interrupted. */
  lemma NoFalseAlarm(s: State, steps: seq<Step>, k: nat)
    requires Fresh(s) && Valid(s, steps) && k < |s.users| && OneReaderRun(steps, k)
    requires forall i :: 0 <= i < |steps| ==> !Disturbs(steps[i])
    ensures AlwaysFine(s, steps)
    ensures var t := Run(s, steps); t.fault == NoFault && (0 < t.root.efd ==> t.root.events != [])
  {
    CoreReached(s, []);
    SignalInit(s, k);
    AgreedRun(s, steps, k);
    SignalsMeanEvents(s, steps, k);
    FineAtTheEnd(s, steps);
  }

  // ---- how far the count overshoots ------------------------------------------------------------------

  lemma {:induction false} BoundRun(s: State, steps: seq<Step>)
    requires FlowOk(s) && BoundOk(s) && Valid(s, steps)
    requires forall i :: 0 <= i < |steps| ==> Impatient(steps[i])
    ensures BoundOk(Run(s, steps))
    decreases |steps|
  {
    if steps != [] {
      FlowStep(s, steps[0]);
      BoundStep(s, steps[0]);
      BoundRun(Apply(s, steps[0]), steps[1..]);
    }
  }

  /** With n senders who never choose to wait, the count together with the senders that passed
      the first test and have not counted yet stays below the mark plus n. */
  lemma SendOvershoot(s: State, steps: seq<Step>)
    requires Fresh(s) && Valid(s, steps) && 0 < s.root.sndhwm
    requires forall i :: 0 <= i < |steps| ==> Impatient(steps[i])
    ensures var t := Run(s, steps); t.root.sndqsz + Sum(Past, t.users) <= s.root.sndhwm + |s.users| - 1
  {
    ConstantRun(s, steps);
    FlowInit(s);
    CountInit(s);
    BoundRun(s, steps);
  }
}
