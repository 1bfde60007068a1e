/** The shared counters, the high-water marks with their hysteresis, the read decisions, and
    the order of inbound frames. */
module Flow {
  import opened Machine

  // ---- receiving --------------------------------------------------------------------

  /** The frames of connection c in a list of events, in order. */
  function From(events: seq<Event>, c: nat): seq<Frame> {
    if events == [] then []
    else if events[0].conn == c then [events[0].frame] + From(events[1..], c)
    else From(events[1..], c)
  }

  lemma {:induction false} FromConcat(a: seq<Event>, b: seq<Event>, c: nat)
    ensures From(a + b, c) == From(a, c) + From(b, c)
  {
    if a == [] {
      assert a + b == b;
    } else {
      FromConcat(a[1..], b, c);
      assert (a + b)[0] == a[0] && (a + b)[1..] == a[1..] + b;
    }
  }

  lemma {:induction false} FromBatch(frames: seq<Frame>, d: nat, c: nat)
    ensures From(Batch(d, frames), c) == (if c == d then frames else []) && |Batch(d, frames)| == |frames|
  {
    if frames != [] {
      FromBatch(frames[1..], d, c);
      assert ([Event(d, frames[0])] + Batch(d, frames[1..]))[1..] == Batch(d, frames[1..]);
    }
  }

  /** Inbound order: what was handed out followed by what is queued is, connection by
      connection, what was parsed. */
  ghost predicate InboundOk(s: State) {
    forall c: nat :: From(s.root.taken + s.root.events, c) == if c < |s.conns| then s.conns[c].parsed else []
  }

  /** The count is the number of queued events; while the mark is enabled, reading is stopped
      only at or above it and runs only at or below it. */
  predicate ReceiveOk(r: Root) {
    && r.rcvqsz == |r.events|
    && (0 < r.rcvhwm ==> if r.stopRead then r.rcvhwm <= r.rcvqsz else r.rcvqsz <= r.rcvhwm)
  }

  /** Sending is stopped exactly while the mark is enabled and reached. */
  predicate SendOk(r: Root) {
    r.stopWrite <==> 0 < r.sndhwm <= r.sndqsz
  }

  /** The latest read decision is in force for every connection it covered; the ones attached
      since were started. */
  ghost predicate VerdictsOk(s: State) {
    && s.root.decided <= |s.conns|
    && forall c :: 0 <= c < |s.conns| ==>
         s.conns[c].verdict == (if c < s.root.decided then !s.root.stopRead else true)
  }

  ghost predicate FlowOk(s: State) {
    Wired(s) && InboundOk(s) && ReceiveOk(s.root) && SendOk(s.root) && VerdictsOk(s)
  }

  /** The read handler never sets `cnt` before counting (src/core/sock.c:341): the critical
      section as it runs when the count starts from whatever was in memory. */
  function ReadRootFrom(root: Root, c: nat, frames: seq<Frame>, junk: int): Root {
    var cnt := junk + |frames|;
    var r := root.(rcvqsz := root.rcvqsz + cnt);
    if cnt <= 0 then r
    else
      var q := r.(events := r.events + Batch(c, frames));
      if r.wantEfd then q.(efd := r.efd + 1, wantEfd := false) else q
  }

  /** The account comes out right, with every parsed frame queued, iff that value was 0. */
  lemma CountMustStartAtZero(root: Root, c: nat, frames: seq<Frame>, junk: int)
    requires root.rcvqsz == |root.events|
    ensures var q := ReadRootFrom(root, c, frames, junk);
            q.rcvqsz == |q.events| && q.events == root.events + Batch(c, frames) <==> junk == 0
    ensures ReadRootFrom(root, c, frames, 0) == ReadRoot(root, c, frames)
  {
    FromBatch(frames, c, c);
    if |frames| != 0 && junk + |frames| <= 0 {
      assert |root.events + Batch(c, frames)| != |root.events|;
    }
  }

  lemma {:induction false} BulkVerdicts(s: State, on: bool, n: nat)
    requires Wired(s) && n <= |s.conns|
    ensures forall c :: 0 <= c < |s.conns| ==>
              && Bulk(s, on, n).conns[c].verdict == (if c < n then on else s.conns[c].verdict)
              && Bulk(s, on, n).conns[c].parsed == s.conns[c].parsed
  {
    if n != 0 {
      BulkVerdicts(s, on, n - 1);
    }
  }

  lemma DecideAllFlow(s: State, on: bool)
    requires Wired(s) && InboundOk(s) && SendOk(s.root) && s.root.rcvqsz == |s.root.events|
    requires 0 < s.root.rcvhwm && (if on then s.root.rcvqsz <= s.root.rcvhwm else s.root.rcvhwm <= s.root.rcvqsz)
    ensures FlowOk(DecideAll(s, on))
  {
    BulkVerdicts(Flagged(s, on), on, |s.conns|);
  }

  /** The batch goes behind the queued events, and the parsed frames behind those before. */
  lemma BatchInbound(all: seq<Event>, c: nat, frames: seq<Frame>, d: nat)
    ensures From(all + Batch(c, frames), d) == if d == c then From(all, d) + frames else From(all, d)
  {
    FromBatch(frames, c, d);
    FromConcat(all, Batch(c, frames), d);
  }

  lemma ReadInbound(s: State, c: nat, frames: seq<Frame>, t: State)
    requires InboundOk(s) && c < |s.conns|
    requires t.conns == s.conns[c := s.conns[c].(parsed := s.conns[c].parsed + frames)]
    requires t.root.taken == s.root.taken && t.root.events == s.root.events + Batch(c, frames)
    ensures InboundOk(t)
  {
    var all := s.root.taken + s.root.events;
    assert t.root.taken + t.root.events == all + Batch(c, frames);
    forall d: nat
      ensures From(all + Batch(c, frames), d) == if d < |t.conns| then t.conns[d].parsed else []
    {
      assert From(all, d) == if d < |s.conns| then s.conns[d].parsed else [];
      BatchInbound(all, c, frames, d);
    }
  }

  lemma ReadFlow(s: State, c: nat, frames: seq<Frame>)
    requires FlowOk(s) && c < |s.conns|
    ensures FlowOk(ReadStep(s, c, frames))
  {
    var q := ReadRoot(s.root, c, frames);
    var t := SetConn(s, c, s.conns[c].(parsed := s.conns[c].parsed + frames)).(root := q);
    FromBatch(frames, c, c);
    assert s.root.events + [] == s.root.events;
    ReadInbound(s, c, frames, t);
    if 0 < q.rcvhwm < q.rcvqsz {
      DecideAllFlow(t, false);
    }
  }

  lemma TakeFlow(s: State, u: nat)
    requires FlowOk(s) && u < |s.users|
    ensures FlowOk(TakeEvent(s, u))
  {
    if s.root.events != [] {
      var r := TakeRoot(s.root);
      assert r.taken + r.events == s.root.taken + s.root.events;
      var t := SetUser(s, u, Ready).(root := r);
      if 0 < r.rcvhwm && r.stopRead && r.rcvqsz < r.rcvhwm {
        DecideAllFlow(t, true);
      }
    }
  }

  lemma AddFlow(s: State, thr: nat, incoming: bool)
    requires FlowOk(s) && Enabled(s, AddConn(thr, incoming))
    ensures FlowOk(Apply(s, AddConn(thr, incoming)))
  {
    var t := Apply(s, AddConn(thr, incoming));
    forall d: nat
      ensures From(t.root.taken + t.root.events, d) == if d < |t.conns| then t.conns[d].parsed else []
    {
      assert From(s.root.taken + s.root.events, d) == if d < |s.conns| then s.conns[d].parsed else [];
    }
  }

  /** t differs from s in nothing that matters to the receiving side. */
  ghost predicate SameFlow(s: State, t: State) {
    && Wired(t) && |t.conns| == |s.conns| && SendOk(t.root)
    && (forall c :: 0 <= c < |s.conns| ==>
          t.conns[c].verdict == s.conns[c].verdict && t.conns[c].parsed == s.conns[c].parsed)
    && t.root.taken == s.root.taken && t.root.events == s.root.events && t.root.decided == s.root.decided
    && t.root.rcvqsz == s.root.rcvqsz && t.root.rcvhwm == s.root.rcvhwm && t.root.stopRead == s.root.stopRead
  }

  lemma RestFlow(s: State, t: State)
    requires FlowOk(s) && SameFlow(s, t)
    ensures FlowOk(t)
  {
    forall d: nat
      ensures From(t.root.taken + t.root.events, d) == if d < |t.conns| then t.conns[d].parsed else []
    {
      assert From(s.root.taken + s.root.events, d) == if d < |s.conns| then s.conns[d].parsed else [];
    }
  }

  predicate WorkerStep(step: Step) {
    step.AttachConn? || step.Swap? || step.Pop? || step.Exec? || step.ScheduleHalt? || step.Close?
  }

  predicate WriteStep(step: Step) {
    step.WriteEnter? || step.WriteTest? || step.WriteSome? || step.WriteAgain?
    || step.WriteAccount? || step.WriteWake? || step.WriteStop?
  }

  predicate TakeStep(s: State, step: Step) {
    step.GetWoken? || (step.GetEnter? && s.root.events != [])
  }

  lemma WorkerStepFlow(s: State, step: Step)
    requires FlowOk(s) && Enabled(s, step) && WorkerStep(step)
    ensures FlowOk(Apply(s, step))
  {
    RestFlow(s, Apply(s, step));
  }

  lemma WriteListFlow(s: State, step: Step)
    requires FlowOk(s) && Enabled(s, step) && (step.WriteTest? || step.WriteSome? || step.WriteAgain?)
    ensures FlowOk(Apply(s, step))
  {
    RestFlow(s, Apply(s, step));
  }

  lemma WriteEndFlow(s: State, step: Step)
    requires FlowOk(s) && Enabled(s, step)
    requires step.WriteEnter? || step.WriteAccount? || step.WriteWake? || step.WriteStop?
    ensures FlowOk(Apply(s, step))
  {
    RestFlow(s, Apply(s, step));
  }

  lemma UserStepFlow(s: State, step: Step)
    requires FlowOk(s) && Enabled(s, step) && !WorkerStep(step) && !WriteStep(step)
    requires !TakeStep(s, step) && !step.AddConn? && !step.Read?
    ensures FlowOk(Apply(s, step))
  {
    RestFlow(s, Apply(s, step));
  }

  lemma FlowStep(s: State, step: Step)
    requires FlowOk(s) && Enabled(s, step)
    ensures FlowOk(Apply(s, step))
  {
    if WorkerStep(step) {
      WorkerStepFlow(s, step);
    } else if step.WriteTest? || step.WriteSome? || step.WriteAgain? {
      WriteListFlow(s, step);
    } else if WriteStep(step) {
      WriteEndFlow(s, step);
    } else if TakeStep(s, step) {
      TakeFlow(s, step.u);
    } else if step.AddConn? {
      AddFlow(s, step.thr, step.incoming);
    } else if step.Read? {
      ReadFlow(s, step.c, step.frames);
    } else {
      UserStepFlow(s, step);
    }
  }

  lemma {:induction false} FlowRun(s: State, steps: seq<Step>)
    requires FlowOk(s) && Valid(s, steps)
    ensures FlowOk(Run(s, steps))
    decreases |steps|
  {
    if steps != [] {
      FlowStep(s, steps[0]);
      FlowRun(Apply(s, steps[0]), steps[1..]);
    }
  }
}
