/** The sending side where the code falls short of its intent: which step loses frames, which
    strands them, and which puts a sender to sleep for good. */
module Senders {
  import opened Machine
  import opened Invariant
  import opened Connections
  import opened Preservation
  import opened Flow

  // ---- one connection's lists -----------------------------------------------------------

  /** A connection's list, its handler's, whether the token is held, and the history. */
  datatype Lists = Lists(ol: OutList, local: OutList, writing: bool, lost: nat)

  function ListsOf(s: State, c: nat): Lists
    requires c < |s.conns| && s.conns[c].thr < |s.workers|
  {
    Lists(s.conns[c].ol, Local(s.workers[s.conns[c].thr], c), s.conns[c].writing, s.conns[c].lost)
  }

  /** The step is one of the given connection's. */
  predicate Sends(s: State, step: Step, c: nat) {
    step.SendInsert? && step.u < |s.users| && s.users[step.u].Insert? && s.users[step.u].c == c
  }

  predicate Handles(s: State, step: Step, c: nat) {
    (step.WriteTest? || step.WriteSome? || step.WriteAgain? || step.WriteStop?)
    && step.w < |s.workers| && !s.workers[step.w].hand.Idle? && s.workers[step.w].hand.c == c
  }

  /** EAGAIN found frames that were sent in the meantime. */
  predicate RacingMerge(s: State, step: Step, c: nat)
    requires c < |s.conns|
  {
    Handles(s, step, c) && step.WriteAgain? && s.conns[c].ol.chain != []
  }

  /** Every effect a step can have on the lists of connection c. */
  predicate ListsNext(s: State, step: Step, c: nat, x: Lists, y: Lists) {
    if Sends(s, step, c) then
      var f := s.users[step.u].f;
      y == Lists(Append(x.ol, f), x.local, true, x.lost + Unlinked(x.ol, OutList([f], 0)))
    else if !Handles(s, step, c) then y == x
    else
      match step
      case WriteTest(_) => y == if x.ol.chain == [] then x else x.(ol := EmptyList, local := x.ol)
      case WriteSome(_, k) => k <= |x.local.chain| && y == x.(local := Drop(x.local, k))
      case WriteAgain(_) =>
        x.local.chain != [] && x.writing
        && y == x.(ol := MergeBack(x.local, x.ol), local := EmptyList,
                   lost := x.lost + if x.ol.chain == [] then 0 else Unlinked(x.local, x.ol))
      case WriteStop(_) => y == x.(writing := false) && x.local == EmptyList
      case _ => false
  }

  lemma EmptyLists(s: State, w: nat, c: nat)
    requires Enabled(s, WriteTest(w)) && c < |s.conns| && s.conns[c].thr == w && s.workers[w].hand.c == c
    requires s.conns[c].ol.chain == []
    ensures Wired(Apply(s, WriteTest(w))) && c < |Apply(s, WriteTest(w)).conns|
    ensures ListsOf(Apply(s, WriteTest(w)), c) == ListsOf(s, c)
  {
  }

  lemma FullLists(s: State, w: nat, c: nat)
    requires Enabled(s, WriteTest(w)) && c < |s.conns| && s.conns[c].thr == w && s.workers[w].hand.c == c
    requires s.conns[c].ol.chain != []
    ensures Wired(Apply(s, WriteTest(w))) && c < |Apply(s, WriteTest(w)).conns|
    ensures ListsOf(Apply(s, WriteTest(w)), c) == ListsOf(s, c).(ol := EmptyList, local := s.conns[c].ol)
  {
  }

  lemma StopLists(s: State, w: nat, c: nat)
    requires Enabled(s, WriteStop(w)) && c < |s.conns| && s.conns[c].thr == w && s.workers[w].hand.c == c
    ensures Wired(Apply(s, WriteStop(w))) && c < |Apply(s, WriteStop(w)).conns|
    ensures ListsNext(s, WriteStop(w), c, ListsOf(s, c), ListsOf(Apply(s, WriteStop(w)), c))
  {
    var t := Apply(s, WriteStop(w));
    assert t.conns == s.conns[c := s.conns[c].(wio := false, writing := false)];
    assert t.workers == s.workers[w := s.workers[w].(hand := Idle)];
  }

  lemma WriteLists(s: State, step: Step, c: nat)
    requires Enabled(s, step) && (step.WriteSome? || step.WriteAgain?) && Handles(s, step, c)
    requires c < |s.conns| && s.conns[c].thr == step.w && s.conns[c].writing && s.workers[step.w].hand.local.chain != []
    ensures Wired(Apply(s, step)) && c < |Apply(s, step).conns|
    ensures ListsNext(s, step, c, ListsOf(s, c), ListsOf(Apply(s, step), c))
  {
  }

  lemma HandleLists(s: State, step: Step, c: nat)
    requires Core(s) && Enabled(s, step) && c < |s.conns| && Handles(s, step, c)
    ensures Wired(Apply(s, step)) && c < |Apply(s, step).conns|
    ensures ListsNext(s, step, c, ListsOf(s, c), ListsOf(Apply(s, step), c))
  {
    HandlerContext(s, step.w);
    if step.WriteSome? || step.WriteAgain? {
      WriteLists(s, step, c);
    } else if step.WriteTest? {
      if s.conns[c].ol.chain == [] {
        EmptyLists(s, step.w, c);
      } else {
        FullLists(s, step.w, c);
      }
    } else {
      StopLists(s, step.w, c);
    }
  }

  /** Handler steps of other connections, and those that leave every list alone. */
  lemma OtherHandleLists(s: State, step: Step, c: nat)
    requires Enabled(s, step) && c < |s.conns| && !Handles(s, step, c)
    requires step.WriteTest? || step.WriteSome? || step.WriteAgain? || step.WriteStop?
    ensures Wired(Apply(s, step)) && c < |Apply(s, step).conns|
    ensures ListsOf(Apply(s, step), c) == ListsOf(s, c)
  {
    var w := step.w;
    assert s.workers[w].hand.c != c;
  }

  lemma QuietHandleLists(s: State, step: Step, c: nat)
    requires Enabled(s, step) && c < |s.conns| && (step.WriteEnter? || step.WriteAccount? || step.WriteWake?)
    ensures Wired(Apply(s, step)) && c < |Apply(s, step).conns|
    ensures ListsOf(Apply(s, step), c) == ListsOf(s, c)
  {
  }

  lemma ExecLists(s: State, w: nat, c: nat)
    requires Enabled(s, Exec(w)) && c < |s.conns|
    ensures Wired(Apply(s, Exec(w))) && c < |Apply(s, Exec(w)).conns|
    ensures ListsOf(Apply(s, Exec(w)), c) == ListsOf(s, c)
  {
    var t := s.workers[w].cur[0];
    assert Execute(s.conns[t.c], t).thr == s.conns[t.c].thr;
  }

  lemma CloseLists(s: State, d: nat, c: nat)
    requires Enabled(s, Close(d)) && c < |s.conns|
    ensures Wired(Apply(s, Close(d))) && c < |Apply(s, Close(d)).conns|
    ensures ListsOf(Apply(s, Close(d)), c) == ListsOf(s, c)
  {
  }

  lemma AttachLists(s: State, d: nat, c: nat)
    requires Enabled(s, AttachConn(d)) && c < |s.conns|
    ensures Wired(Apply(s, AttachConn(d))) && c < |Apply(s, AttachConn(d)).conns|
    ensures ListsOf(Apply(s, AttachConn(d)), c) == ListsOf(s, c)
  {
  }

  lemma QueueLists(s: State, step: Step, c: nat)
    requires Enabled(s, step) && c < |s.conns| && (step.Swap? || step.Pop? || step.ScheduleHalt? || step.AddConn?)
    ensures Wired(Apply(s, step)) && c < |Apply(s, step).conns|
    ensures ListsOf(Apply(s, step), c) == ListsOf(s, c)
  {
  }

  lemma OwnInsertLists(s: State, u: nat, c: nat, f: Frame)
    requires Wired(s) && u < |s.users| && c < |s.conns| && InsertStep(s, u, c, f).fault == NoFault
    ensures var t := InsertStep(s, u, c, f);
            && Wired(t) && c < |t.conns| && s.fault == NoFault
            && var x := ListsOf(s, c);
               ListsOf(t, c) == Lists(Append(x.ol, f), x.local, true, x.lost + Unlinked(x.ol, OutList([f], 0)))
  {
  }

  lemma OtherInsertLists(s: State, u: nat, d: nat, f: Frame, c: nat)
    requires Wired(s) && u < |s.users| && c < |s.conns| && d < |s.conns| && c != d
    ensures var t := InsertStep(s, u, d, f);
            Wired(t) && c < |t.conns| && ListsOf(t, c) == ListsOf(s, c)
  {
  }

  lemma SendLists(s: State, u: nat, c: nat)
    requires Core(s) && Enabled(s, SendInsert(u)) && c < |s.conns|
    ensures Wired(Apply(s, SendInsert(u))) && c < |Apply(s, SendInsert(u)).conns|
    ensures ListsNext(s, SendInsert(u), c, ListsOf(s, c), ListsOf(Apply(s, SendInsert(u)), c))
  {
    var Insert(d, f) := s.users[u];
    if c == d {
      InsertGoes(s, u);
      OwnInsertLists(s, u, c, f);
    } else {
      OtherInsertLists(s, u, d, f, c);
    }
  }

  lemma DecideLists(s: State, on: bool, c: nat)
    requires Wired(s) && c < |s.conns|
    ensures Wired(DecideAll(s, on)) && ListsOf(DecideAll(s, on), c) == ListsOf(s, c)
  {
    BulkFrame(Flagged(s, on), on, |s.conns|);
    BulkConns(Flagged(s, on), on, |s.conns|, c);
  }

  lemma ReadLists(s: State, d: nat, frames: seq<Frame>, c: nat)
    requires Wired(s) && d < |s.conns| && c < |s.conns|
    ensures Wired(ReadStep(s, d, frames)) && c < |ReadStep(s, d, frames).conns|
    ensures ListsOf(ReadStep(s, d, frames), c) == ListsOf(s, c)
  {
    DecideLists(SetConn(s, d, s.conns[d].(parsed := s.conns[d].parsed + frames)).(root := ReadRoot(s.root, d, frames)),
                false, c);
  }

  lemma TakeLists(s: State, u: nat, c: nat)
    requires Wired(s) && u < |s.users| && c < |s.conns|
    ensures Wired(TakeEvent(s, u)) && c < |TakeEvent(s, u).conns|
    ensures ListsOf(TakeEvent(s, u), c) == ListsOf(s, c)
  {
    if s.root.events != [] {
      DecideLists(SetUser(s, u, Ready).(root := TakeRoot(s.root)), true, c);
    }
  }

  lemma UserLists(s: State, step: Step, c: nat)
    requires Enabled(s, step) && c < |s.conns|
    requires !WorkerStep(step) && !WriteStep(step) && !TakeStep(s, step)
    requires !step.AddConn? && !step.Read? && !step.SendInsert?
    ensures Wired(Apply(s, step)) && c < |Apply(s, step).conns|
    ensures ListsOf(Apply(s, step), c) == ListsOf(s, c)
  {
  }

  lemma ListsStep(s: State, step: Step, c: nat)
    requires Core(s) && Enabled(s, step) && c < |s.conns|
    ensures Wired(Apply(s, step)) && c < |Apply(s, step).conns|
    ensures ListsNext(s, step, c, ListsOf(s, c), ListsOf(Apply(s, step), c))
  {
    if Handles(s, step, c) {
      HandleLists(s, step, c);
    } else if step.WriteEnter? || step.WriteAccount? || step.WriteWake? {
      QuietHandleLists(s, step, c);
    } else if WriteStep(step) {
      OtherHandleLists(s, step, c);
    } else if step.Exec? {
      ExecLists(s, step.w, c);
    } else if step.Close? {
      CloseLists(s, step.c, c);
    } else if step.AttachConn? {
      AttachLists(s, step.c, c);
    } else if WorkerStep(step) || step.AddConn? {
      QueueLists(s, step, c);
    } else if step.SendInsert? {
      SendLists(s, step.u, c);
    } else if step.Read? {
      ReadLists(s, step.c, step.frames, c);
    } else if TakeStep(s, step) {
      TakeLists(s, step.u, c);
    } else {
      UserLists(s, step, c);
    }
  }

  // ---- frames lost ------------------------------------------------------------------------

  /** Both `last` pointers are right. */
  predicate Clean(x: Lists) {
    Intact(x.ol) && Intact(x.local)
  }

  /** From clean lists, a step keeps them clean and loses nothing unless it is a merge that
      finds newly sent frames; that one always leaves a stale `last` pointer behind. */
  lemma CleanExactly(s: State, step: Step, c: nat, y: Lists)
    requires c < |s.conns| && Wired(s)
    requires Clean(ListsOf(s, c)) && ListsNext(s, step, c, ListsOf(s, c), y)
    ensures Clean(y) <==> !RacingMerge(s, step, c)
    ensures y.lost == s.conns[c].lost
  {
  }

  /** The step links something behind a `last` pointer that is not the end of its list. */
  predicate LinksAstray(s: State, step: Step, c: nat)
    requires c < |s.conns| && s.conns[c].thr < |s.workers|
  {
    var x := ListsOf(s, c);
    (Sends(s, step, c) && x.ol.chain != [] && !Intact(x.ol)) || (RacingMerge(s, step, c) && !Intact(x.local))
  }

  /** A connection loses frames exactly when something is linked astray. */
  lemma LossExactly(s: State, step: Step, c: nat, y: Lists)
    requires c < |s.conns| && Wired(s)
    requires ListsNext(s, step, c, ListsOf(s, c), y)
    ensures s.conns[c].lost <= y.lost && (s.conns[c].lost < y.lost <==> LinksAstray(s, step, c))
  {
  }

  predicate NeverAstray(s: State, steps: seq<Step>, c: nat)
    requires Valid(s, steps)
    decreases |steps|
  {
    steps == []
    || (!(c < |s.conns| && s.conns[c].thr < |s.workers| && LinksAstray(s, steps[0], c))
        && NeverAstray(Apply(s, steps[0]), steps[1..], c))
  }

  function LostOf(s: State, c: nat): nat {
    if c < |s.conns| then s.conns[c].lost else 0
  }

  /** Over a run a connection loses frames iff some step of it links astray. */
  lemma {:induction false} LostExactly(s: State, steps: seq<Step>, c: nat)
    requires Core(s) && Valid(s, steps)
    ensures LostOf(s, c) <= LostOf(Run(s, steps), c)
    ensures LostOf(Run(s, steps), c) == LostOf(s, c) <==> NeverAstray(s, steps, c)
    decreases |steps|
  {
    if steps != [] {
      var t := Apply(s, steps[0]);
      CoreStep(s, steps[0]);
      if c < |s.conns| {
        ListsStep(s, steps[0], c);
        LossExactly(s, steps[0], c, ListsOf(t, c));
      } else if c < |t.conns| {
        assert steps[0].AddConn?;
        NewConnClean(s, steps[0]);
      }
      LostExactly(t, steps[1..], c);
    }
  }

  predicate NoRacingMerge(s: State, steps: seq<Step>, c: nat)
    requires Valid(s, steps)
    decreases |steps|
  {
    steps == [] || (!(c < |s.conns| && RacingMerge(s, steps[0], c)) && NoRacingMerge(Apply(s, steps[0]), steps[1..], c))
  }

  /** In a run in which EAGAIN never finds new frames both pointers stay right, so no step links
      astray. */
  lemma {:induction false} NothingLost(s: State, steps: seq<Step>, c: nat)
    requires Core(s) && Valid(s, steps) && NoRacingMerge(s, steps, c)
    requires c < |s.conns| ==> Clean(ListsOf(s, c))
    ensures NeverAstray(s, steps, c)
    decreases |steps|
  {
    if steps != [] {
      var t := Apply(s, steps[0]);
      CoreStep(s, steps[0]);
      if c < |s.conns| {
        ListsStep(s, steps[0], c);
        CleanExactly(s, steps[0], c, ListsOf(t, c));
      } else if c < |t.conns| {
        assert steps[0].AddConn?;
        NewConnClean(s, steps[0]);
      }
      NothingLost(t, steps[1..], c);
    }
  }

  lemma NewConnClean(s: State, step: Step)
    requires Core(s) && Enabled(s, step) && step.AddConn?
    ensures Wired(Apply(s, step)) && |Apply(s, step).conns| == |s.conns| + 1
    ensures ListsOf(Apply(s, step), |s.conns|) == Lists(EmptyList, EmptyList, false, 0)
  {
    assert Owns(s.workers[step.thr], step.thr, s.conns);
  }

  // ---- frames stranded ----------------------------------------------------------------------

  /** Frames wait, and nothing will look at them. */
  predicate Stranded(x: Lists) {
    x.ol.chain != [] && !x.writing
  }

  /** The only step that strands a connection is the reset of `writing` after a send came in
      between the test for empty and the reset; and the next send picks the frames up. */
  lemma StrandedExactly(s: State, step: Step, c: nat, y: Lists)
    requires c < |s.conns| && Wired(s)
    requires ListsNext(s, step, c, ListsOf(s, c), y)
    ensures !Stranded(ListsOf(s, c)) ==>
              (Stranded(y) <==> Handles(s, step, c) && step.WriteStop? && s.conns[c].ol.chain != [])
    ensures Sends(s, step, c) ==> !Stranded(y)
  {
  }

  /** No reset of connection c comes after a send that followed the test for empty, as if the
      test and the reset were one critical section. */
  predicate ResetsEmpty(s: State, steps: seq<Step>, c: nat)
    requires Valid(s, steps)
    decreases |steps|
  {
    steps == [] ||
      (!(c < |s.conns| && Handles(s, steps[0], c) && steps[0].WriteStop? && s.conns[c].ol.chain != [])
       && ResetsEmpty(Apply(s, steps[0]), steps[1..], c))
  }

  /** In every state of the run, frames that wait have the token. */
  predicate AlwaysAttended(s: State, steps: seq<Step>, c: nat)
    requires Valid(s, steps)
    decreases |steps|
  {
    && (c < |s.conns| && s.conns[c].ol.chain != [] ==> s.conns[c].writing)
    && (steps == [] || AlwaysAttended(Apply(s, steps[0]), steps[1..], c))
  }

  lemma {:induction false} StrandedNever(s: State, steps: seq<Step>, c: nat)
    requires Core(s) && Valid(s, steps)
    requires c < |s.conns| && s.conns[c].ol.chain != [] ==> s.conns[c].writing
    ensures AlwaysAttended(s, steps, c) <==> ResetsEmpty(s, steps, c)
    decreases |steps|
  {
    if steps != [] {
      var t := Apply(s, steps[0]);
      CoreStep(s, steps[0]);
      if c < |s.conns| {
        ListsStep(s, steps[0], c);
        StrandedExactly(s, steps[0], c, ListsOf(t, c));
      } else if c < |t.conns| {
        assert steps[0].AddConn?;
        NewConnClean(s, steps[0]);
      }
      if c < |t.conns| && t.conns[c].ol.chain != [] && !t.conns[c].writing {
        assert !AlwaysAttended(t, steps[1..], c);
      } else {
        StrandedNever(t, steps[1..], c);
      }
    }
  }
}
