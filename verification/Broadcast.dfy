/** Sending one frame to many connections (src/core/global.c:298-322): the root's lock is held
    from the first send to the last, so of the other threads only steps that do without it come
    in between. */
module Broadcast {
  import opened Machine
  import opened Slots
  import opened SlotArrays
  import opened Net
  import opened Flow
  import opened Preservation
  import opened Routines

  const DIST_IN: int := 1
  const DIST_OUT: int := 2
  const EAGAIN: int := 11

  /** What one send comes to: the frame is queued, or EAGAIN, or -1 with EINVAL. */
  datatype Answer = Sent | Full | Dead

  /** The value the loop sees. A send that succeeds falls off the end of its function
      (src/core/global.c:292); `junk` is what the caller then finds. */
  function Code(answer: Answer, junk: int): int {
    match answer
    case Sent => junk
    case Full => EAGAIN
    case Dead => -1
  }

  predicate Bit(flags: int, bit: int)
    requires bit > 0
  {
    flags / bit % 2 == 1
  }

  /** The test of lines 309-313. */
  predicate Wanted(incoming: bool, dflags: int) {
    dflags == 0 || (Bit(dflags, DIST_IN) && incoming) || (Bit(dflags, DIST_OUT) && !incoming)
  }

  /** The root's table: each connection sits at the slot that is its number. */
  ghost predicate Holds(a: Arr, n: nat) {
    a.last <= |a.mem| && forall i :: 0 <= i < a.last && a.mem[i].Ref? ==> a.mem[i].id == i < n
  }

  /** The connections the loop sends to from cursor i on, in slot order. */
  function Targets(a: Arr, conns: seq<Conn>, dflags: int, i: int): (r: seq<nat>)
    requires Holds(a, |conns|) && -1 <= i < a.last && (i == -1 || Occupied(a, i))
    ensures forall k :: 0 <= k < |r| ==> r[k] < |conns|
    decreases if i < 0 then 0 else a.last - i
  {
    if i < 0 then [] else Chosen(a, conns, dflags, i) + Targets(a, conns, dflags, Slots.Next(a, i).value)
  }

  /** The connection at slot i, if it is wanted. */
  function Chosen(a: Arr, conns: seq<Conn>, dflags: int, i: nat): (r: seq<nat>)
    requires Holds(a, |conns|) && Occupied(a, i)
    ensures forall k :: 0 <= k < |r| ==> r[k] < |conns|
  {
    if Wanted(conns[i].incoming, dflags) then [i] else []
  }

  /** They are the wanted ones among the connections in the table, each once, in increasing
      order. */
  lemma {:induction false} TargetsAreWanted(a: Arr, conns: seq<Conn>, dflags: int, i: int)
    requires Holds(a, |conns|) && -1 <= i < a.last && (i == -1 || Occupied(a, i))
    ensures forall c: nat :: c in Targets(a, conns, dflags, i) <==>
              0 <= i <= c && Occupied(a, c) && Wanted(conns[c].incoming, dflags)
    ensures Increasing(Targets(a, conns, dflags, i))
    decreases if i < 0 then 0 else a.last - i
  {
    if 0 <= i {
      var j := Slots.Next(a, i).value;
      TargetsAreWanted(a, conns, dflags, j);
      var head, rest := Chosen(a, conns, dflags, i), Targets(a, conns, dflags, j);
      assert forall c: nat :: c in head + rest <==> c in head || c in rest;
      assert forall k :: 0 <= k < |rest| ==> rest[k] in rest;
    }
  }

  /** What the flags mean: 1 is for incoming connections, 2 for outgoing ones, 3 and no flag at all
      for both; other bits do not count, but a flag word of only such bits is for none. */
  predicate Addressed(incoming: bool, dflags: int) {
    dflags == 0 || dflags % 4 == 3 || (dflags % 4 == 1 && incoming) || (dflags % 4 == 2 && !incoming)
  }

  lemma WantedIsAddressed(incoming: bool, dflags: int)
    ensures Wanted(incoming, dflags) <==> Addressed(incoming, dflags)
  {
  }

  /** Exactly the connections that a sequence of slots is to name, in slot order and once each. */
  ghost predicate Recipients(targets: seq<nat>, a: Arr, conns: seq<Conn>, dflags: int)
    requires Holds(a, |conns|)
  {
    && Increasing(targets)
    && forall c: nat :: c in targets <==> Occupied(a, c) && Addressed(conns[c].incoming, dflags)
  }

  lemma TargetsAreRecipients(a: Arr, conns: seq<Conn>, dflags: int)
    requires Holds(a, |conns|)
    ensures Recipients(Targets(a, conns, dflags, Slots.Begin(a).value), a, conns, dflags)
  {
    var i := Slots.Begin(a).value;
    TargetsAreWanted(a, conns, dflags, i);
    forall c: nat | Occupied(a, c)
      ensures 0 <= i <= c && (Wanted(conns[c].incoming, dflags) <==> Addressed(conns[c].incoming, dflags))
    {
      WantedIsAddressed(conns[c].incoming, dflags);
    }
  }

  /** How many of the first n answers are this one. */
  function Count(answers: seq<Answer>, n: nat, what: Answer): (k: nat)
    requires n <= |answers|
    ensures k <= n
  {
    if n == 0 then 0 else Count(answers, n - 1, what) + if answers[n - 1] == what then 1 else 0
  }

  lemma {:induction false} CountBefore(answers: seq<Answer>, last: Answer, n: nat, what: Answer)
    requires n <= |answers|
    ensures Count(answers + [last], n, what) == Count(answers, n, what)
  {
    if n != 0 {
      CountBefore(answers, last, n - 1, what);
    }
  }

  /** The i-th connection sent to is open. */
  predicate Live(answers: seq<Answer>, i: nat)
    requires i < |answers|
  {
    answers[i] != Dead
  }

  /** A live connection is refused iff the mark, enabled, is reached by then. */
  ghost predicate Hysteresis(answers: seq<Answer>, hwm: int, qsz: int) {
    forall i {:trigger Live(answers, i)} :: 0 <= i < |answers| && Live(answers, i) ==>
      (answers[i] == Full <==> 0 < hwm <= qsz + Count(answers, i, Sent))
  }

  /** How much room there was. */
  function Room(hwm: int, qsz: int): nat {
    if qsz < hwm then hwm - qsz else 0
  }

  /** Exactly the first of the live connections that there is room for take the frame. */
  ghost predicate FirstTaken(answers: seq<Answer>, room: nat) {
    && Count(answers, |answers|, Sent) == Least(|answers| - Count(answers, |answers|, Dead), room)
    && forall i {:trigger Live(answers, i)} :: 0 <= i < |answers| && Live(answers, i) ==>
         (answers[i] == Sent <==> i - Count(answers, i, Dead) < room)
  }

  function Least(x: int, y: int): int {
    if x < y then x else y
  }

  lemma {:induction false} TakenSoFar(answers: seq<Answer>, hwm: int, qsz: int, n: nat)
    requires 0 < hwm && Hysteresis(answers, hwm, qsz) && n <= |answers|
    ensures Count(answers, n, Sent) == Least(n - Count(answers, n, Dead), Room(hwm, qsz))
  {
    if n != 0 {
      TakenSoFar(answers, hwm, qsz, n - 1);
      assert Live(answers, n - 1) <==> answers[n - 1] != Dead;
    }
  }

  /** With an enabled mark, the hysteresis hands the frame to the first min(live, room) live
      connections. */
  lemma FirstOnes(answers: seq<Answer>, hwm: int, qsz: int)
    requires 0 < hwm && Hysteresis(answers, hwm, qsz)
    ensures FirstTaken(answers, Room(hwm, qsz))
  {
    TakenSoFar(answers, hwm, qsz, |answers|);
    forall i | 0 <= i < |answers| && Live(answers, i)
      ensures answers[i] == Sent <==> i - Count(answers, i, Dead) < Room(hwm, qsz)
    {
      TakenSoFar(answers, hwm, qsz, i);
    }
  }

  // ---- what a broadcast does, step by step --------------------------------------------------

  /** Steps that take the root's lock. */
  predicate Locks(step: Step) {
    step.AddConn? || step.Read? || step.WriteAccount? || step.SendWait? || step.SendCount?
    || step.GetEnter? || step.GetWoken?
  }

  /** The part of a run that is user u's own. */
  function Mine(steps: seq<Step>, u: nat): seq<Step> {
    if steps == [] then []
    else
      var n := |steps| - 1;
      Mine(steps[..n], u) + if By(steps[n], u) then [steps[n]] else []
  }

  lemma MineSnoc(steps: seq<Step>, step: Step, u: nat)
    ensures Mine(steps + [step], u) == Mine(steps, u) + if By(step, u) then [step] else []
  {
    assert (steps + [step])[..|steps|] == steps;
  }

  /** The steps of one send: it ends at its first test, or goes all the way. */
  function Call(u: nat, f: Frame, c: nat, answer: Answer): seq<Step> {
    [SendEnter(u, c, f, true)] + if answer == Sent then [SendGate(u), SendInsert(u), SendCount(u)] else []
  }

  function Calls(u: nat, f: Frame, targets: seq<nat>, answers: seq<Answer>): seq<Step>
    requires |answers| <= |targets|
  {
    if answers == [] then []
    else
      var n := |answers| - 1;
      Calls(u, f, targets, answers[..n]) + Call(u, f, targets[n], answers[n])
  }

  /** What stays while the root's lock is held by user u. */
  ghost predicate Quiet(s: State, t: State, u: nat) {
    && t.root.sndqsz == s.root.sndqsz && t.root.stopWrite == s.root.stopWrite && t.root.sndhwm == s.root.sndhwm
    && Aged(s.conns, t.conns)
    && u < |s.users| == |t.users| && t.users[u] == s.users[u]
  }

  /** The same connections, later: closed ones stay closed. */
  ghost predicate Aged(conns: seq<Conn>, conns': seq<Conn>) {
    && |conns'| == |conns|
    && forall c :: 0 <= c < |conns| ==>
         conns'[c].incoming == conns[c].incoming && (conns[c].zombie ==> conns'[c].zombie)
  }

  lemma QuietWorker(s: State, step: Step, u: nat)
    requires Enabled(s, step) && WorkerStep(step) && u < |s.users|
    ensures Quiet(s, Apply(s, step), u)
  {
  }

  lemma QuietWrite(s: State, step: Step, u: nat)
    requires Enabled(s, step) && !Locks(step) && WriteStep(step) && u < |s.users| && !s.users[u].Blocked?
    ensures Quiet(s, Apply(s, step), u)
  {
  }

  lemma QuietStep(s: State, step: Step, u: nat)
    requires Enabled(s, step) && !Locks(step) && !By(step, u) && u < |s.users| && !s.users[u].Blocked?
    ensures Quiet(s, Apply(s, step), u)
  {
    if WorkerStep(step) {
      QuietWorker(s, step, u);
    } else if WriteStep(step) {
      QuietWrite(s, step, u);
    }
  }

  /** The steps of a script that can happen when their turn comes, of other threads than user u and
      without the root's lock. */
  function Unlocked(s: State, script: seq<Step>, u: nat): seq<Step>
    decreases |script|
  {
    if script == [] then []
    else if Enabled(s, script[0]) && !Locks(script[0]) && !By(script[0], u) then
      [script[0]] + Unlocked(Apply(s, script[0]), script[1..], u)
    else Unlocked(s, script[1..], u)
  }

  /** One more step of the script, of what is to come to `all` in the end. */
  lemma UnlockedOn(now: seq<Step>, s: State, script: seq<Step>, i: nat, u: nat, all: seq<Step>)
    requires i < |script| && now + Unlocked(s, script[i..], u) == all
    ensures if Enabled(s, script[i]) && !Locks(script[i]) && !By(script[i], u)
            then (now + [script[i]]) + Unlocked(Apply(s, script[i]), script[i + 1..], u) == all
            else now + Unlocked(s, script[i + 1..], u) == all
  {
    assert script[i..][1..] == script[i + 1..];
  }

  /** One such step, if it can happen. */
  method TryStep(net: Net, u: nat, step: Step, ghost s: State, ghost steps: seq<Step>) returns (ghost steps': seq<Step>)
    requires Ran(s, steps, net.View()) && u < |net.users| && !net.users[u].Blocked?
    modifies net
    ensures Ran(s, steps', net.View()) && Quiet(old(net.View()), net.View(), u) && Mine(steps', u) == Mine(steps, u)
    ensures if Enabled(old(net.View()), step) && !Locks(step) && !By(step, u)
            then net.View() == Apply(old(net.View()), step) && steps' == steps + [step]
            else net.View() == old(net.View()) && steps' == steps
  {
    steps' := steps;
    var can := net.CanPerform(step);
    if can && !Locks(step) && !By(step, u) {
      QuietStep(net.View(), step, u);
      MineSnoc(steps', step, u);
      steps' := Take(net, step, s, steps');
    }
  }

  /** Whatever the other threads do without the root's lock. */
  method Interrupt(net: Net, u: nat, script: seq<Step>, ghost s: State, ghost steps: seq<Step>)
    returns (ghost steps': seq<Step>)
    requires Ran(s, steps, net.View()) && u < |net.users| && !net.users[u].Blocked?
    modifies net
    ensures Ran(s, steps', net.View()) && Quiet(old(net.View()), net.View(), u)
    ensures steps' == steps + Unlocked(old(net.View()), script, u) && Mine(steps', u) == Mine(steps, u)
  {
    steps' := steps;
    var i := 0;
    ghost var start, all := net.View(), steps + Unlocked(net.View(), script, u);
    assert script[0..] == script;
    while i < |script|
      invariant i <= |script| && Ran(s, steps', net.View()) && Quiet(start, net.View(), u)
      invariant steps' + Unlocked(net.View(), script[i..], u) == all && Mine(steps', u) == Mine(steps, u)
    {
      UnlockedOn(steps', net.View(), script, i, u, all);
      steps' := TryStep(net, u, script[i], s, steps');
      i := i + 1;
    }
    assert script[i..] == [];
  }

  /** User u is where a send takes this step, and no wait is due. */
  predicate UserReady(s: State, step: Step, u: nat)
    requires u < |s.users|
  {
    match s.users[u]
    case Ready => step.SendEnter? && step.to < |s.conns| && !s.conns[step.to].zombie && !s.root.stopWrite
    case Gate(_, _, _) => step.SendGate? && !s.root.stopWrite
    case Insert(c, _) => step.SendInsert? && c < |s.conns|
    case Count => step.SendCount?
    case _ => false
  }

  /** Where that step leaves it. */
  function UserNext(user: User, step: Step): User {
    match user
    case Ready => if step.SendEnter? then Gate(step.to, step.f, step.dontwait) else user
    case Gate(c, f, _) => Insert(c, f)
    case Insert(_, _) => User.Count
    case _ => Ready
  }

  /** From state s to state t user u moved on to `user`, and `counted` frames were counted. */
  ghost predicate Moved(s: State, t: State, u: nat, user: User, counted: nat) {
    && Aged(s.conns, t.conns) && SendOk(t.root) && t.fault == NoFault
    && u < |t.users| && t.users[u] == user
    && t.root.sndhwm == s.root.sndhwm && t.root.sndqsz == s.root.sndqsz + counted
  }

  lemma MovesOn(s: State, before: State, step: Step, u: nat)
    requires Quiet(s, before, u) && SendOk(s.root) && Core(before) && Enabled(before, step) && By(step, u)
    requires UserReady(before, step, u)
    ensures Moved(s, Apply(before, step), u, UserNext(s.users[u], step), if step.SendCount? then 1 else 0)
  {
    if step.SendInsert? {
      InsertGoes(before, u);
    }
  }

  lemma MovedTwice(s: State, m: State, t: State, u: nat, mid: User, user: User, k: nat, n: nat)
    requires Moved(s, m, u, mid, k) && Moved(m, t, u, user, n)
    ensures Moved(s, t, u, user, k + n)
  {
  }

  /** One step of user u, other threads stepping in before it. */
  method Advance(net: Net, u: nat, others: seq<Step>, step: Step, ghost s: State, ghost steps: seq<Step>)
    returns (ghost steps': seq<Step>)
    requires Ran(s, steps, net.View()) && net.fault == NoFault && SendOk(net.RootView())
    requires u < |net.users| && !net.users[u].Blocked? && By(step, u) && !step.SendEnter?
    requires UserReady(net.View(), step, u)
    modifies net
    ensures Ran(s, steps', net.View())
    ensures net.fault == NoFault ==>
              && Moved(old(net.View()), net.View(), u, UserNext(old(net.users)[u], step), if step.SendCount? then 1 else 0)
              && Mine(steps', u) == Mine(steps, u) + [step]
  {
    steps' := Interrupt(net, u, others, s, steps);
    if net.fault == NoFault {
      MineSnoc(steps', step, u);
      CoreRun(s, steps');
      MovesOn(old(net.View()), net.View(), step, u);
      steps' := Take(net, step, s, steps');
    }
  }

  /** The insertion and the counting of a send (src/core/global.c:271-291). */
  method InsertAndCount(net: Net, u: nat, others: nat -> seq<Step>, ghost s: State, ghost steps: seq<Step>)
    returns (ghost steps': seq<Step>)
    requires Ran(s, steps, net.View()) && net.fault == NoFault && SendOk(net.RootView())
    requires u < |net.users| && net.users[u].Insert? && net.users[u].c < |net.conns|
    modifies net
    ensures Ran(s, steps', net.View())
    ensures net.fault == NoFault ==>
              && Moved(old(net.View()), net.View(), u, Ready, 1)
              && Mine(steps', u) == Mine(steps, u) + [SendInsert(u), SendCount(u)]
  {
    steps' := Advance(net, u, others(2), SendInsert(u), s, steps);
    if net.fault == NoFault {
      ghost var inserted := net.View();
      steps' := Advance(net, u, others(3), SendCount(u), s, steps');
      if net.fault == NoFault {
        MovedTwice(old(net.View()), inserted, net.View(), u, User.Count, Ready, 0, 1);
      }
    }
  }

  /** A send with DONWAIT and UNSAFE from its second test on (lines 259-292): with the root's
      lock held it cannot have to wait. */
  method PassInsertCount(net: Net, u: nat, others: nat -> seq<Step>, ghost s: State, ghost steps: seq<Step>)
    returns (ghost steps': seq<Step>)
    requires Ran(s, steps, net.View()) && net.fault == NoFault && SendOk(net.RootView()) && net.writing != STOP_OP
    requires u < |net.users| && net.users[u].Gate? && net.users[u].c < |net.conns|
    modifies net
    ensures Ran(s, steps', net.View())
    ensures net.fault == NoFault ==>
              && Moved(old(net.View()), net.View(), u, Ready, 1)
              && Mine(steps', u) == Mine(steps, u) + [SendGate(u), SendInsert(u), SendCount(u)]
  {
    steps' := Advance(net, u, others(1), SendGate(u), s, steps);
    if net.fault == NoFault {
      ghost var gated := net.View();
      steps' := InsertAndCount(net, u, others, s, steps');
      if net.fault == NoFault {
        MovedTwice(old(net.View()), gated, net.View(), u, gated.users[u], Ready, 0, 1);
      }
    }
  }

  /** What a send comes to while the root's lock is held around it. */
  ghost predicate Answered(was: State, now: State, u: nat, c: nat, answer: Answer) {
    && Moved(was, now, u, Ready, if answer == Sent then 1 else 0) && c < |was.conns|
    && (was.conns[c].zombie ==> answer == Dead) && (answer == Dead ==> now.conns[c].zombie)
    && (answer != Dead ==> (answer == Full <==> was.root.stopWrite))
  }

  /** The answer a send gives at its first test (lines 253-258). */
  function FirstAnswer(s: State, c: nat): Answer
    requires c < |s.conns|
  {
    if s.conns[c].zombie then Dead else if s.root.stopWrite then Full else Sent
  }

  lemma Refused(s: State, before: State, u: nat, c: nat, f: Frame)
    requires Quiet(s, before, u) && SendOk(s.root) && c < |before.conns| && FirstAnswer(before, c) != Sent
    requires s.users[u] == Ready && Enabled(before, SendEnter(u, c, f, true))
    ensures Apply(before, SendEnter(u, c, f, true)) == before && Answered(s, before, u, c, FirstAnswer(before, c))
  {
  }

  lemma Accepted(s: State, before: State, t: State, u: nat, c: nat, f: Frame)
    requires Quiet(s, before, u) && SendOk(s.root) && Core(before) && c < |before.conns| && FirstAnswer(before, c) == Sent
    requires s.users[u] == Ready && Enabled(before, SendEnter(u, c, f, true))
    requires Moved(Apply(before, SendEnter(u, c, f, true)), t, u, Ready, 1)
    ensures Answered(s, t, u, c, Sent)
  {
    MovesOn(s, before, SendEnter(u, c, f, true), u);
    MovedTwice(s, Apply(before, SendEnter(u, c, f, true)), t, u, Gate(c, f, true), Ready, 0, 1);
  }

  /** The first test of a send with DONWAIT (lines 253-258). */
  method TestFirst(net: Net, u: nat, c: nat, f: Frame, others: seq<Step>, ghost s: State, ghost steps: seq<Step>)
    returns (ghost steps': seq<Step>, answer: Answer, ghost before: State)
    requires Ran(s, steps, net.View()) && net.fault == NoFault
    requires u < |net.users| && c < |net.conns| && net.users[u] == Ready
    modifies net
    ensures Ran(s, steps', net.View())
    ensures net.fault == NoFault ==>
              && Quiet(old(net.View()), before, u) && Core(before) && Enabled(before, SendEnter(u, c, f, true))
              && answer == FirstAnswer(before, c) && net.View() == Apply(before, SendEnter(u, c, f, true))
              && Mine(steps', u) == Mine(steps, u) + [SendEnter(u, c, f, true)]
  {
    steps' := Interrupt(net, u, others, s, steps);
    before := net.View();
    answer := if net.conns[c].zombie then Dead else if net.writing == STOP_OP then Full else Sent;
    if net.fault == NoFault {
      MineSnoc(steps', SendEnter(u, c, f, true), u);
      CoreRun(s, steps');
      steps' := Take(net, SendEnter(u, c, f, true), s, steps');
    }
  }

  /** One turn of the loop: fsock_send with DONWAIT and UNSAFE. */
  method SendOne(net: Net, u: nat, c: nat, f: Frame, others: nat -> seq<Step>, ghost s: State, ghost steps: seq<Step>)
    returns (ghost steps': seq<Step>, answer: Answer)
    requires Ran(s, steps, net.View()) && net.fault == NoFault && SendOk(net.RootView())
    requires u < |net.users| && c < |net.conns| && net.users[u] == Ready
    modifies net
    ensures Ran(s, steps', net.View())
    ensures net.fault == NoFault ==>
              && Answered(old(net.View()), net.View(), u, c, answer)
              && Mine(steps', u) == Mine(steps, u) + Call(u, f, c, answer)
  {
    ghost var before;
    steps', answer, before := TestFirst(net, u, c, f, others(0), s, steps);
    if net.fault == NoFault {
      if answer == Sent {
        steps' := PassInsertCount(net, u, others, s, steps');
        if net.fault == NoFault {
          Accepted(old(net.View()), before, net.View(), u, c, f);
        }
      } else {
        Refused(old(net.View()), before, u, c, f);
      }
    }
  }

  // ---- the loop ---------------------------------------------------------------------------

  /** The answers of a broadcast that started with this count and these connections. */
  ghost predicate Replies(conns: seq<Conn>, root: Root, targets: seq<nat>, answers: seq<Answer>, now: State) {
    && |answers| <= |targets| && Aged(conns, now.conns)
    && Hysteresis(answers, root.sndhwm, root.sndqsz)
    && now.root.sndhwm == root.sndhwm && now.root.sndqsz == root.sndqsz + Count(answers, |answers|, Sent)
    && forall i :: 0 <= i < |answers| ==>
         && targets[i] < |conns|
         && (conns[targets[i]].zombie ==> answers[i] == Dead)
         && (answers[i] == Dead ==> now.conns[targets[i]].zombie)
  }

  lemma OneMoreReply(conns: seq<Conn>, root: Root, targets: seq<nat>, answers: seq<Answer>, was: State, now: State,
                     u: nat, c: nat, answer: Answer)
    requires Replies(conns, root, targets, answers, was) && SendOk(was.root) && c < |conns|
    requires Answered(was, now, u, c, answer) && |answers| == |targets|
    ensures Replies(conns, root, targets + [c], answers + [answer], now)
  {
    var all := answers + [answer];
    forall i | 0 <= i <= |answers|
      ensures Count(all, i, Sent) == Count(answers, i, Sent)
    {
      CountBefore(answers, answer, i, Sent);
    }
    forall i | 0 <= i < |all| && Live(all, i)
      ensures all[i] == Full <==> 0 < root.sndhwm <= root.sndqsz + Count(all, i, Sent)
    {
      assert i < |answers| ==> Live(answers, i);
    }
    assert all[|answers|] == answer;
  }

  lemma CallsSnoc(u: nat, f: Frame, targets: seq<nat>, answers: seq<Answer>, c: nat, answer: Answer)
    requires |targets| == |answers|
    ensures Calls(u, f, targets + [c], answers + [answer]) == Calls(u, f, targets, answers) + Call(u, f, c, answer)
  {
    assert (answers + [answer])[..|answers|] == answers;
    SameCalls(u, f, targets, targets + [c], answers);
  }

  lemma {:induction false} SameCalls(u: nat, f: Frame, targets: seq<nat>, more: seq<nat>, answers: seq<Answer>)
    requires |answers| <= |targets| && targets <= more
    ensures Calls(u, f, targets, answers) == Calls(u, f, more, answers)
  {
    if answers != [] {
      SameCalls(u, f, targets, more, answers[..|answers| - 1]);
    }
  }

  /** With STOP_ONERR the loop ends at the first send whose value is not 0. */
  ghost predicate LoopEnds(answers: seq<Answer>, n: nat, stopOnError: bool, junk: nat -> int) {
    && |answers| <= n
    && (stopOnError ==> forall i :: 0 <= i < |answers| - 1 ==> Code(answers[i], junk(i)) == 0)
    && (|answers| < n ==> answers != [] && stopOnError && Code(answers[|answers| - 1], junk(|answers| - 1)) != 0)
  }

  /** If nothing stands in the way of any send, STOP_ONERR lets them all happen iff every
      successful one but the last left a 0 behind. */
  lemma StopsAtJunk(answers: seq<Answer>, n: nat, junk: nat -> int)
    requires LoopEnds(answers, n, true, junk) && forall i :: 0 <= i < |answers| ==> answers[i] == Sent
    ensures |answers| == n <==> forall i :: 0 <= i < n - 1 ==> junk(i) == 0
  {
  }

  /** The caller is between two sends, having sent to `targets` with these answers. */
  ghost predicate Between(s: State, steps: seq<Step>, t: State, u: nat, f: Frame, targets: seq<nat>, answers: seq<Answer>) {
    && t.fault == NoFault && SendOk(t.root) && u < |t.users| && t.users[u] == Ready
    && |targets| == |answers| && Replies(s.conns, s.root, targets, answers, t)
    && Mine(steps, u) == Calls(u, f, targets, answers)
  }

  /** One turn of the loop, at the given slot. */
  method SendTurn(net: Net, table: SlotArray, slot: nat, u: nat, f: Frame, dflags: int, others: nat -> seq<Step>,
                  ghost s: State, ghost steps: seq<Step>, ghost targets: seq<nat>, ghost answers: seq<Answer>)
    returns (ghost steps': seq<Step>, more: seq<Answer>)
    requires Ran(s, steps, net.View()) && Between(s, steps, net.View(), u, f, targets, answers)
    requires table.Valid() && Holds(table.View(), |s.conns|) && Occupied(table.View(), slot)
    modifies net
    ensures Ran(s, steps', net.View())
    ensures net.fault == NoFault ==>
              && |more| <= 1 && Same(table, old(table.View()))
              && Between(s, steps', net.View(), u, f, targets + Chosen(table.View(), s.conns, dflags, slot), answers + more)
  {
    steps', more := steps, [];
    assert table.View().mem[slot].id == slot;
    if Wanted(net.conns[slot].incoming, dflags) {
      ghost var was := net.View();
      var answer;
      steps', answer := SendOne(net, u, slot, f, others, s, steps);
      more := [answer];
      if net.fault == NoFault {
        OneMoreReply(s.conns, s.root, targets, answers, was, net.View(), u, slot, answer);
        CallsSnoc(u, f, targets, answers, slot, answer);
      }
    } else {
      assert targets + [] == targets && answers + [] == answers;
    }
  }

  /** Targets that come later do not matter to the answers so far. */
  lemma RepliesSoFar(s: State, steps: seq<Step>, t: State, u: nat, f: Frame, targets: seq<nat>, more: seq<nat>,
                     answers: seq<Answer>)
    requires Between(s, steps, t, u, f, targets, answers)
    ensures Replies(s.conns, s.root, targets + more, answers, t)
    ensures Mine(steps, u) == Calls(u, f, targets + more, answers)
  {
    SameCalls(u, f, targets, targets + more, answers);
  }

  /** What the loop knows between two turns. */
  ghost predicate GoesOn(answers: seq<Answer>, stopOnError: bool, junk: nat -> int, rc: int) {
    && (stopOnError ==> forall i :: 0 <= i < |answers| ==> Code(answers[i], junk(i)) == 0)
    && rc == LastCode(answers, junk)
  }

  function LastCode(answers: seq<Answer>, junk: nat -> int): int {
    if answers == [] then 0 else Code(answers[|answers| - 1], junk(|answers| - 1))
  }

  /** What the caller gets: 0 if there was nobody to send to, else what the last send came to. With
      STOP_ONERR the sends before the last went through and left a 0 behind, and it ends early only
      at one that did not. */
  ghost predicate Returned(answers: seq<Answer>, n: nat, stopOnError: bool, junk: nat -> int, rc: int) {
    && (answers == [] ==> rc == 0)
    && (answers != [] ==>
          var last := |answers| - 1;
          && (answers[last] == Sent ==> rc == junk(last))
          && (answers[last] == Full ==> rc == 11)
          && (answers[last] == Dead ==> rc == -1))
    && (stopOnError ==> forall i :: 0 <= i < |answers| - 1 ==> answers[i] == Sent && junk(i) == 0)
    && (|answers| < n ==> stopOnError && answers != [] && rc != 0)
  }

  lemma EndsReturned(answers: seq<Answer>, n: nat, stopOnError: bool, junk: nat -> int, rc: int)
    requires LoopEnds(answers, n, stopOnError, junk) && rc == LastCode(answers, junk)
    ensures Returned(answers, n, stopOnError, junk, rc)
  {
  }

  /** What it knows when it breaks off. */
  ghost predicate Stopped(answers: seq<Answer>, stopOnError: bool, junk: nat -> int, rc: int) {
    rc == LastCode(answers, junk) && forall n: nat :: |answers| <= n ==> LoopEnds(answers, n, stopOnError, junk)
  }

  lemma OneMoreCode(answers: seq<Answer>, more: seq<Answer>, stopOnError: bool, junk: nat -> int, rc: int)
    requires GoesOn(answers, stopOnError, junk, rc) && |more| <= 1
    ensures var all, rc' := answers + more, if more == [] then rc else Code(more[0], junk(|answers|));
            if more != [] && stopOnError && rc' != 0 then Stopped(all, stopOnError, junk, rc')
            else GoesOn(all, stopOnError, junk, rc')
  {
    var all := answers + more;
    assert forall i :: 0 <= i < |answers| ==> all[i] == answers[i];
  }

  /** What was sent to and what is to come, seen from slot `index`. */
  ghost predicate OnTheWay(a: Arr, conns: seq<Conn>, dflags: int, done: seq<nat>, index: int, all: seq<nat>) {
    && Holds(a, |conns|) && -1 <= index < a.last && (index == -1 || Occupied(a, index))
    && all == done + Targets(a, conns, dflags, index)
  }

  lemma OneMoreSlot(a: Arr, conns: seq<Conn>, dflags: int, done: seq<nat>, slot: nat, all: seq<nat>)
    requires OnTheWay(a, conns, dflags, done, slot, all)
    ensures OnTheWay(a, conns, dflags, done + Chosen(a, conns, dflags, slot), Slots.Next(a, slot).value, all)
    ensures Slots.Next(a, slot).value == -1 || slot < Slots.Next(a, slot).value
  {
    var chosen, rest := Chosen(a, conns, dflags, slot), Targets(a, conns, dflags, Slots.Next(a, slot).value);
    assert done + (chosen + rest) == (done + chosen) + rest;
  }

  /** From state s to state t user u broadcast frame f over the root's table a: to the wanted
      connections in it, in slot order and once each, up to where STOP_ONERR ends it. */
  ghost predicate Broadcasted(s: State, t: State, steps: seq<Step>, a: Arr, dflags: int, u: nat, f: Frame,
                              answers: seq<Answer>, stopOnError: bool, junk: nat -> int, rc: int)
    requires Holds(a, |s.conns|)
  {
    var targets := Targets(a, s.conns, dflags, Slots.Begin(a).value);
    && Recipients(targets, a, s.conns, dflags)
    && Replies(s.conns, s.root, targets, answers, t)
    && Mine(steps, u) == Calls(u, f, targets, answers)
    && LoopEnds(answers, |targets|, stopOnError, junk) && Returned(answers, |targets|, stopOnError, junk, rc)
  }

  lemma Finished(s: State, t: State, steps: seq<Step>, a: Arr, dflags: int, u: nat, f: Frame, done: seq<nat>, index: int,
                 answers: seq<Answer>, stopOnError: bool, junk: nat -> int, rc: int)
    requires Between(s, steps, t, u, f, done, answers)
    requires Holds(a, |s.conns|)
    requires OnTheWay(a, s.conns, dflags, done, index, Targets(a, s.conns, dflags, Slots.Begin(a).value))
    requires if index == -1 then GoesOn(answers, stopOnError, junk, rc) || Stopped(answers, stopOnError, junk, rc)
             else Stopped(answers, stopOnError, junk, rc)
    ensures Broadcasted(s, t, steps, a, dflags, u, f, answers, stopOnError, junk, rc)
  {
    RepliesSoFar(s, steps, t, u, f, done, Targets(a, s.conns, dflags, index), answers);
    TargetsAreRecipients(a, s.conns, dflags);
    EndsReturned(answers, |Targets(a, s.conns, dflags, Slots.Begin(a).value)|, stopOnError, junk, rc);
  }

  /** Without STOP_ONERR and with an enabled mark, every wanted connection is answered, the
      frame is queued on exactly the first of the live ones that there is room for, the count
      grows by as many, and the other live ones get EAGAIN. */
  lemma ReachesTheFirst(conns: seq<Conn>, root: Root, targets: seq<nat>, answers: seq<Answer>, now: State, junk: nat -> int)
    requires Replies(conns, root, targets, answers, now) && LoopEnds(answers, |targets|, false, junk) && 0 < root.sndhwm
    ensures var live, room := |answers| - Count(answers, |answers|, Dead), Room(root.sndhwm, root.sndqsz);
            && |answers| == |targets| && FirstTaken(answers, room)
            && now.root.sndqsz == root.sndqsz + Least(live, room)
  {
    FirstOnes(answers, root.sndhwm, root.sndqsz);
  }

  /** The table is still the one the broadcast started with. */
  ghost predicate Same(table: SlotArray, a: Arr)
    reads table, table.elems
  {
    table.Valid() && table.View() == a
  }

  /** What the loop knows at its head. */
  ghost predicate AtHead(s: State, steps: seq<Step>, t: State, a: Arr, dflags: int, u: nat, f: Frame, done: seq<nat>,
                         index: int, answers: seq<Answer>, stop: bool, stopOnError: bool, junk: nat -> int, rc: int) {
    && Between(s, steps, t, u, f, done, answers) && Holds(a, |s.conns|)
    && OnTheWay(a, s.conns, dflags, done, index, Targets(a, s.conns, dflags, Slots.Begin(a).value))
    && if stop then Stopped(answers, stopOnError, junk, rc) else GoesOn(answers, stopOnError, junk, rc)
  }

  /** One turn, up to the test for STOP_ONERR. */
  method Turn(net: Net, table: SlotArray, slot: nat, u: nat, f: Frame, dflags: int, stopOnError: bool, junk: nat -> int,
              others: nat -> seq<Step>, answers: seq<Answer>, rc: int,
              ghost s: State, ghost steps: seq<Step>, ghost done: seq<nat>)
    returns (ghost steps': seq<Step>, next: int, answers': seq<Answer>, stop: bool, rc': int)
    requires table.Valid() && Holds(table.View(), |s.conns|) && Occupied(table.View(), slot) && Ran(s, steps, net.View())
    requires AtHead(s, steps, net.View(), table.View(), dflags, u, f, done, slot, answers, false, stopOnError, junk, rc)
    modifies net
    ensures Ran(s, steps', net.View())
    ensures net.fault == NoFault ==>
              && Same(table, old(table.View())) && (next == -1 || slot < next)
              && AtHead(s, steps', net.View(), table.View(), dflags, u, f, done + Chosen(table.View(), s.conns, dflags, slot),
                        next, answers', stop, stopOnError, junk, rc')
  {
    ghost var a := table.View();
    OneMoreSlot(a, s.conns, dflags, done, slot, Targets(a, s.conns, dflags, Slots.Begin(a).value));
    var following := table.Next(slot);
    next := following.value;
    var more;
    steps', more := SendTurn(net, table, slot, u, f, dflags, others, s, steps, done, answers);
    if net.fault == NoFault {
      OneMoreCode(answers, more, stopOnError, junk, rc);
    }
    rc' := if more == [] then rc else Code(more[0], junk(|answers|));
    stop := more != [] && stopOnError && rc' != 0;
    answers' := answers + more;
  }

  /** fsock_send_all with DONWAIT, over the root's table: a run of the
    machine, interleaved with whatever other threads do without the root's lock. */
  method SendAll(net: Net, table: SlotArray, u: nat, f: Frame, dflags: int, stopOnError: bool, junk: nat -> int,
                 others: (nat, nat) -> seq<Step>)
    returns (ghost steps: seq<Step>, answers: seq<Answer>, rc: int)
    requires Core(net.View()) && SendOk(net.RootView()) && net.fault == NoFault
    requires u < |net.users| && net.users[u] == Ready && table.Valid() && Holds(table.View(), |net.conns|)
    modifies net
    ensures Ran(old(net.View()), steps, net.View())
    ensures net.fault == NoFault ==>
              Broadcasted(old(net.View()), net.View(), steps, table.View(), dflags, u, f, answers, stopOnError, junk, rc)
  {
    ghost var s, a, done := net.View(), table.View(), [];
    steps, answers, rc := [], [], 0;
    var first := table.Begin();
    var index, stop := first.value, false;
    while index != -1 && !stop
      invariant Ran(s, steps, net.View()) && Same(table, a)
      invariant AtHead(s, steps, net.View(), a, dflags, u, f, done, index, answers, stop, stopOnError, junk, rc)
      decreases if index < 0 then 0 else a.last - index
    {
      var slot: nat := index;
      steps, index, answers, stop, rc :=
        Turn(net, table, slot, u, f, dflags, stopOnError, junk, (k: nat) => others(slot, k), answers, rc, s, steps, done);
      if net.fault != NoFault {
        return;
      }
      done := done + Chosen(a, s.conns, dflags, slot);
    }
    Finished(s, net.View(), steps, a, dflags, u, f, done, index, answers, stopOnError, junk, rc);
  }
}
