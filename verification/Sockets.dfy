/** The table of sockets (src/core/global.c:77-120), the one slot array in which entries come and
    go in any order for as long as the program runs. */
module Sockets {
  import opened Slots

  /** Opening a socket, with what a growth step would find in memory, and closing one. */
  datatype Op = Open(id: nat, junk: seq<Slot>) | Close(i: int)

  predicate Fits(ops: seq<Op>, inc: nat) {
    forall k :: 0 <= k < |ops| && ops[k].Open? ==> |ops[k].junk| == inc
  }

  /** Closing asserts that the slot is in use (lines 108-109). */
  function Do(a: Arr, op: Op): (r: Outcome<Arr>)
    requires Good(a) && (op.Open? ==> |op.junk| == a.inc)
    ensures r.Ok? ==> r.value.inc == a.inc
  {
    match op
    case Open(id, junk) =>
      (match Insert(a, id, junk) case Fault => Fault case Ok(p) => Ok(p.0))
    case Close(i) => if Occupied(a, i) then Clear(a, i) else Fault
  }

  /** What the table is for: a new socket gets the lowest free number, the others keep theirs,
      and closing takes out one. */
  ghost predicate Means(m: map<nat, nat>, op: Op, m': map<nat, nat>) {
    match op
    case Open(id, _) => exists ret: nat :: ret !in m && (forall k: nat :: k < ret ==> k in m) && m' == m[ret := id]
    case Close(i) => 0 <= i && i in m && m' == m - {i}
  }

  /** The guard of an operation: no hole is reused, or the slot exposed by that holds the empty
      mark; the socket is open, and its removal is safe. */
  predicate Meets(a: Arr, op: Op)
    requires Good(a) && (op.Open? ==> |op.junk| == a.inc)
  {
    match op
    case Open(_, junk) => GoodBounds(a); NoHole(a) || Grown(a, junk).mem[a.last].Empty?
    case Close(i) => Occupied(a, i) && ClearSafe(a, i)
  }

  /** After the operation the table is good and means what it should; and it is as it was in the
      beginning iff no socket is open, as the end of the library asserts (line 62). */
  ghost predicate Faithful(a: Arr, op: Op)
    requires Good(a) && (op.Open? ==> |op.junk| == a.inc)
  {
    var r := Do(a, op);
    && r.Ok? && Good(r.value) && Means(Live(a), op, Live(r.value))
    && (Live(r.value) == map[] <==> r.value == Init(a.inc))
  }

  lemma FaithfulExactly(a: Arr, op: Op)
    requires Good(a) && (op.Open? ==> |op.junk| == a.inc)
    ensures Faithful(a, op) <==> Meets(a, op)
    ensures op.Close? && !Occupied(a, op.i) ==> Do(a, op) == Fault
  {
    if op.Open? {
      InsertRefines(a, op.id, op.junk);
      var (b, ret) := Insert(a, op.id, op.junk).value;
      assert b.mem[ret] == Ref(op.id) && ret in Live(b);
      if Means(Live(a), op, Live(b)) {
        var n: nat :| n !in Live(a) && (forall k: nat :: k < n ==> k in Live(a)) && Live(b) == Live(a)[n := op.id];
        assert n == ret;
      }
    } else if Occupied(a, op.i) {
      ClearRefines(a, op.i);
    }
  }

  /** Through the whole history. */
  ghost predicate AlwaysFaithful(a: Arr, ops: seq<Op>)
    requires Good(a) && Fits(ops, a.inc)
    decreases |ops|
  {
    ops == [] || (Faithful(a, ops[0]) && AlwaysFaithful(Do(a, ops[0]).value, ops[1..]))
  }

  ghost predicate AlwaysMeets(a: Arr, ops: seq<Op>)
    requires Good(a) && Fits(ops, a.inc)
    decreases |ops|
  {
    ops == [] || (Meets(a, ops[0]) && (FaithfulExactly(a, ops[0]); AlwaysMeets(Do(a, ops[0]).value, ops[1..])))
  }

  lemma {:induction false} FaithfulRun(a: Arr, ops: seq<Op>)
    requires Good(a) && Fits(ops, a.inc)
    ensures AlwaysFaithful(a, ops) <==> AlwaysMeets(a, ops)
    decreases |ops|
  {
    if ops != [] {
      FaithfulExactly(a, ops[0]);
      if Faithful(a, ops[0]) {
        FaithfulRun(Do(a, ops[0]).value, ops[1..]);
      }
    }
  }

  /** Every history of opening and closing sockets: the table stays in bounds, and is the map it
      should be at each point, iff every operation meets its guard. */
  lemma TableOfSockets(inc: nat, ops: seq<Op>)
    requires 2 <= inc && Fits(ops, inc)
    ensures Good(Init(inc))
    ensures AlwaysFaithful(Init(inc), ops) <==> AlwaysMeets(Init(inc), ops)
  {
    FaithfulRun(Init(inc), ops);
  }

  lemma OpensTwo(junk: seq<Slot>)
    requires |junk| == 10
    ensures var a, b := Arr(junk[0 := Ref(4)], 1, 10), Arr(junk[0 := Ref(4)][1 := Ref(5)], 2, 10);
            && Good(a) && Good(b) && NoHole(a)
            && Do(Init(10), Open(4, junk)) == Ok(a) && Do(a, Open(5, junk)) == Ok(b)
  {
    var a := Arr(junk[0 := Ref(4)], 1, 10);
    assert [] + junk == junk && Multiple(10, 10);
    assert a.mem[0].Ref? && FirstHole(Init(10).(mem := junk), 0) == 0;
    assert FirstHole(a, 0) == FirstHole(a, 1) == 1;
    assert a.mem[1 := Ref(5)][0].Ref?;
  }

  lemma ClosesFirst(junk: seq<Slot>)
    requires |junk| == 10
    ensures var b, c := Arr(junk[0 := Ref(4)][1 := Ref(5)], 2, 10), Arr(junk[0 := Empty][1 := Ref(5)], 2, 10);
            && Good(b) && Good(c) && !NoHole(c)
            && Occupied(b, 0) && ClearSafe(b, 0) && Do(b, Close(0)) == Ok(c)
  {
    var b, c := Arr(junk[0 := Ref(4)][1 := Ref(5)], 2, 10), Arr(junk[0 := Empty][1 := Ref(5)], 2, 10);
    assert b.mem[0 := Empty] == c.mem && Multiple(10, 10);
    assert b.mem[1].Ref? && c.mem[1].Ref? && c.mem[0].Empty?;
    assert CanShrink(c) == Ok(false);
  }

  /** Two sockets, the first one closed, and another one: right iff the memory behind the second
      happens to hold the empty mark. */
  lemma ReuseNeedsLuck(junk: seq<Slot>)
    requires |junk| == 10
    ensures var ops := [Open(4, junk), Open(5, junk), Close(0), Open(6, junk)];
            && Good(Init(10)) && Fits(ops, 10)
            && (AlwaysFaithful(Init(10), ops) <==> junk[2].Empty?)
  {
    var ops := [Open(4, junk), Open(5, junk), Close(0), Open(6, junk)];
    var a, b := Arr(junk[0 := Ref(4)], 1, 10), Arr(junk[0 := Ref(4)][1 := Ref(5)], 2, 10);
    var c := Arr(junk[0 := Empty][1 := Ref(5)], 2, 10);
    TableOfSockets(10, ops);
    OpensTwo(junk);
    ClosesFirst(junk);
    var last := [Open(6, junk)];
    assert ops[1..] == [Open(5, junk), Close(0), Open(6, junk)] && ops[1..][1..] == [Close(0), Open(6, junk)];
    assert ops[1..][1..][1..] == last && last[1..] == [];
    calc {
      AlwaysMeets(Init(10), ops);
      AlwaysMeets(a, ops[1..]);
      AlwaysMeets(b, ops[1..][1..]);
      AlwaysMeets(c, last);
      Meets(c, last[0]);
      junk[2].Empty?;
    }
  }
}
