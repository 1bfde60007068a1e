/** The slot array of src/utils/parr.c as a value: what each operation makes of the memory,
    the `last` mark and the capacity, followed exactly as the code has it. An access outside
    the allocated memory, or a failed assertion, is the outcome `Fault`. */
module Slots {

  datatype Slot = Empty | Ref(id: nat)

  datatype Outcome<+T> = Ok(value: T) | Fault

  /** `mem` is the allocated array (its length is the capacity), `last` one past the highest
      slot in use, `inc` the growth step. */
  datatype Arr = Arr(mem: seq<Slot>, last: nat, inc: nat)

  function Init(inc: nat): Arr {
    Arr([], 0, inc)
  }

  /** The partial map the array stands for. */
  function Live(a: Arr): map<nat, nat> {
    map i | 0 <= i < a.last && i < |a.mem| && a.mem[i].Ref? :: a.mem[i].id
  }

  predicate Occupied(a: Arr, i: int) {
    0 <= i < a.last && i < |a.mem| && a.mem[i].Ref?
  }

  /** n is a multiple of the growth step. */
  predicate Multiple(n: nat, inc: nat)
    requires inc > 0
  {
    n == 0 || (inc <= n && Multiple(n - inc, inc))
  }

  /** The states the design is about: unused, or a whole number of steps with `last` inside
      the final step and at least one occupied slot. */
  predicate Good(a: Arr) {
    && 2 <= a.inc
    && Multiple(|a.mem|, a.inc)
    && if a.mem == [] then a.last == 0
       else |a.mem| - a.inc <= a.last < |a.mem| && exists i :: 0 <= i < a.last && a.mem[i].Ref?
  }

  // ---- insertion ------------------------------------------------------------------

  /** The search loop (lines 76-79). */
  function FirstHole(a: Arr, i: nat): (r: nat)
    requires i <= a.last <= |a.mem|
    ensures i <= r <= a.last
    ensures forall k :: i <= k < r ==> a.mem[k].Ref?
    ensures r < a.last ==> a.mem[r].Empty?
    decreases a.last - i
  {
    if i == a.last || a.mem[i].Empty? then i else FirstHole(a, i + 1)
  }

  /** `junk` is the content of the memory that a growth step adds; nothing initialises it. */
  function Grown(a: Arr, junk: seq<Slot>): Arr {
    if a.mem == [] || a.last == |a.mem| - 1 then a.(mem := a.mem + junk) else a
  }

  /** fsock_parr_insert. `last` moves up even when a hole was reused. */
  function Insert(a: Arr, id: nat, junk: seq<Slot>): Outcome<(Arr, nat)>
    requires |junk| == a.inc
  {
    var g := Grown(a, junk);
    if !(a.mem == [] || a.last < |a.mem|) || |g.mem| <= g.last then Fault
    else
      var ret := FirstHole(g, 0);
      Ok((g.(mem := g.mem[ret := Ref(id)], last := g.last + 1), ret))
  }

  predicate NoHole(a: Arr)
    requires a.last <= |a.mem|
  {
    forall i :: 0 <= i < a.last ==> a.mem[i].Ref?
  }

  lemma GoodBounds(a: Arr)
    requires Good(a)
    ensures a.last <= |a.mem|
    ensures a.mem != [] ==> a.inc <= |a.mem| && 0 < a.last
  {
  }

  /** Insertion into a good array never fails, keeps it good, and takes the lowest free
      index. It is the map insertion exactly when there was no hole to reuse, or the slot
      that the increment exposes happens to hold the empty mark. */
  lemma InsertRefines(a: Arr, id: nat, junk: seq<Slot>)
    requires Good(a) && |junk| == a.inc
    ensures Insert(a, id, junk).Ok?
    ensures var (b, ret) := Insert(a, id, junk).value;
            && Good(b) && b.inc == a.inc
            && ret !in Live(a) && (forall k :: 0 <= k < ret ==> k in Live(a))
            && (Live(b) == Live(a)[ret := id] <==>
                 (a.last <= |a.mem| && NoHole(a)) || Grown(a, junk).mem[a.last].Empty?)
  {
    GoodBounds(a);
    var g := Grown(a, junk);
    assert Multiple(|g.mem|, a.inc) by {
      assert |g.mem| == |a.mem| || |g.mem| - a.inc == |a.mem|;
    }
    var (b, ret) := Insert(a, id, junk).value;
    assert Occupied(b, ret);
    assert forall i :: 0 <= i < a.last ==> g.mem[i] == a.mem[i];
    assert forall i :: 0 <= i < a.last && i != ret ==> b.mem[i] == a.mem[i];
    if ret == a.last {
      assert NoHole(a);
      assert Live(b) == Live(a)[ret := id];
    } else {
      assert !NoHole(a);
      assert a.last !in Live(a)[ret := id];
      assert a.last in Live(b) <==> g.mem[a.last].Ref?;
      if g.mem[a.last].Empty? {
        assert Live(b) == Live(a)[ret := id];
      }
    }
  }

  /** Reusing slot 0 makes whatever memory lies at slot 2 look like a live entry. */
  lemma ReuseExposesGarbage()
    ensures var a := Arr([Empty, Ref(5)] + seq(8, _ => Ref(99)), 2, 10);
            && Good(a) && Live(a) == map[1 := 5]
            && Insert(a, 6, seq(10, _ => Empty)).Ok?
            && Live(Insert(a, 6, seq(10, _ => Empty)).value.0) == map[0 := 6, 1 := 5, 2 := 99]
  {
    var a := Arr([Empty, Ref(5)] + seq(8, _ => Ref(99)), 2, 10);
    assert Occupied(a, 1) && Multiple(0, 10);
    var b := a.(mem := a.mem[0 := Ref(6)], last := 3);
    assert FirstHole(a, 0) == 0;
    assert Insert(a, 6, seq(10, _ => Empty)) == Ok((b, 0));
    assert Live(b) == map[0 := 6, 1 := 5, 2 := 99];
  }

  // ---- removal --------------------------------------------------------------------

  /** fsock_parr_can_shrink: scans down from `last - 1` to the start of the final step. The
      first slot it reads lies outside the array when `last` exceeds the capacity. */
  function CanShrink(a: Arr): Outcome<bool>
    requires 0 < a.inc <= |a.mem|
  {
    var floor := |a.mem| - a.inc;
    if a.last <= floor then Ok(true)
    else if |a.mem| < a.last then Fault
    else Ok(forall i :: floor <= i < a.last ==> a.mem[i].Empty?)
  }

  /** The loop of fsock_parr_clear (lines 127-143). At one step it resets the array, which
      asserts that nothing is left (line 39). */
  function Shrink(a: Arr): (r: Outcome<Arr>)
    requires 0 < a.inc <= |a.mem| && Multiple(|a.mem|, a.inc)
    ensures r.Ok? ==> r.value.inc == a.inc && Multiple(|r.value.mem|, a.inc)
    decreases |a.mem|
  {
    match CanShrink(a)
    case Fault => Fault
    case Ok(false) => Ok(a)
    case Ok(true) =>
      if |a.mem| == a.inc then
        if forall i :: 0 <= i < a.last && i < |a.mem| ==> a.mem[i].Empty? then Ok(Init(a.inc)) else Fault
      else
        assert Multiple(|a.mem| - a.inc, a.inc);
        Shrink(a.(mem := a.mem[..|a.mem| - a.inc]))
  }

  /** fsock_parr_clear */
  function Clear(a: Arr, index: int): (r: Outcome<Arr>)
    requires 0 < a.inc && Multiple(|a.mem|, a.inc)
    ensures r.Ok? ==> r.value.inc == a.inc && Multiple(|r.value.mem|, a.inc)
  {
    if !(0 <= index < a.last) || |a.mem| <= index then Fault
    else Shrink(a.(mem := a.mem[index := Empty]))
  }

  /** The guard under which removal keeps its promise: the array has a single growth step,
      or another slot of the final step stays occupied, or (only right after the second step
      was added) nothing at all stays occupied. */
  predicate ClearSafe(a: Arr, index: nat) {
    || |a.mem| == a.inc
    || (exists i :: |a.mem| - a.inc <= i < a.last && i != index && Occupied(a, i))
    || (a.last == a.inc && |a.mem| == 2 * a.inc && forall i :: 0 <= i < a.last && i != index ==> !Occupied(a, i))
  }

  /** Removal from a good array stays in bounds and leaves a good array iff the guard holds;
      then it is exactly the removal of one key, and an emptied array is the initial one. */
  lemma ClearRefines(a: Arr, index: nat)
    requires Good(a) && index < a.last
    ensures var r := Clear(a, index);
            && (r.Ok? && Good(r.value) <==> ClearSafe(a, index))
            && (ClearSafe(a, index) ==>
                  && Live(r.value) == Live(a) - {index} && r.value.inc == a.inc
                  && (Live(a) - {index} == map[] <==> r.value == Init(a.inc)))
  {
    GoodBounds(a);
    var floor, b := |a.mem| - a.inc, a.(mem := a.mem[index := Empty]);
    assert Clear(a, index) == Shrink(b);
    assert forall i :: Occupied(b, i) <==> Occupied(a, i) && i != index;
    assert Live(b) == Live(a) - {index};
    if i :| floor <= i < a.last && Occupied(b, i) {
      assert i in Live(b) && b.mem[i].Ref?;
    } else if floor == 0 {
      assert forall i :: i in Live(b) ==> Occupied(b, i);
      forall i | 0 <= i < b.last
        ensures b.mem[i].Empty?
      {
        assert !Occupied(b, i);
      }
      assert Live(b) == map[];
    } else {
      ClearLastOfStep(b, floor);
    }
  }

  /** The case in which the final step was drained although earlier ones exist. */
  lemma ClearLastOfStep(b: Arr, floor: nat)
    requires 2 <= b.inc && Multiple(|b.mem|, b.inc) && 0 < floor == |b.mem| - b.inc <= b.last < |b.mem|
    requires forall i :: floor <= i < b.last ==> !Occupied(b, i)
    ensures var r := Shrink(b);
            if b.last == b.inc == floor && forall i :: 0 <= i < b.last ==> !Occupied(b, i)
            then r == Ok(Init(b.inc)) && Live(b) == map[]
            else r.Ok? ==> !Good(r.value)
  {
    assert forall i :: 0 <= i < b.last ==> (Occupied(b, i) <==> b.mem[i].Ref?);
    var c := b.(mem := b.mem[..floor]);
    assert Shrink(b) == Shrink(c);
    if c.last == floor && CanShrink(c) == Ok(true) && floor != b.inc {
      assert Multiple(floor - b.inc, b.inc);
      var d := c.(mem := c.mem[..floor - b.inc]);
      assert Shrink(c) == Shrink(d);
      assert CanShrink(d).Fault?;
    }
  }

  /** With ten slots in use and room for twenty, removing any one of them gives back the
      slack slot; the next insertion then fails its own assertion. */
  lemma ShrinkBreaksNextInsert(id: nat, index: nat)
    requires index < 10
    ensures var a := Arr(seq(20, i requires 0 <= i < 20 => if i < 10 then Ref(i) else Empty), 10, 10);
            && Good(a) && Clear(a, index).Ok?
            && Insert(Clear(a, index).value, id, seq(10, _ => Empty)).Fault?
  {
    var a := Arr(seq(20, i requires 0 <= i < 20 => if i < 10 then Ref(i) else Empty), 10, 10);
    assert Multiple(10, 10) && Multiple(20, 10);
    assert a.mem[0].Ref? && a.mem[if index == 0 then 1 else 0].Ref?;
    var b := a.(mem := a.mem[index := Empty]);
    var c := b.(mem := b.mem[..10]);
    assert Clear(a, index) == Shrink(b);
    assert c.mem[if index == 0 then 1 else 0].Ref?;
    assert CanShrink(c) == Ok(false);
    assert Shrink(b) == Shrink(c) == Ok(c);
  }

  // ---- iteration ------------------------------------------------------------------

  /** The scan shared by begin and next: the first occupied slot from i on, -1 for none. */
  function Scan(a: Arr, i: nat): (r: Outcome<int>)
    ensures r.Ok? && r.value != -1 ==> i <= r.value && Occupied(a, r.value)
    ensures a.last <= |a.mem| ==> r.Ok?
    ensures r.Ok? ==> forall k :: i <= k < a.last && (r.value == -1 || k < r.value) ==> !Occupied(a, k)
    decreases a.last - i
  {
    if a.last <= i then Ok(-1)
    else if |a.mem| <= i then Fault
    else if a.mem[i].Ref? then Ok(i)
    else Scan(a, i + 1)
  }

  /** fsock_parr_begin: index of the first occupied slot, -1 for none. */
  function Begin(a: Arr): Outcome<int> {
    if a.last == 0 || a.mem == [] then Ok(-1) else Scan(a, 0)
  }

  /** fsock_parr_next */
  function Next(a: Arr, i: nat): Outcome<int> {
    if a.last == 0 || i == a.last - 1 then Ok(-1) else Scan(a, i + 1)
  }

  /** What a begin/next loop visits from cursor i on (-1 is the end). */
  function Walk(a: Arr, i: int): (r: seq<nat>)
    requires a.last <= |a.mem| && -1 <= i < a.last
    decreases if i < 0 then 0 else a.last - i
  {
    if i < 0 then [] else [i] + Walk(a, Next(a, i).value)
  }

  ghost predicate Increasing(s: seq<nat>) {
    forall i, j :: 0 <= i < j < |s| ==> s[i] < s[j]
  }

  /** The loop visits exactly the occupied slots, each once, in increasing order. */
  lemma {:induction false} WalkVisitsAll(a: Arr, i: int)
    requires a.last <= |a.mem| && -1 <= i < a.last && (i == -1 || Occupied(a, i))
    ensures Increasing(Walk(a, i))
    ensures forall k :: k in Walk(a, i) <==> 0 <= i <= k && Occupied(a, k)
    decreases if i < 0 then 0 else a.last - i
  {
    if 0 <= i {
      var j := Next(a, i).value;
      WalkVisitsAll(a, j);
      assert forall k :: k in Walk(a, i) <==> k == i || k in Walk(a, j);
      assert forall k :: 0 <= k < |Walk(a, j)| ==> Walk(a, j)[k] in Walk(a, j);
    }
  }

  /** What such a loop visits as written: it ends at the first NULL it is handed, the end mark or
      an entry of that value. `zero` is the NULL pointer among the values a slot can hold. */
  function LoopWalk(a: Arr, i: int, zero: nat): (r: seq<nat>)
    requires a.last <= |a.mem| && -1 <= i < a.last && (i == -1 || Occupied(a, i))
    decreases if i < 0 then 0 else a.last - i
  {
    if i < 0 || a.mem[i].id == zero then [] else [i] + LoopWalk(a, Next(a, i).value, zero)
  }

  /** It visits them all iff none of them holds NULL, as only an exposed slot can. */
  lemma {:induction false} LoopStopsAtNull(a: Arr, i: int, zero: nat)
    requires a.last <= |a.mem| && -1 <= i < a.last && (i == -1 || Occupied(a, i))
    ensures LoopWalk(a, i, zero) == Walk(a, i) <==>
              forall k :: 0 <= i <= k && Occupied(a, k) ==> a.mem[k].id != zero
    decreases if i < 0 then 0 else a.last - i
  {
    if 0 <= i {
      var j := Next(a, i).value;
      WalkVisitsAll(a, i);
      LoopStopsAtNull(a, j, zero);
      if a.mem[i].id != zero {
        assert ([i] + Walk(a, j))[1..] == Walk(a, j) && ([i] + LoopWalk(a, j, zero))[1..] == LoopWalk(a, j, zero);
        assert forall k :: i < k && Occupied(a, k) ==> 0 <= j <= k;
      }
    }
  }

  // ---- draining -------------------------------------------------------------------

  /** Good, or just shrunk onto `last`; in either case not empty. */
  predicate Filled(a: Arr) {
    && 2 <= a.inc <= |a.mem| && Multiple(|a.mem|, a.inc)
    && |a.mem| - a.inc <= a.last <= |a.mem| && exists i :: 0 <= i < a.last && a.mem[i].Ref?
  }

  /** One removal while an array is being emptied. Up to one growth step in use, it succeeds
      and only the last one resets the array. Beyond, it either reads out of bounds or leaves
      something behind: no order of removals can empty such an array. */
  lemma ClearWhileDraining(a: Arr, i: nat)
    requires Filled(a) && Occupied(a, i)
    ensures var r := Clear(a, i);
            && (r.Ok? ==> Live(r.value) == Live(a) - {i} && r.value.inc == a.inc)
            && (a.last <= a.inc ==> r.Ok?)
            && (r.Ok? ==> if a.last <= a.inc && Live(a) - {i} == map[] then r.value == Init(a.inc)
                          else Filled(r.value) && r.value.last == a.last)
  {
    var floor, b := |a.mem| - a.inc, a.(mem := a.mem[i := Empty]);
    assert Clear(a, i) == Shrink(b);
    assert forall k :: Occupied(b, k) <==> Occupied(a, k) && k != i;
    assert forall k :: k in Live(b) <==> Occupied(b, k);
    assert Live(b) == Live(a) - {i};
    if k :| floor <= k < a.last && Occupied(b, k) {
      assert k in Live(b) && b.mem[k].Ref?;
    } else {
      assert forall k :: floor <= k < a.last ==> !Occupied(b, k);
      assert forall k :: floor <= k < a.last ==> b.mem[k].Empty? by {
        forall k | floor <= k < a.last
          ensures b.mem[k].Empty?
        {
          assert !Occupied(b, k);
        }
      }
      if floor == 0 {
        assert Live(b) == map[];
      } else {
        ShrinkWhileDraining(b, floor);
      }
    }
  }

  lemma ShrinkWhileDraining(b: Arr, floor: nat)
    requires 2 <= b.inc && Multiple(|b.mem|, b.inc) && 0 < floor == |b.mem| - b.inc <= b.last <= |b.mem|
    requires forall k :: floor <= k < b.last ==> b.mem[k].Empty?
    ensures var r := Shrink(b);
            && (r.Ok? ==> Live(r.value) == Live(b) && r.value.inc == b.inc)
            && (b.last <= b.inc ==> r.Ok?)
            && (r.Ok? ==> if b.last <= b.inc && Live(b) == map[] then r.value == Init(b.inc)
                          else Filled(r.value) && r.value.last == b.last)
  {
    assert Multiple(floor, b.inc);
    var c := b.(mem := b.mem[..floor]);
    assert Shrink(b) == Shrink(c);
    assert Live(c) == Live(b);
    if c.last == floor {
      var low := floor - b.inc;
      if k :| low <= k < floor && c.mem[k].Ref? {
        assert CanShrink(c) == Ok(false);
        assert k in Live(c);
      } else {
        assert CanShrink(c) == Ok(true);
        if low != 0 {
          assert Multiple(low, b.inc);
          var d := c.(mem := c.mem[..low]);
          assert Shrink(c) == Shrink(d);
          assert CanShrink(d).Fault?;
        } else {
          assert Live(c) == map[];
        }
      }
    }
  }

  /** Clearing the given slots one after another. */
  function ClearAll(a: Arr, order: seq<nat>): Outcome<Arr>
    requires 0 < a.inc && Multiple(|a.mem|, a.inc)
    decreases |order|
  {
    if order == [] then Ok(a)
    else
      match Clear(a, order[0])
      case Fault => Fault
      case Ok(b) => ClearAll(b, order[1..])
  }

  /** Every order of removals that empties the array works iff at most one growth step was
      ever in use; the capacity then returns to zero. */
  lemma {:induction false} DrainInAnyOrder(a: Arr, order: seq<nat>)
    requires Filled(a)
    requires forall i, j :: 0 <= i < j < |order| ==> order[i] != order[j]
    requires forall k :: k in order <==> Occupied(a, k)
    ensures ClearAll(a, order) == if a.last <= a.inc then Ok(Init(a.inc)) else Fault
    decreases |order|
  {
    var w :| 0 <= w < a.last && a.mem[w].Ref?;
    assert Occupied(a, w);
    var i := order[0];
    assert Occupied(a, i);
    ClearWhileDraining(a, i);
    var r := Clear(a, i);
    if r.Ok? {
      var b, rest := r.value, order[1..];
      assert forall k :: Occupied(a, k) <==> k in Live(a);
      assert forall k :: Occupied(b, k) <==> k in Live(b);
      assert forall k :: k in order <==> k == i || k in rest;
      assert forall k :: k in rest ==> k in order && k in Live(b);
      assert rest == [] || rest[0] in rest;
      if b != Init(a.inc) {
        DrainInAnyOrder(b, rest);
      }
    }
  }
}
