/** The slot array at heap level: `elems`, `last` and `capacity` updated in place, with the
    search, shrink and cursor loops of src/utils/parr.c. */
module SlotArrays {
  import opened Slots

  class SlotArray {
    var elems: array?<Slot>
    var last: nat
    var capacity: nat
    const increment: nat

    ghost predicate Valid()
      reads this, elems
    {
      && 0 < increment && Multiple(capacity, increment)
      && capacity == (if elems == null then 0 else elems.Length)
      && (elems == null <==> capacity == 0)
    }

    ghost function View(): Arr
      reads this, elems
    {
      Arr(if elems == null then [] else elems[..], last, increment)
    }

    constructor (increment: nat)
      requires 0 < increment
      ensures Valid() && View() == Init(increment) && elems == null
    {
      elems, last, capacity := null, 0, 0;
      this.increment := increment;
    }

    /** fsock_parr_realloc: what a larger block holds beyond the old content is arbitrary. */
    method Realloc(size: nat)
      requires 0 < size
      modifies this`elems, this`capacity
      ensures elems != null && fresh(elems) && elems.Length == size == capacity
      ensures forall i :: 0 <= i < size && i < |old(View().mem)| ==> elems[i] == old(View().mem)[i]
    {
      var block := new Slot[size];
      if elems != null {
        var i := 0;
        while i < size && i < elems.Length
          invariant 0 <= i <= size && i <= elems.Length
          invariant forall k :: 0 <= k < i ==> block[k] == elems[k]
          modifies block
        {
          block[i] := elems[i];
          i := i + 1;
        }
      }
      elems, capacity := block, size;
    }

    /** The growth step at the head of fsock_parr_insert (lines 65-72). */
    method Grow() returns (ghost junk: seq<Slot>)
      requires Valid()
      modifies this`elems, this`capacity
      ensures Valid() && |junk| == increment && (elems == old(elems) || fresh(elems))
      ensures View() == Grown(old(View()), junk)
    {
      junk := seq(increment, _ => Empty);
      if capacity == 0 || last == capacity - 1 {
        ghost var was := View();
        var size := capacity + increment;
        Realloc(size);
        junk := elems[size - increment..];
        assert elems[..] == was.mem + junk;
      }
    }

    /** The search for a hole (lines 76-79). */
    method FindHole() returns (ret: nat)
      requires Valid() && last <= capacity
      ensures ret == FirstHole(View(), 0)
    {
      ret := 0;
      while ret < last && (assert ret < elems.Length; elems[ret].Ref?)
        invariant ret <= last && FirstHole(View(), 0) == FirstHole(View(), ret)
      {
        ret := ret + 1;
      }
    }

    method Insert(id: nat) returns (r: Outcome<nat>, ghost junk: seq<Slot>)
      requires Valid()
      modifies this, elems
      ensures |junk| == increment
      ensures elems == old(elems) || fresh(elems)
      ensures match Slots.Insert(old(View()), id, junk)
              case Fault => r.Fault?
              case Ok(p) => Valid() && r == Ok(p.1) && View() == p.0
    {
      junk := seq(increment, _ => Empty);
      if !(capacity == 0 || last < capacity) {
        return Fault, junk;
      }
      junk := Grow();
      if capacity <= last {
        return Fault, junk;
      }
      var ret := FindHole();
      ghost var grown := View();
      elems[ret] := Ref(id);
      last := last + 1;
      assert View().mem == grown.mem[ret := Ref(id)];
      r := Ok(ret);
    }

    /** fsock_parr_size */
    method Size() returns (len: nat)
      requires Valid() && last <= capacity
      ensures len == |Live(View())|
    {
      len := 0;
      if capacity == 0 {
        return;
      }
      var i := 0;
      while i < last
        invariant i <= last && len == |Live(View().(last := i))|
      {
        ghost var before, after := Live(View().(last := i)), Live(View().(last := i + 1));
        if elems[i].Ref? {
          len := len + 1;
          assert after == before[i := elems[i].id];
        } else {
          assert after == before;
        }
        i := i + 1;
      }
    }

    method CanShrink() returns (r: Outcome<bool>)
      requires Valid() && increment <= capacity
      ensures r == Slots.CanShrink(View())
    {
      var diff: int := last - (capacity - increment);
      var i := 0;
      while i < diff
        invariant 0 <= i && (i == 0 || i <= diff)
        invariant i == 0 || last <= capacity
        invariant forall k :: last - i <= k < last ==> elems[k].Empty?
      {
        var index := last - 1 - i;
        if capacity <= index {
          return Fault;
        }
        if elems[index].Ref? {
          return Ok(false);
        }
        i := i + 1;
      }
      r := Ok(true);
    }

    /** fsock_parr_empty */
    method IsEmpty() returns (empty: bool)
      requires Valid() && last <= capacity
      ensures empty <==> forall i :: 0 <= i < last ==> View().mem[i] == Empty
    {
      var i := 0;
      while i < last
        invariant i <= last && forall k :: 0 <= k < i ==> elems[k] == Empty
      {
        if elems[i].Ref? {
          assert View().mem[i].Ref?;
          return false;
        }
        i := i + 1;
      }
      empty := true;
    }

    method Clear(index: int) returns (r: Outcome<()>)
      requires Valid()
      modifies this, elems
      ensures elems == old(elems) || elems == null || fresh(elems)
      ensures match Slots.Clear(old(View()), index)
              case Fault => r.Fault?
              case Ok(b) => r.Ok? && Valid() && View() == b
    {
      if !(0 <= index < last) || capacity <= index {
        return Fault;
      }
      ghost var was := View();
      elems[index] := Empty;
      assert View().mem == was.mem[index := Empty];
      r := ShrinkLoop();
    }

    /** The loop of fsock_parr_clear (lines 127-143). */
    method ShrinkLoop() returns (r: Outcome<()>)
      requires Valid() && increment <= capacity
      modifies this`elems, this`capacity, this`last
      ensures elems == old(elems) || elems == null || fresh(elems)
      ensures match Shrink(old(View()))
              case Fault => r.Fault?
              case Ok(b) => r.Ok? && Valid() && View() == b
    {
      var can := CanShrink();
      while can == Ok(true)
        invariant Valid() && increment <= capacity && Shrink(View()) == Shrink(old(View()))
        invariant can == Slots.CanShrink(View())
        invariant elems == old(elems) || fresh(elems)
        decreases capacity
      {
        if capacity == increment {
          r := Reset();
          return;
        }
        ghost var was := View();
        assert Multiple(capacity - increment, increment);
        Realloc(capacity - increment);
        assert View() == was.(mem := was.mem[..|was.mem| - increment]);
        can := CanShrink();
      }
      r := if can.Fault? then Fault else Ok(());
    }

    /** fsock_parr_term, which asserts that nothing is left, and fsock_parr_init again. */
    method Reset() returns (r: Outcome<()>)
      requires Valid() && last <= capacity
      modifies this`elems, this`capacity, this`last
      ensures if forall i :: 0 <= i < old(last) ==> old(View()).mem[i].Empty?
              then r.Ok? && Valid() && elems == null && View() == Init(increment)
              else r.Fault?
    {
      var len := Size();
      assert Live(View()) == map[] <==> forall i :: i !in Live(View());
      assert forall i :: i in Live(View()) <==> 0 <= i < last && View().mem[i].Ref?;
      if len != 0 {
        return Fault;
      }
      elems, last, capacity := null, 0, 0;
      r := Ok(());
    }

    method Begin() returns (r: Outcome<int>)
      requires Valid()
      ensures r == Slots.Begin(View())
    {
      if last == 0 || elems == null {
        return Ok(-1);
      }
      r := ScanFrom(0);
    }

    method Next(index: nat) returns (r: Outcome<int>)
      requires Valid()
      ensures r == Slots.Next(View(), index)
    {
      if last == 0 || index == last - 1 {
        return Ok(-1);
      }
      r := ScanFrom(index + 1);
    }

    /** The loop both cursor functions run. */
    method ScanFrom(start: nat) returns (r: Outcome<int>)
      requires Valid()
      ensures r == Scan(View(), start)
    {
      var i := start;
      while i < last
        invariant Scan(View(), start) == Scan(View(), i)
        decreases last - i
      {
        if capacity <= i {
          return Fault;
        }
        if elems[i].Ref? {
          return Ok(i);
        }
        i := i + 1;
      }
      r := Ok(-1);
    }
  }
}
