/** The frame lists with their pointers: what the machine says of a list - the chain that `first`
    leads to, and where in it `last` points - is what becomes of the pointers when a frame is
    appended, the front is erased, and two lists are merged (src/core/sock.c:434-470,
    src/core/global.c:276). A `last` that is stale stays stale here for the same reason as there:
    nobody sets it. */
module FrameLists {
  import opened Machine

  /** An item, by its address; 0 is NULL. */
  type Ptr = nat

  const NULL: Ptr := 0

  /** `next` of the items that have a successor. */
  type Memory = map<Ptr, Ptr>

  datatype List = List(first: Ptr, last: Ptr)

  function Follow(next: Memory, p: Ptr): Ptr {
    if p in next then next[p] else NULL
  }

  predicate Linked(next: Memory, items: seq<Ptr>, i: nat)
    requires i < |items|
  {
    Follow(next, items[i]) == if i + 1 < |items| then items[i + 1] else NULL
  }

  /** From `first` on, the list leads through exactly these items, and ends. */
  predicate Leads(next: Memory, l: List, items: seq<Ptr>) {
    && NULL !in items && (forall i, j :: 0 <= i < j < |items| ==> items[i] != items[j])
    && l.first == (if items == [] then NULL else items[0])
    && forall i :: 0 <= i < |items| ==> Linked(next, items, i)
  }

  /** The machine's list: the frames of the items, and the place of `last` among them, if any. */
  predicate Stands(next: Memory, l: List, items: seq<Ptr>, frames: map<Ptr, Frame>, o: OutList) {
    && Leads(next, l, items) && |o.chain| == |items|
    && (forall i :: 0 <= i < |items| ==> items[i] in frames && frames[items[i]] == o.chain[i])
    && (if o.last < 0 then o.last == -1 && l.last !in items else o.last < |items| && items[o.last] == l.last)
    && (if items == [] then l.last == NULL else l.last != NULL)
  }

  // ---- appending ------------------------------------------------------------------------------

  function LinkBehind(next: Memory, l: List, p: Ptr): Memory {
    if l.first == NULL then next else next[l.last := p]
  }

  /** frm_out_frame_list_insert with a new item. */
  function Appended(l: List, p: Ptr): List {
    List(if l.first == NULL then p else l.first, p)
  }

  /** The items that the list leads through afterwards. */
  function AppendedItems(items: seq<Ptr>, o: OutList, p: Ptr): seq<Ptr>
    requires o.last < |items|
  {
    if items == [] then [p] else if o.last < 0 then items else items[..o.last + 1] + [p]
  }

  lemma AppendRefines(next: Memory, l: List, items: seq<Ptr>, frames: map<Ptr, Frame>, o: OutList, p: Ptr, f: Frame)
    requires Stands(next, l, items, frames, o) && p != NULL && p !in items && p !in next && l.last != p
    requires forall q :: q in next ==> next[q] != p
    ensures Stands(LinkBehind(next, l, p), Appended(l, p), AppendedItems(items, o, p), frames[p := f], Append(o, f))
    ensures |AppendedItems(items, o, p)| + Unlinked(o, OutList([f], 0)) == |items| + 1
  {
    var next', items' := LinkBehind(next, l, p), AppendedItems(items, o, p);
    forall i | 0 <= i < |items'|
      ensures Linked(next', items', i)
    {
      assert i < |items| ==> Linked(next, items, i);
    }
  }

  // ---- erasing the front ----------------------------------------------------------------------

  /** frm_list_erase of the first item: `last` is only looked after when nothing follows. */
  function Erased(next: Memory, l: List): List {
    if Follow(next, l.first) == NULL then List(NULL, NULL) else l.(first := Follow(next, l.first))
  }

  lemma EraseRefines(next: Memory, l: List, items: seq<Ptr>, frames: map<Ptr, Frame>, o: OutList)
    requires Stands(next, l, items, frames, o) && items != []
    ensures Stands(next, Erased(next, l), items[1..], frames, Drop(o, 1))
  {
    assert Linked(next, items, 0);
    forall i | 0 <= i < |items[1..]|
      ensures Linked(next, items[1..], i)
    {
      assert Linked(next, items, i + 1);
    }
    if 0 <= o.last {
      assert items[o.last] == l.last;
    }
  }

  /** Dropping k written frames is erasing k times. */
  function ErasedTimes(next: Memory, l: List, k: nat): List
    decreases k
  {
    if k == 0 then l else ErasedTimes(next, Erased(next, l), k - 1)
  }

  lemma {:induction false} DropRefines(next: Memory, l: List, items: seq<Ptr>, frames: map<Ptr, Frame>, o: OutList, k: nat)
    requires Stands(next, l, items, frames, o) && 0 < k <= |items|
    ensures Stands(next, ErasedTimes(next, l, k), items[k..], frames, Drop(o, k))
    decreases k
  {
    EraseRefines(next, l, items, frames, o);
    if k != 1 {
      DropRefines(next, Erased(next, l), items[1..], frames, Drop(o, 1), k - 1);
      assert items[1..][k - 1..] == items[k..];
      assert Drop(Drop(o, 1), k - 1) == Drop(o, k);
    }
  }

  // ---- the merge after EAGAIN -----------------------------------------------------------------

  /** Lines 447-456: the queued frames are linked behind the local `last`. */
  function Merged(next: Memory, local: List, queued: List): Memory {
    if queued.first == NULL then next
    else if local.last != NULL then next[local.last := queued.first]
    else next[local.first := queued.first]
  }

  function MergedItems(items: seq<Ptr>, o: OutList, more: seq<Ptr>): seq<Ptr>
    requires o.last < |items|
  {
    if more == [] || o.last < 0 then items else items[..o.last + 1] + more
  }

  /** Line 459 then copies the local list back, `last` included. */
  lemma MergeRefines(next: Memory, local: List, items: seq<Ptr>, o: OutList, queued: List, more: seq<Ptr>, q: OutList,
                     frames: map<Ptr, Frame>)
    requires Stands(next, local, items, frames, o) && Stands(next, queued, more, frames, q) && items != []
    requires (forall p :: p in items ==> p !in more) && local.last !in more && local.last != NULL
    ensures Stands(Merged(next, local, queued), local, MergedItems(items, o, more), frames, MergeBack(o, q))
    ensures |MergedItems(items, o, more)| + (if q.chain == [] then 0 else Unlinked(o, q)) == |items| + |more|
  {
    var next', items', k := Merged(next, local, queued), MergedItems(items, o, more), o.last;
    if more != [] {
      assert forall i :: 0 <= i < |items| && i != k ==> items[i] != local.last;
      assert forall i :: 0 <= i < |more| ==> more[i] in more;
      forall i | 0 <= i < |items'|
        ensures Linked(next', items', i)
      {
        if k < 0 || i <= k {
          assert Linked(next, items, i);
        } else {
          assert items'[i] == more[i - (k + 1)] && Linked(next, more, i - (k + 1));
        }
      }
    }
  }
}
