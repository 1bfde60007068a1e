/** The event queue of a socket at heap level is the machine's: an item stands for one event, and
    the constant-time hand-over and the pop do to the items what the machine does to the events. */
module EventQueue {
  import opened IntrusiveQueue
  import opened Machine

  lemma {:induction false} BatchAt(c: nat, frames: seq<Frame>)
    ensures |Batch(c, frames)| == |frames|
    ensures forall i :: 0 <= i < |frames| ==> Batch(c, frames)[i] == Event(c, frames[i])
  {
    if frames != [] {
      BatchAt(c, frames[1..]);
    }
  }

  ghost predicate Covers(named: map<Item, Event>, items: seq<Item>) {
    (forall x :: x in items ==> x in named) && forall x :: x in named ==> x in items
  }

  lemma NamesBehind(items: seq<Item>, name: map<Item, Event>, added: seq<Item>, named: map<Item, Event>)
    requires (forall x :: x in items ==> x in name) && Covers(named, added)
    requires forall i, j :: 0 <= i < |items| && 0 <= j < |added| ==> items[i] != added[j]
    ensures forall x :: x in items + added ==> x in name + named
    ensures Names(items + added, name + named) == Names(items, name) + Names(added, named)
  {
    var all, p := items + added, |items|;
    assert forall i :: 0 <= i < |all| ==> all[i] == if i < p then items[i] else added[i - p];
  }

  /** The private queue of a read handler (src/core/sock.c:340-359): one new event a frame. */
  method Collect(c: nat, frames: seq<Frame>) returns (batch: Queue, cnt: nat, ghost named: map<Item, Event>)
    ensures fresh(batch) && batch.Valid() && Covers(named, batch.items)
    ensures forall x :: x in named ==> fresh(x)
    ensures Names(batch.items, named) == Batch(c, frames) && cnt == |frames| == |batch.items|
  {
    batch := new Queue();
    cnt, named := 0, map[];
    while cnt < |frames|
      invariant fresh(batch) && batch.Valid() && Covers(named, batch.items)
      invariant forall x :: x in named ==> fresh(x)
      invariant cnt == |batch.items| <= |frames|
      invariant forall i :: 0 <= i < cnt ==> named[batch.items[i]] == Event(c, frames[i])
    {
      var item := new Item();
      batch.Push(item);
      named := named[item := Event(c, frames[cnt])];
      cnt := cnt + 1;
    }
    BatchAt(c, frames);
  }

  /** What that does to the socket, for a given batch of events. */
  function Handed(root: Root, cnt: nat, batch: seq<Event>): Root {
    var r := root.(rcvqsz := root.rcvqsz + cnt);
    if cnt == 0 then r
    else r.(events := r.events + batch, efd := if r.wantEfd then r.efd + 1 else r.efd, wantEfd := false)
  }

  class Inbox {
    const queue: Queue
    var rcvqsz: int
    var efd: nat
    var wantEfd: bool
    /** The event that each item is part of, and the events queued. */
    ghost var name: map<Item, Event>
    ghost var events: seq<Event>
    /** The socket apart from these. */
    ghost var rest: Root

    ghost predicate Valid()
      reads this`name, this`events, queue, queue.items
    {
      queue.Valid() && (forall x :: x in queue.items ==> x in name) && events == Names(queue.items, name)
    }

    ghost function View(): Root
      reads this
    {
      rest.(rcvqsz := rcvqsz, efd := efd, wantEfd := wantEfd, events := events)
    }

    constructor (sndhwm: int, rcvhwm: int)
      ensures Valid() && fresh(queue) && View() == Init(sndhwm, rcvhwm, 0).root
    {
      queue := new Queue();
      rcvqsz, efd, wantEfd, name, events := 0, 0, false, map[], [];
      rest := Init(sndhwm, rcvhwm, 0).root;
    }

    /** Linking a private queue behind the socket's (src/core/sock.c:365-377). */
    method Link(batch: Queue, ghost named: map<Item, Event>, ghost added: seq<Event>)
      requires Valid() && batch.Valid() && batch != queue && batch.items != []
      requires Covers(named, batch.items) && Names(batch.items, named) == added
      requires forall i, j :: 0 <= i < |queue.items| && 0 <= j < |batch.items| ==> queue.items[i] != batch.items[j]
      modifies this`name, this`events, queue, queue.items
      ensures Valid() && events == old(events) + added
    {
      NamesBehind(queue.items, name, batch.items, named);
      name := name + named;
      events := events + added;
      queue.Splice(batch);
    }

    /** The critical section up to the mark (lines 362-382). */
    method HandOver(batch: Queue, cnt: nat, ghost named: map<Item, Event>, ghost added: seq<Event>)
      requires Valid() && batch.Valid() && batch != queue && cnt == |batch.items|
      requires Covers(named, batch.items) && Names(batch.items, named) == added
      requires forall i, j :: 0 <= i < |queue.items| && 0 <= j < |batch.items| ==> queue.items[i] != batch.items[j]
      modifies this, queue, queue.items
      ensures Valid() && View() == Handed(old(View()), cnt, added)
    {
      rcvqsz := rcvqsz + cnt;
      if cnt > 0 {
        Link(batch, named, added);
        if wantEfd {
          efd := efd + 1;
          wantEfd := false;
        }
      }
    }

    /** The read handler up to there. */
    method Read(c: nat, frames: seq<Frame>)
      requires Valid()
      modifies this, queue, queue.items
      ensures Valid() && View() == ReadRoot(old(View()), c, frames)
    {
      var batch, cnt, named := Collect(c, frames);
      HandOver(batch, cnt, named, Batch(c, frames));
    }

    /** Taking the oldest event (src/core/global.c:216-221). */
    method Take() returns (item: Item)
      requires Valid() && View().events != []
      modifies this, queue, queue.items
      ensures Valid() && View() == TakeRoot(old(View()))
      ensures item in name && name[item] == old(View()).events[0] && !item.IsInQueue()
    {
      var popped := queue.Pop();
      item := popped;
      rcvqsz := rcvqsz - 1;
      rest := rest.(taken := rest.taken + [name[item]]);
      events := events[1..];
    }
  }
}
