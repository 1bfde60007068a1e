/** The queues of a worker at heap level are the machine's: an item of the intrusive queues stands
    for one task, its mark says what the machine asks of both queues, and scheduling, cancelling,
    swapping and popping do to the items what the machine does to the tasks. */
module WorkerQueues {
  import opened IntrusiveQueue
  import opened Machine
  import opened TaskLists
  import Mailbox

  /** The machine's steps on one worker's queues. */
  function Swapped(me: Worker): Worker {
    me.(batch := me.jobs, jobs := [])
  }

  function Popped(me: Worker): Worker
    requires me.batch != []
  {
    if me.batch[0] == Halt then
      me.(done := me.done + [Halt], dropped := me.batch[1..], batch := [], halted := true)
    else me.(cur := [me.batch[0]], batch := me.batch[1..])
  }

  lemma StepsOfQueues(s: State, w: nat)
    ensures Enabled(s, Swap(w)) ==> Apply(s, Swap(w)) == SetWorker(s, w, Swapped(s.workers[w]))
    ensures Enabled(s, Pop(w)) ==> Apply(s, Pop(w)) == SetWorker(s, w, Popped(s.workers[w]))
  {
  }

  ghost predicate Injective(name: map<Item, Task>) {
    forall x, y :: x in name && y in name && name[x] == name[y] ==> x == y
  }

  lemma NamesIn(items: seq<Item>, name: map<Item, Task>, x: Item)
    requires Injective(name) && x in name && forall y :: y in items ==> y in name
    ensures name[x] in Names(items, name) <==> x in items
  {
    if x in items {
      var i :| 0 <= i < |items| && items[i] == x;
      assert Names(items, name)[i] == name[x];
    }
  }

  /** Taking an item out of the chain is taking its task out of the queue. */
  lemma NamesWithout(items: seq<Item>, name: map<Item, Task>, k: nat)
    requires Injective(name) && Distinct(items) && k < |items| && forall x :: x in items ==> x in name
    ensures forall x :: x in items[..k] + items[k + 1..] ==> x in name
    ensures Names(items[..k] + items[k + 1..], name) == Remove(Names(items, name), name[items[k]])
  {
    var q, rest := Names(items, name), items[..k] + items[k + 1..];
    assert forall i :: 0 <= i < |rest| ==> rest[i] == items[if i < k then i else i + 1];
    assert q[k] == name[items[k]];
    var n := RemoveSplits(q, name[items[k]]);
    assert n == k;
    assert Names(rest, name) == q[..k] + q[k + 1..];
  }

  class Loop {
    const mail: Mailbox.Mailbox
    ghost const name: map<Item, Task>
    /** The worker apart from its queues. */
    ghost var rest: Worker

    ghost predicate Valid()
      reads this, mail, mail.tasks, mail.jobs, mail.jobs.items, mail.batch, mail.batch.items
    {
      mail.Valid() && Injective(name) && name.Keys == mail.tasks
    }

    ghost function View(): Worker
      requires Valid()
      reads this, mail, mail.tasks, mail.jobs, mail.jobs.items, mail.batch, mail.batch.items
    {
      rest.(jobs := Names(mail.jobs.items, name), batch := Names(mail.batch.items, name))
    }

    constructor (ghost name: map<Item, Task>)
      requires Injective(name) && forall x :: x in name ==> !x.IsInQueue()
      ensures Valid() && View() == InitWorker() && this.name == name && mail.tasks == name.Keys
    {
      this.name := name;
      rest := InitWorker();
      mail := new Mailbox.Mailbox(name.Keys);
    }

    /** The mark of an item: fsock_queue_item_isinqueue asks what the machine asks. */
    lemma MarkMeansQueued(item: Item)
      requires Valid() && item in name
      ensures item.IsInQueue() <==> InQueue(View(), name[item])
    {
      NamesIn(mail.jobs.items, name, item);
      NamesIn(mail.batch.items, name, item);
      if item in mail.jobs.items {
        var i :| 0 <= i < |mail.jobs.items| && mail.jobs.items[i] == item;
        assert Linked(mail.jobs.items, i);
      }
      if item in mail.batch.items {
        var i :| 0 <= i < |mail.batch.items| && mail.batch.items[i] == item;
        assert Linked(mail.batch.items, i);
      }
    }

    method Schedule(item: Item)
      requires Valid() && item in name && !item.IsInQueue()
      modifies mail.jobs, mail.tasks, this`rest
      ensures Valid() && mail.jobs == old(mail.jobs) && mail.batch == old(mail.batch)
      ensures View() == Push(old(View()), name[item])
    {
      mail.Schedule(item);
      rest := rest.(log := rest.log + [Entry(name[item], false)]);
    }

    method Cancel(item: Item)
      requires Valid() && item in name
      modifies mail.jobs, mail.tasks, this`rest
      ensures Valid() && mail.jobs == old(mail.jobs) && mail.batch == old(mail.batch)
      ensures View() == Machine.Cancel(old(View()), name[item])
    {
      ghost var was, before := mail.jobs.items, View();
      NamesIn(was, name, item);
      mail.Cancel(item);
      if item in was {
        ghost var k :| 0 <= k < |was| && was[k] == item && mail.jobs.items == was[..k] + was[k + 1..];
        NamesWithout(was, name, k);
        rest := rest.(log := Strike(rest.log, name[item]));
        assert View() == before.(jobs := Remove(before.jobs, name[item]), log := Strike(before.log, name[item]));
      } else {
        assert View() == before;
      }
    }

    /** One turn of the bulk macro (src/core/sock.h:77-81), which goes by the marks of the pair. */
    method Choose(chosen: Item, other: Item, ghost c: nat, ghost on: bool)
      requires Valid() && chosen in name && other in name
      requires name[chosen] == ReadTask(c, on) && name[other] == ReadTask(c, !on)
      modifies mail.jobs, mail.tasks, this`rest
      ensures Valid() && mail.jobs == old(mail.jobs) && mail.batch == old(mail.batch)
      ensures View() == Decide(old(View()), c, on)
    {
      MarkMeansQueued(chosen);
      if !chosen.IsInQueue() {
        Schedule(chosen);
      }
      MarkMeansQueued(other);
      if other.IsInQueue() {
        Cancel(other);
      }
    }

    /** The head of async_routine (src/utils/thread.c:87-92). */
    method Swap()
      requires Valid() && Free(View())
      modifies mail, mail.jobs
      ensures Valid() && View() == Swapped(old(View()))
    {
      mail.Swap();
    }

    /** Popping what is left once the stop task was found (line 97). */
    method Drain()
      requires Valid()
      modifies mail.batch, mail.tasks
      ensures Valid() && mail.jobs == old(mail.jobs) && mail.batch == old(mail.batch)
      ensures mail.jobs.items == old(mail.jobs.items) && mail.batch.items == []
    {
      var item := mail.Next();
      while item != null
        invariant Valid() && mail.jobs == old(mail.jobs) && mail.batch == old(mail.batch)
        invariant mail.jobs.items == old(mail.jobs.items) && (item == null ==> mail.batch.items == [])
        decreases |mail.batch.items|, item != null
      {
        item := mail.Next();
      }
    }

    /** One turn of its loop, up to the callback (lines 95-101). The stop task, too, is known by
        its item. */
    method Next(stop: Item) returns (task: Item)
      requires Valid() && stop in name && name[stop] == Halt
      requires View().cur == [] && View().batch != [] && !View().halted
      modifies mail.batch, mail.tasks, this`rest
      ensures Valid() && View() == Popped(old(View()))
      ensures task in name && name[task] == old(View()).batch[0] && (task == stop <==> View().halted)
    {
      ghost var was := View();
      var item := mail.Next();
      task := item;
      assert name[task] == was.batch[0];
      if task == stop {
        Drain();
        rest := rest.(done := rest.done + [Halt], dropped := was.batch[1..], halted := true);
      } else {
        assert Names(mail.batch.items, name) == was.batch[1..];
        rest := rest.(cur := [name[task]]);
      }
    }
  }
}
