/** The two queues of one worker (src/utils/thread.c): `jobs`, shared with every thread that
    schedules or cancels, and the private batch that the worker executes outside the lock. */
module Mailbox {
  import opened IntrusiveQueue

  /** Taking one element out of a sequence without repetition leaves exactly the others. */
  lemma Others(s: seq<Item>, k: nat)
    requires k < |s| && Distinct(s)
    ensures forall x :: x in s[..k] + s[k + 1..] <==> x in s && x != s[k]
  {
    var t := s[..k] + s[k + 1..];
    forall x | x in s && x != s[k]
      ensures x in t
    {
      var i :| 0 <= i < |s| && s[i] == x;
      assert t[if i < k then i else i - 1] == x;
    }
    forall x | x in t
      ensures x in s && x != s[k]
    {
      var i :| 0 <= i < |t| && t[i] == x;
      assert s[if i < k then i else i + 1] == x;
    }
  }

  class Mailbox {
    var jobs: Queue
    var batch: Queue
    /** Every task item that may ever be scheduled on this worker. */
    ghost const tasks: set<Item>

    /** The sentinel discipline: a task is marked as queued iff one of the two queues holds
        it, and never both. The mark therefore outlives the swap that hides the task from a
        walk of `jobs`. */
    ghost predicate Valid()
      reads this, tasks, jobs, jobs.items, batch, batch.items
    {
      && jobs != batch && jobs.Valid() && batch.Valid()
      && (forall i, j :: 0 <= i < |jobs.items| && 0 <= j < |batch.items| ==>
            jobs.items[i] != batch.items[j])
      && (forall x :: x in jobs.items ==> x in tasks)
      && (forall x :: x in batch.items ==> x in tasks)
      && (forall x :: x in tasks && x.IsInQueue() ==> x in jobs.items || x in batch.items)
    }

    constructor (ghost tasks: set<Item>)
      requires forall x :: x in tasks ==> !x.IsInQueue()
      ensures Valid() && fresh(jobs) && fresh(batch)
      ensures jobs.items == [] && batch.items == [] && this.tasks == tasks
    {
      this.tasks := tasks;
      jobs := new Queue();
      batch := new Queue();
    }

    /** fsock_thread_schedule_task_unsafe; the push asserts that the item is not queued. */
    method Schedule(task: Item)
      requires Valid() && task in tasks && !task.IsInQueue()
      modifies jobs, tasks
      ensures Valid() && jobs == old(jobs) && batch == old(batch)
      ensures jobs.items == old(jobs.items) + [task] && batch.items == old(batch.items)
    {
      forall i | 0 <= i < |batch.items|
        ensures batch.items[i] != task
      {
        assert Linked(batch.items, i);
      }
      jobs.Push(task);
    }

    /** Cancelling (src/core/sock.h:79-80) finds the task only while it is still in `jobs`. */
    method Cancel(task: Item)
      requires Valid() && task in tasks
      modifies jobs, tasks
      ensures Valid() && jobs == old(jobs) && batch == old(batch)
      ensures batch.items == old(batch.items)
      ensures task !in old(jobs.items) ==> jobs.items == old(jobs.items)
      ensures task in old(jobs.items) ==>
                && !task.IsInQueue()
                && exists k :: 0 <= k < |old(jobs.items)| && old(jobs.items)[k] == task
                            && jobs.items == old(jobs.items)[..k] + old(jobs.items)[k + 1..]
    {
      forall i | 0 <= i < |jobs.items|
        ensures jobs.items[i].IsInQueue()
      {
        assert Linked(jobs.items, i);
      }
      if task.IsInQueue() {
        ghost var was := jobs.items;
        jobs.Remove(task);
        if task in was {
          ghost var k :| 0 <= k < |was| && was[k] == task && jobs.items == was[..k] + was[k + 1..];
          Others(was, k);
        }
      }
    }

    /** The swap under the lock (lines 87-92). */
    method Swap()
      requires Valid() && batch.items == []
      modifies this, jobs
      ensures Valid() && jobs == old(jobs) && fresh(batch)
      ensures jobs.items == [] && batch.items == old(jobs.items)
    {
      batch := jobs.TakeAll();
    }

    /** One turn of the loop at line 95. */
    method Next() returns (task: Item?)
      requires Valid()
      modifies batch, tasks
      ensures Valid() && jobs == old(jobs) && batch == old(batch)
      ensures jobs.items == old(jobs.items)
      ensures old(batch.items) == [] ==> task == null && batch.items == []
      ensures old(batch.items) != [] ==>
                task == old(batch.items[0]) && batch.items == old(batch.items)[1..] && !task.IsInQueue()
    {
      task := batch.Pop();
    }
  }
}
