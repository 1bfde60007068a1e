/** Facts about the task queues of one worker. */
module TaskLists {
  import opened Machine

  /** The tasks that set a connection's read watcher, and those that set its write watcher. */
  datatype Kind = Reading | Writes

  predicate Of(t: Task, kind: Kind, c: nat) {
    match t
    case Attach(x) => kind.Reading? && x == c
    case StartRead(x) => kind.Reading? && x == c
    case StopRead(x) => kind.Reading? && x == c
    case StartWrite(x) => kind.Writes? && x == c
    case Halt => false
  }

  /** The part of a queue that concerns connection c, in order. */
  function Sel(q: seq<Task>, kind: Kind, c: nat): seq<Task> {
    if q == [] then []
    else if Of(q[0], kind, c) then [q[0]] + Sel(q[1..], kind, c)
    else Sel(q[1..], kind, c)
  }

  lemma {:induction false} SelMember(q: seq<Task>, kind: Kind, c: nat, t: Task)
    ensures t in Sel(q, kind, c) <==> t in q && Of(t, kind, c)
  {
    if q != [] {
      SelMember(q[1..], kind, c, t);
      assert t in q <==> t == q[0] || t in q[1..];
    }
  }

  lemma SelFirst(t: Task, q: seq<Task>, kind: Kind, c: nat)
    ensures Sel([t] + q, kind, c) == (if Of(t, kind, c) then [t] else []) + Sel(q, kind, c)
  {
    assert ([t] + q)[0] == t && ([t] + q)[1..] == q;
  }

  lemma {:induction false} SelConcat(p: seq<Task>, q: seq<Task>, kind: Kind, c: nat)
    ensures Sel(p + q, kind, c) == Sel(p, kind, c) + Sel(q, kind, c)
  {
    if p == [] {
      assert p + q == q;
    } else {
      var t, rest := p[0], p[1..];
      SelConcat(rest, q, kind, c);
      SelFirst(t, rest, kind, c);
      SelFirst(t, rest + q, kind, c);
      assert p == [t] + rest && p + q == [t] + (rest + q);
    }
  }

  lemma SelOne(t: Task, kind: Kind, c: nat)
    ensures Sel([t], kind, c) == if Of(t, kind, c) then [t] else []
  {
    assert [t][1..] == [];
  }

  lemma {:induction false} SelRemove(q: seq<Task>, t: Task, kind: Kind, c: nat)
    ensures Sel(Remove(q, t), kind, c) == if Of(t, kind, c) then Remove(Sel(q, kind, c), t) else Sel(q, kind, c)
  {
    if q != [] {
      if q[0] != t {
        SelRemove(q[1..], t, kind, c);
        var rest := Remove(q[1..], t);
        assert Remove(q, t) == [q[0]] + rest && ([q[0]] + rest)[1..] == rest;
        if Of(q[0], kind, c) {
          var tail := Sel(q[1..], kind, c);
          assert ([q[0]] + tail)[1..] == tail;
        }
      } else if Of(t, kind, c) {
        var tail := Sel(q[1..], kind, c);
        assert ([t] + tail)[1..] == tail;
      }
    }
  }

  ghost predicate NoDup(q: seq<Task>) {
    forall i, j :: 0 <= i < j < |q| ==> q[i] != q[j]
  }

  /** Removal takes one task out and keeps the order of the others. */
  lemma {:induction false} RemoveSplits(q: seq<Task>, t: Task) returns (k: nat)
    requires t in q
    ensures k < |q| && q[k] == t && t !in q[..k] && Remove(q, t) == q[..k] + q[k + 1..]
  {
    if q[0] == t {
      k := 0;
    } else {
      k := RemoveSplits(q[1..], t);
      assert q[1..][..k] == q[1..k + 1] && q[1..][k + 1..] == q[k + 2..];
      assert q[..k + 1] == [q[0]] + q[1..k + 1];
      k := k + 1;
    }
  }

  lemma {:induction false} RemoveOnly(q: seq<Task>, t: Task, x: Task)
    requires x in Remove(q, t)
    ensures x in q
  {
    if q[0] != t && x != q[0] {
      RemoveOnly(q[1..], t, x);
    }
  }

  lemma {:induction false} RemoveOthers(q: seq<Task>, t: Task, x: Task)
    requires x in q && x != t
    ensures x in Remove(q, t)
  {
    if q[0] != t && x != q[0] {
      RemoveOthers(q[1..], t, x);
    }
  }

  lemma {:induction false} RemoveAbsent(q: seq<Task>, t: Task)
    requires t !in q
    ensures Remove(q, t) == q
  {
    if q != [] {
      RemoveAbsent(q[1..], t);
    }
  }

  // ---- the schedule history ---------------------------------------------------------

  /** The schedule without what was cancelled. */
  function Kept(log: seq<Entry>): seq<Task> {
    if log == [] then []
    else
      var front, e := log[..|log| - 1], log[|log| - 1];
      Kept(front) + if e.cancelled then [] else [e.task]
  }

  lemma KeptPush(log: seq<Entry>, t: Task)
    ensures Kept(log + [Entry(t, false)]) == Kept(log) + [t]
  {
    assert (log + [Entry(t, false)])[..|log|] == log;
  }

  /** Striking the last standing entry of t takes the last t out of the schedule. */
  lemma {:induction false} KeptStrike(log: seq<Entry>, x: seq<Task>, t: Task, y: seq<Task>)
    requires Kept(log) == x + [t] + y && t !in y
    ensures Kept(Strike(log, t)) == x + y
  {
    var front, e := log[..|log| - 1], log[|log| - 1];
    var last := if y == [] then t else y[|y| - 1];
    assert Kept(log)[|Kept(log)| - 1] == last && (y != [] ==> last in y);
    if e == Entry(t, false) {
      assert Kept(log)[|Kept(log)| - 1] == t;
      assert (front + [Entry(t, true)])[..|front|] == front;
      assert Kept(front) == Kept(log)[..|Kept(log)| - 1] == x;
    } else {
      var rest := Strike(front, t);
      assert (rest + [e])[..|rest|] == rest;
      if e.cancelled {
        KeptStrike(front, x, t, y);
      } else {
        assert Kept(log)[|Kept(log)| - 1] == e.task != t;
        assert y != [];
        var y' := y[..|y| - 1];
        assert Kept(front) == Kept(log)[..|Kept(log)| - 1] == x + [t] + y';
        KeptStrike(front, x, t, y');
        assert y == y' + [e.task] && x + y == x + y' + [e.task];
      }
    }
  }
}
