/** Closing a socket (src/core/sock.c:80-126). An incoming connection sits in two tables, its
    bind's and the root's; the bind pass must take it out of both, so that the pass over the
    root's own table frees each connection exactly once. */
module Teardown {
  import opened Slots

  /** `idx` is the connection's slot in the root's table. */
  datatype Peer = Peer(incoming: bool, idx: nat)

  /** While a table is being emptied it is either already back in its initial state or still
      has something in it. */
  predicate Drainable(a: Arr) {
    Filled(a) || (0 < a.inc && a == Init(a.inc))
  }

  /** Up to one growth step in use. */
  predicate Small(a: Arr) {
    a.last <= a.inc
  }

  /** a is some later state of the table that started as a0. */
  predicate Later(a0: Arr, a: Arr) {
    a.inc == a0.inc && (if Small(a0) then Small(a) else Filled(a) && !Small(a))
  }

  ghost predicate Distinct(s: seq<nat>) {
    forall i, j :: 0 <= i < j < |s| ==> s[i] != s[j]
  }

  /** Every slot of the root's table knows its own index; every entry of a bind's table is an
      incoming connection of the root, in no other entry; every incoming connection has one. */
  ghost predicate Consistent(conns: Arr, tables: seq<Arr>, peers: seq<Peer>) {
    && (forall i :: i in Live(conns) ==> Live(conns)[i] < |peers| && peers[Live(conns)[i]].idx == i)
    && (forall b, j :: 0 <= b < |tables| && j in Live(tables[b]) ==>
          Listed(conns, peers, Live(tables[b])[j]))
    && (forall b, j, c, k | 0 <= b < |tables| && 0 <= c < |tables| && j in Live(tables[b]) && k in Live(tables[c]) ::
          Live(tables[b])[j] == Live(tables[c])[k] ==> b == c && j == k)
    && (forall i :: i in Live(conns) && peers[Live(conns)[i]].incoming ==> InSomeTable(tables, Live(conns)[i]))
  }

  ghost predicate Listed(conns: Arr, peers: seq<Peer>, id: nat) {
    id < |peers| && peers[id].incoming && peers[id].idx in Live(conns) && Live(conns)[peers[id].idx] == id
  }

  ghost predicate InSomeTable(tables: seq<Arr>, id: nat) {
    exists b, j :: 0 <= b < |tables| && j in Live(tables[b]) && Live(tables[b])[j] == id
  }

  /** Taking an entry out of its bind's table and out of the root's keeps the two in step. */
  lemma UnlinkBoth(conns: Arr, tables: seq<Arr>, peers: seq<Peer>, b: nat, j: nat, conns': Arr, table': Arr)
    requires Consistent(conns, tables, peers) && b < |tables| && j in Live(tables[b])
    requires var id := Live(tables[b])[j];
             id < |peers| && Live(conns') == Live(conns) - {peers[id].idx}
    requires Live(table') == Live(tables[b]) - {j}
    ensures Consistent(conns', tables[b := table'], peers)
  {
    var id, tables' := Live(tables[b])[j], tables[b := table'];
    assert Listed(conns, peers, id);
    forall c, k | 0 <= c < |tables| && k in Live(tables'[c])
      ensures k in Live(tables[c]) && Live(tables'[c])[k] == Live(tables[c])[k]
      ensures Listed(conns', peers, Live(tables'[c])[k])
    {
      StaysListed(conns, tables, peers, b, j, conns', table', c, k);
    }
    forall i | i in Live(conns') && peers[Live(conns')[i]].incoming
      ensures InSomeTable(tables', Live(conns')[i])
    {
      StaysInTable(conns, tables, peers, b, j, conns', table', i);
    }
  }

  /** An entry that is left is another connection than the one taken out. */
  lemma StaysListed(conns: Arr, tables: seq<Arr>, peers: seq<Peer>, b: nat, j: nat, conns': Arr, table': Arr,
                    c: nat, k: nat)
    requires Consistent(conns, tables, peers) && b < |tables| && j in Live(tables[b])
    requires var id := Live(tables[b])[j];
             id < |peers| && Live(conns') == Live(conns) - {peers[id].idx}
    requires Live(table') == Live(tables[b]) - {j}
    requires c < |tables| && k in Live(tables[b := table'][c])
    ensures k in Live(tables[c]) && Live(tables[b := table'][c])[k] == Live(tables[c])[k]
    ensures Listed(conns', peers, Live(tables[c])[k])
  {
    assert Listed(conns, peers, Live(tables[b])[j]);
    assert k in Live(tables[c]) && Listed(conns, peers, Live(tables[c])[k]);
  }

  /** A connection that is left has kept its entry. */
  lemma StaysInTable(conns: Arr, tables: seq<Arr>, peers: seq<Peer>, b: nat, j: nat, conns': Arr, table': Arr, i: nat)
    requires Consistent(conns, tables, peers) && b < |tables| && j in Live(tables[b])
    requires var id := Live(tables[b])[j];
             id < |peers| && Live(conns') == Live(conns) - {peers[id].idx}
    requires Live(table') == Live(tables[b]) - {j}
    requires i in Live(conns') && Live(conns')[i] < |peers| && peers[Live(conns')[i]].incoming
    ensures InSomeTable(tables[b := table'], Live(conns')[i])
  {
    var other, tables' := Live(conns)[i], tables[b := table'];
    assert i in Live(conns) && InSomeTable(tables, other);
    var c, k :| 0 <= c < |tables| && k in Live(tables[c]) && Live(tables[c])[k] == other;
    assert k in Live(tables'[c]);
  }

  /** `all` are the connections the socket had; each is either freed, once, or still listed. */
  ghost predicate Tracked(conns: Arr, tables: seq<Arr>, peers: seq<Peer>, freed: seq<nat>, all: set<nat>) {
    && Consistent(conns, tables, peers)
    && Distinct(freed)
    && (forall id :: id in freed ==> id in all && id !in Live(conns).Values)
    && (forall id :: id in all ==> id in freed || id in Live(conns).Values)
    && Live(conns).Values <= all
  }

  /** Freeing one entry of the root's table keeps the account straight. */
  lemma FreeOne(conns: Arr, peers: seq<Peer>, freed: seq<nat>, all: set<nat>, i: nat, conns': Arr)
    requires i in Live(conns) && Live(conns') == Live(conns) - {i}
    requires forall k :: k in Live(conns) ==> Live(conns)[k] < |peers| && peers[Live(conns)[k]].idx == k
    requires Distinct(freed) && Live(conns).Values <= all
    requires forall id :: id in freed ==> id in all && id !in Live(conns).Values
    requires forall id :: id in all ==> id in freed || id in Live(conns).Values
    ensures var freed' := freed + [Live(conns)[i]];
            && Distinct(freed') && Live(conns').Values <= all
            && (forall id :: id in freed' ==> id in all && id !in Live(conns').Values)
            && (forall id :: id in all ==> id in freed' || id in Live(conns').Values)
  {
    var id := Live(conns)[i];
    assert id in Live(conns).Values;
    forall v | v in Live(conns').Values
      ensures v in Live(conns).Values && v != id
    {
      var k :| k in Live(conns') && Live(conns')[k] == v;
      assert k in Live(conns);
    }
    forall v | v in Live(conns).Values && v != id
      ensures v in Live(conns').Values
    {
      var k :| k in Live(conns) && Live(conns)[k] == v;
      assert k in Live(conns');
    }
  }

  /** i is the first occupied slot of a table being emptied, -1 when it is back to its start. */
  ghost predicate FirstLeft(a: Arr, i: int) {
    if i == -1 then a == Init(a.inc)
    else Occupied(a, i) && forall k :: 0 <= k < i ==> !Occupied(a, k)
  }

  lemma BeginFindsFirst(a: Arr)
    requires Drainable(a)
    ensures Begin(a).Ok? && FirstLeft(a, Begin(a).value) && -1 <= Begin(a).value <= a.last
  {
    if Filled(a) {
      var w :| 0 <= w < a.last && a.mem[w].Ref?;
      assert Occupied(a, w);
    }
  }

  /** The cursor survives the removal under it, also when that resets the table. */
  lemma NextFindsFirst(a0: Arr, i: nat, a: Arr)
    requires Drainable(a) && FirstLeft(a0, i) && Live(a) == Live(a0) - {i}
    requires Filled(a) ==> a.last == a0.last
    ensures Next(a, i).Ok? && FirstLeft(a, Next(a, i).value)
    ensures Next(a, i).value == -1 || i < Next(a, i).value < a.last == a0.last
  {
    forall k | 0 <= k <= i
      ensures !Occupied(a, k)
    {
      assert Occupied(a, k) ==> k in Live(a) && Occupied(a0, k);
    }
    if Filled(a) {
      var w :| 0 <= w < a.last && a.mem[w].Ref?;
      assert Occupied(a, w);
    }
  }

  /** One removal from a table that is being emptied. */
  lemma ClearStep(a0: Arr, a: Arr, i: nat)
    requires Drainable(a) && Later(a0, a) && Occupied(a, i)
    ensures var r := Clear(a, i);
            && (Small(a0) ==> r.Ok?)
            && (r.Ok? ==> Drainable(r.value) && Later(a0, r.value) && Live(r.value) == Live(a) - {i}
                          && (Filled(r.value) ==> r.value.last == a.last))
  {
    ClearWhileDraining(a, i);
  }

  class Socket {
    var conns: Arr
    var binds: Arr
    var tables: seq<Arr>  // the connection table of each bind, by bind number
    const peers: seq<Peer>
    var freed: seq<nat>

    constructor (conns: Arr, binds: Arr, tables: seq<Arr>, peers: seq<Peer>)
      ensures this.conns == conns && this.binds == binds && this.tables == tables
      ensures this.peers == peers && freed == []
    {
      this.conns, this.binds, this.tables, this.peers, this.freed := conns, binds, tables, peers, [];
    }

    ghost predicate Tracks(all: set<nat>)
      reads this
    {
      && Drainable(conns) && (forall b :: 0 <= b < |tables| ==> Drainable(tables[b]))
      && Tracked(conns, tables, peers, freed, all)
    }

    /** One turn of the loop in fsock_sock_conn_parr_term on the table of bind b; returns the
        next cursor. */
    method TermBindConn(b: nat, i: nat, ghost conns0: Arr, ghost table0: Arr, ghost all: set<nat>)
      returns (r: Outcome<int>)
      requires b < |tables| && Tracks(all) && Occupied(tables[b], i) && FirstLeft(tables[b], i)
      requires Later(conns0, conns) && Later(table0, tables[b])
      modifies this`conns, this`tables, this`freed
      ensures Small(conns0) && Small(table0) ==> r.Ok?
      ensures r.Ok? ==> Tracks(all) && Later(conns0, conns)
      ensures r.Ok? ==> |tables| == |old(tables)| && tables == old(tables)[b := tables[b]]
      ensures r.Ok? ==> Later(table0, tables[b]) && FirstLeft(tables[b], r.value)
      ensures r.Ok? ==> -1 <= r.value <= tables[b].last && (r.value == -1 || tables[b].last - r.value < old(tables)[b].last - i)
    {
      var id := tables[b].mem[i].id;
      assert i in Live(tables[b]) && Live(tables[b])[i] == id && Listed(conns, peers, id);
      ghost var tables1, conns1 := tables, conns;
      if peers[id].incoming {
        ClearStep(conns0, conns, peers[id].idx);
        var cleared := Clear(conns, peers[id].idx);
        if cleared.Fault? {
          return Fault;
        }
        conns := cleared.value;
      }
      FreeOne(conns1, peers, freed, all, peers[id].idx, conns);
      freed := freed + [id];
      ClearStep(table0, tables[b], i);
      var cleared := Clear(tables[b], i);
      if cleared.Fault? {
        return Fault;
      }
      tables := tables[b := cleared.value];
      UnlinkBoth(conns1, tables1, peers, b, i, conns, tables[b]);
      NextFindsFirst(tables1[b], i, tables[b]);
      r := Next(tables[b], i);
    }

    /** fsock_sock_conn_parr_term on the table of bind b: every entry leaves both tables. */
    method TermBindConns(b: nat, ghost conns0: Arr, ghost all: set<nat>) returns (r: Outcome<()>)
      requires b < |tables| && Tracks(all) && Later(conns0, conns)
      modifies this`conns, this`tables, this`freed
      ensures Small(conns0) && Small(old(tables)[b]) ==> r.Ok?
      ensures r.Ok? ==> Tracks(all) && Later(conns0, conns) && Small(old(tables)[b])
      ensures r.Ok? ==> |tables| == |old(tables)| && tables == old(tables)[b := Init(old(tables)[b].inc)]
    {
      ghost var table0 := tables[b];
      BeginFindsFirst(tables[b]);
      var i := Begin(tables[b]).value;
      while i != -1
        invariant |tables| == |old(tables)| && tables == old(tables)[b := tables[b]]
        invariant Tracks(all) && Later(table0, tables[b]) && Later(conns0, conns)
        invariant -1 <= i <= tables[b].last && FirstLeft(tables[b], i)
        decreases if i == -1 then 0 else tables[b].last - i
      {
        var step := TermBindConn(b, i, conns0, table0, all);
        if step.Fault? {
          return Fault;
        }
        i := step.value;
      }
      r := Ok(());
    }

    /** What the bind pass still has to visit: distinct binds; every other table is empty, and
        the ones already visited were small. */
    ghost predicate BindsLeft(binds0: Arr, tables0: seq<Arr>)
      reads this
    {
      && Drainable(binds) && Later(binds0, binds) && |tables| == |tables0|
      && (forall k :: k in Live(binds) ==> Live(binds)[k] < |tables| && tables[Live(binds)[k]] == tables0[Live(binds)[k]])
      && (forall j, k :: j in Live(binds) && k in Live(binds) && Live(binds)[j] == Live(binds)[k] ==> j == k)
      && (forall b :: 0 <= b < |tables| && b !in Live(binds).Values ==>
            Live(tables[b]) == map[] && Small(tables0[b]))
    }

    /** One turn of fsock_sock_bind_parr_term. */
    method TermBind(i: nat, ghost conns0: Arr, ghost binds0: Arr, ghost tables0: seq<Arr>, ghost all: set<nat>)
      returns (r: Outcome<int>)
      requires Tracks(all) && BindsLeft(binds0, tables0) && Occupied(binds, i) && FirstLeft(binds, i)
      requires Later(conns0, conns)
      modifies this
      ensures (Small(conns0) && Small(binds0) && forall b :: 0 <= b < |tables0| ==> Small(tables0[b])) ==> r.Ok?
      ensures r.Ok? ==> Tracks(all) && BindsLeft(binds0, tables0) && Later(conns0, conns)
      ensures r.Ok? ==> FirstLeft(binds, r.value)
      ensures r.Ok? ==> -1 <= r.value <= binds.last && (r.value == -1 || binds.last - r.value < old(binds).last - i)
    {
      var b := binds.mem[i].id;
      assert i in Live(binds) && Live(binds)[i] == b;
      ghost var binds1, tables1 := binds, tables;
      assert tables[b] == tables0[b];
      var step := TermBindConns(b, conns0, all);
      if step.Fault? {
        return Fault;
      }
      ClearStep(binds0, binds, i);
      var cleared := Clear(binds, i);
      if cleared.Fault? {
        return Fault;
      }
      binds := cleared.value;
      VisitedBind(binds1, tables1, i, binds, tables, tables0);
      NextFindsFirst(binds1, i, binds);
      r := Next(binds, i);
    }

    /** fsock_sock_bind_parr_term. */
    method TermBinds(ghost conns0: Arr, ghost all: set<nat>) returns (r: Outcome<()>)
      requires Tracks(all) && BindsLeft(binds, tables) && Later(conns0, conns)
      modifies this
      ensures (Small(conns0) && Small(old(binds)) && forall b :: 0 <= b < |old(tables)| ==> Small(old(tables)[b])) ==> r.Ok?
      ensures r.Ok? ==> Tracks(all) && Later(conns0, conns) && Small(old(binds)) && binds == Init(old(binds).inc)
      ensures r.Ok? ==> |tables| == |old(tables)| && forall b :: 0 <= b < |tables| ==>
                Live(tables[b]) == map[] && Small(old(tables)[b])
    {
      ghost var binds0, tables0 := binds, tables;
      BeginFindsFirst(binds);
      var i := Begin(binds).value;
      while i != -1
        invariant Tracks(all) && BindsLeft(binds0, tables0) && Later(conns0, conns)
        invariant -1 <= i <= binds.last && FirstLeft(binds, i)
        decreases if i == -1 then 0 else binds.last - i
      {
        var step := TermBind(i, conns0, binds0, tables0, all);
        if step.Fault? {
          return Fault;
        }
        i := step.value;
      }
      r := Ok(());
    }

    /** fsock_sock_conn_parr_term on the root's own table, after the bind pass: only outgoing
        connections are left, so no slot is cleared twice. */
    method TermOwnConns(ghost conns0: Arr, ghost all: set<nat>) returns (r: Outcome<()>)
      requires Tracks(all) && Later(conns0, conns)
      requires forall b :: 0 <= b < |tables| ==> Live(tables[b]) == map[]
      modifies this`conns, this`freed
      ensures Small(conns0) ==> r.Ok?
      ensures r.Ok? ==> Tracks(all) && Small(conns0) && conns == Init(conns0.inc)
    {
      BeginFindsFirst(conns);
      var i := Begin(conns).value;
      while i != -1
        invariant Tracks(all) && Later(conns0, conns)
        invariant -1 <= i <= conns.last && FirstLeft(conns, i)
        decreases if i == -1 then 0 else conns.last - i
      {
        ghost var conns1, freed1 := conns, freed;
        var id := conns.mem[i].id;
        assert i in Live(conns) && Live(conns)[i] == id;
        assert peers[id].incoming ==> InSomeTable(tables, id);
        assert !InSomeTable(tables, id);
        if peers[id].incoming {
          assert false;
        }
        freed := freed + [id];
        ClearStep(conns0, conns, i);
        var cleared := Clear(conns, i);
        if cleared.Fault? {
          return Fault;
        }
        conns := cleared.value;
        FreeOne(conns1, peers, freed1, all, i, conns);
        NextFindsFirst(conns1, i, conns);
        i := Next(conns, i).value;
      }
      r := Ok(());
    }

    /** fsock_sock_term on a root socket. It stays in bounds iff no table ever outgrew one
        growth step; then each connection was freed exactly once and every table is back in
        its initial state, so the size assertions of fsock_parr_term hold. */
    method Term(ghost all: set<nat>) returns (r: Outcome<()>)
      requires Good(conns) && Good(binds) && forall b :: 0 <= b < |tables| ==> Good(tables[b])
      requires Consistent(conns, tables, peers) && freed == [] && all == Live(conns).Values
      requires forall k :: k in Live(binds) ==> Live(binds)[k] < |tables|
      requires forall j, k :: j in Live(binds) && k in Live(binds) && Live(binds)[j] == Live(binds)[k] ==> j == k
      requires forall b :: 0 <= b < |tables| ==> b in Live(binds).Values
      modifies this
      ensures r.Ok? <==> Small(old(conns)) && Small(old(binds))
                         && forall b :: 0 <= b < |old(tables)| ==> Small(old(tables)[b])
      ensures r.Ok? ==> Distinct(freed) && (forall id :: id in freed <==> id in all)
      ensures r.Ok? ==> conns == Init(old(conns).inc) && binds == Init(old(binds).inc)
      ensures r.Ok? ==> forall b :: 0 <= b < |tables| ==> Live(tables[b]) == map[]
    {
      ghost var conns0, binds0, tables0 := conns, binds, tables;
      var pass := TermBinds(conns0, all);
      if pass.Ok? {
        pass := TermOwnConns(conns0, all);
      }
      r := pass;
      if r.Ok? {
        assert Live(conns) == map[];
      }
    }
  }

  lemma VisitedBind(binds: Arr, tables: seq<Arr>, i: nat, binds': Arr, tables': seq<Arr>, tables0: seq<Arr>)
    requires i in Live(binds) && Live(binds') == Live(binds) - {i} && |tables| == |tables0|
    requires forall k :: k in Live(binds) ==> Live(binds)[k] < |tables| && tables[Live(binds)[k]] == tables0[Live(binds)[k]]
    requires forall j, k :: j in Live(binds) && k in Live(binds) && Live(binds)[j] == Live(binds)[k] ==> j == k
    requires forall b :: 0 <= b < |tables| && b !in Live(binds).Values ==> Live(tables[b]) == map[] && Small(tables0[b])
    requires Small(tables[Live(binds)[i]])
    requires tables' == tables[Live(binds)[i] := Init(tables[Live(binds)[i]].inc)]
    ensures forall k :: k in Live(binds') ==> tables'[Live(binds')[k]] == tables0[Live(binds')[k]]
    ensures forall b :: 0 <= b < |tables| && b !in Live(binds').Values ==>
              Live(tables'[b]) == map[] && Small(tables0[b])
  {
    forall k | k in Live(binds) && k != i
      ensures Live(binds)[k] in Live(binds').Values
    {
      assert k in Live(binds') && Live(binds')[k] == Live(binds)[k];
    }
  }
}
