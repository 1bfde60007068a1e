/** How the tables that closing works on come about: connecting, accepting and binding, from empty
    tables (src/core/global.c:146-184, src/core/sock.c:177-200). A connection is entered in its
    bind's table first and then in the root's; nothing is taken out before the socket is closed. */
module Building {
  import opened Slots
  import opened Teardown
  import Broadcast

  /** The connections are numbered as they come, and so are the binds. */
  datatype Tables = Tables(conns: Arr, binds: Arr, tables: seq<Arr>, peers: seq<Peer>)

  /** `junk` is what a growth step of the table at hand would bring. */
  datatype Growth =
    | Connect(junk: seq<Slot>)
    | Accept(b: nat, bindJunk: seq<Slot>, junk: seq<Slot>)
    | Bind(junk: seq<Slot>)

  function Empty(inc: nat): Tables {
    Tables(Init(inc), Init(inc), [], [])
  }

  /** The bind exists, and the junk has the right size. */
  predicate Fits(t: Tables, g: Growth) {
    match g
    case Connect(junk) => |junk| == t.conns.inc
    case Accept(b, bindJunk, junk) => b < |t.tables| && |bindJunk| == t.tables[b].inc && |junk| == t.conns.inc
    case Bind(junk) => |junk| == t.binds.inc
  }

  function Grow(t: Tables, g: Growth): Outcome<Tables>
    requires Fits(t, g)
  {
    match g
    case Connect(junk) =>
      (match Insert(t.conns, |t.peers|, junk)
       case Fault => Fault
       case Ok(p) => Ok(t.(conns := p.0, peers := t.peers + [Peer(false, p.1)])))
    case Accept(b, bindJunk, junk) =>
      (match Insert(t.tables[b], |t.peers|, bindJunk)
       case Fault => Fault
       case Ok(q) =>
         match Insert(t.conns, |t.peers|, junk)
         case Fault => Fault
         case Ok(p) => Ok(t.(conns := p.0, tables := t.tables[b := q.0], peers := t.peers + [Peer(true, p.1)])))
    case Bind(junk) =>
      match Insert(t.binds, |t.tables|, junk)
      case Fault => Fault
      case Ok(p) => Ok(t.(binds := p.0, tables := t.tables + [Init(t.binds.inc)]))
  }

  /** Good, and used up to `last` without a hole. */
  predicate Dense(a: Arr) {
    Good(a) && a.last <= |a.mem| && NoHole(a)
  }

  /** An insertion then goes to the end, and is that of the map. */
  lemma InsertDense(a: Arr, id: nat, junk: seq<Slot>)
    requires Dense(a) && |junk| == a.inc
    ensures Insert(a, id, junk).Ok?
    ensures var (b, ret) := Insert(a, id, junk).value;
            && Dense(b) && b.inc == a.inc && ret == a.last && b.last == a.last + 1
            && a.last !in Live(a) && Live(b) == Live(a)[a.last := id]
  {
    InsertRefines(a, id, junk);
    GoodBounds(a);
    var g := Grown(a, junk);
    assert forall i :: 0 <= i < a.last ==> g.mem[i] == a.mem[i];
    assert FirstHole(g, 0) == a.last;
  }

  lemma DenseInit(inc: nat)
    requires 2 <= inc
    ensures Dense(Init(inc)) && Live(Init(inc)) == map[]
  {
  }

  /** Everything that closing asks for; and each table holds as many entries as were made. */
  ghost predicate Built(t: Tables) {
    && Dense(t.conns) && Dense(t.binds) && (forall b :: 0 <= b < |t.tables| ==> Dense(t.tables[b]))
    && t.conns.last == |t.peers| && t.binds.last == |t.tables|
    && (forall i :: i in Live(t.conns) <==> 0 <= i < |t.peers|)
    && (forall i :: i in Live(t.conns) ==> Live(t.conns)[i] == i)
    && (forall i :: i in Live(t.binds) <==> 0 <= i < |t.tables|)
    && (forall i :: i in Live(t.binds) ==> Live(t.binds)[i] == i)
    && Consistent(t.conns, t.tables, t.peers)
  }

  lemma EmptyBuilt(inc: nat)
    requires 2 <= inc
    ensures Built(Empty(inc))
  {
    DenseInit(inc);
  }

  /** One more connection of the root that is in no bind's table. */
  lemma ConnectKeeps(t: Tables, conns': Arr)
    requires Consistent(t.conns, t.tables, t.peers) && |t.peers| !in Live(t.conns)
    requires forall i :: i in Live(t.conns) ==> Live(t.conns)[i] == i
    requires Live(conns') == Live(t.conns)[|t.peers| := |t.peers|]
    ensures Consistent(conns', t.tables, t.peers + [Peer(false, |t.peers|)])
  {
    var peers := t.peers + [Peer(false, |t.peers|)];
    forall b, j | 0 <= b < |t.tables| && j in Live(t.tables[b])
      ensures Listed(conns', peers, Live(t.tables[b])[j])
    {
      assert Listed(t.conns, t.peers, Live(t.tables[b])[j]);
    }
    forall i | i in Live(conns') && peers[Live(conns')[i]].incoming
      ensures InSomeTable(t.tables, Live(conns')[i])
    {
      assert i in Live(t.conns) && InSomeTable(t.tables, Live(t.conns)[i]);
    }
  }

  /** What bind b's table held, and the new entry. */
  lemma Entries(t: Tables, b: nat, table': Arr, j: nat, d: nat, k: nat)
    requires Consistent(t.conns, t.tables, t.peers) && b < |t.tables|
    requires j !in Live(t.tables[b]) && Live(table') == Live(t.tables[b])[j := |t.peers|]
    requires d < |t.tables| && k in Live(t.tables[b := table'][d])
    ensures var id := Live(t.tables[b := table'][d])[k];
            if d == b && k == j then id == |t.peers|
            else k in Live(t.tables[d]) && id == Live(t.tables[d])[k] < |t.peers| && Listed(t.conns, t.peers, id)
  {
    if !(d == b && k == j) {
      assert Listed(t.conns, t.peers, Live(t.tables[d])[k]);
    }
  }

  lemma StillInSomeTable(t: Tables, b: nat, table': Arr, j: nat, id: nat)
    requires b < |t.tables| && j !in Live(t.tables[b]) && Live(table') == Live(t.tables[b])[j := |t.peers|]
    requires id == |t.peers| || InSomeTable(t.tables, id)
    ensures InSomeTable(t.tables[b := table'], id)
  {
    var tables := t.tables[b := table'];
    if id == |t.peers| {
      assert j in Live(tables[b]) && Live(tables[b])[j] == id;
    } else {
      var d, k :| 0 <= d < |t.tables| && k in Live(t.tables[d]) && Live(t.tables[d])[k] == id;
      assert k in Live(tables[d]) && Live(tables[d])[k] == id;
    }
  }

  /** One more connection of the root, and of bind b, at slot j there. */
  ghost predicate Accepted(t: Tables, b: nat, conns': Arr, table': Arr, j: nat) {
    && Consistent(t.conns, t.tables, t.peers) && |t.peers| !in Live(t.conns) && b < |t.tables|
    && (forall i :: i in Live(t.conns) ==> Live(t.conns)[i] == i)
    && Live(conns') == Live(t.conns)[|t.peers| := |t.peers|]
    && j !in Live(t.tables[b]) && Live(table') == Live(t.tables[b])[j := |t.peers|]
  }

  lemma AcceptListed(t: Tables, b: nat, conns': Arr, table': Arr, j: nat, d: nat, k: nat)
    requires Accepted(t, b, conns', table', j) && d < |t.tables| && k in Live(t.tables[b := table'][d])
    ensures Listed(conns', t.peers + [Peer(true, |t.peers|)], Live(t.tables[b := table'][d])[k])
  {
    Entries(t, b, table', j, d, k);
  }

  lemma AcceptUnique(t: Tables, b: nat, conns': Arr, table': Arr, j: nat, d: nat, k: nat, e: nat, l: nat)
    requires Accepted(t, b, conns', table', j) && d < |t.tables| && e < |t.tables|
    requires k in Live(t.tables[b := table'][d]) && l in Live(t.tables[b := table'][e])
    requires Live(t.tables[b := table'][d])[k] == Live(t.tables[b := table'][e])[l]
    ensures d == e && k == l
  {
    Entries(t, b, table', j, d, k);
    Entries(t, b, table', j, e, l);
  }

  lemma AcceptIncoming(t: Tables, b: nat, conns': Arr, table': Arr, j: nat, i: nat)
    requires Accepted(t, b, conns', table', j) && i in Live(conns')
    requires (t.peers + [Peer(true, |t.peers|)])[Live(conns')[i]].incoming
    ensures InSomeTable(t.tables[b := table'], Live(conns')[i])
  {
    assert i != |t.peers| ==> i in Live(t.conns) && InSomeTable(t.tables, Live(t.conns)[i]);
    StillInSomeTable(t, b, table', j, i);
  }

  lemma AcceptKeeps(t: Tables, b: nat, conns': Arr, table': Arr, j: nat)
    requires Accepted(t, b, conns', table', j)
    ensures Consistent(conns', t.tables[b := table'], t.peers + [Peer(true, |t.peers|)])
  {
    var peers, tables := t.peers + [Peer(true, |t.peers|)], t.tables[b := table'];
    forall d, k | 0 <= d < |tables| && k in Live(tables[d])
      ensures Listed(conns', peers, Live(tables[d])[k])
    {
      AcceptListed(t, b, conns', table', j, d, k);
    }
    forall d, k, e, l | 0 <= d < |tables| && 0 <= e < |tables| && k in Live(tables[d]) && l in Live(tables[e])
                        && Live(tables[d])[k] == Live(tables[e])[l]
      ensures d == e && k == l
    {
      AcceptUnique(t, b, conns', table', j, d, k, e, l);
    }
    forall i | i in Live(conns')
      ensures Live(conns')[i] < |peers| && peers[Live(conns')[i]].idx == i
    {
    }
    forall i | i in Live(conns') && peers[Live(conns')[i]].incoming
      ensures InSomeTable(tables, Live(conns')[i])
    {
      AcceptIncoming(t, b, conns', table', j, i);
    }
  }

  /** One more bind, with no connections yet. */
  lemma BindKeeps(t: Tables, table: Arr)
    requires Consistent(t.conns, t.tables, t.peers) && Live(table) == map[]
    ensures Consistent(t.conns, t.tables + [table], t.peers)
  {
    var tables := t.tables + [table];
    forall d, k | 0 <= d < |tables| && k in Live(tables[d])
      ensures d < |t.tables| && tables[d] == t.tables[d] && Listed(t.conns, t.peers, Live(tables[d])[k])
    {
      assert d < |t.tables|;
    }
    forall i | i in Live(t.conns) && t.peers[Live(t.conns)[i]].incoming
      ensures InSomeTable(tables, Live(t.conns)[i])
    {
      assert InSomeTable(t.tables, Live(t.conns)[i]);
      var d, k :| 0 <= d < |t.tables| && k in Live(t.tables[d]) && Live(t.tables[d])[k] == Live(t.conns)[i];
      assert tables[d] == t.tables[d];
    }
  }

  /** No insertion fails, and the tables stay as closing wants them. */
  lemma GrowKeeps(t: Tables, g: Growth)
    requires Built(t) && Fits(t, g)
    ensures Grow(t, g).Ok? && Built(Grow(t, g).value)
  {
    match g {
      case Connect(junk) =>
        InsertDense(t.conns, |t.peers|, junk);
        ConnectKeeps(t, Insert(t.conns, |t.peers|, junk).value.0);
      case Accept(b, bindJunk, junk) =>
        InsertDense(t.tables[b], |t.peers|, bindJunk);
        InsertDense(t.conns, |t.peers|, junk);
        AcceptKeeps(t, b, Insert(t.conns, |t.peers|, junk).value.0, Insert(t.tables[b], |t.peers|, bindJunk).value.0,
                    t.tables[b].last);
      case Bind(junk) =>
        InsertDense(t.binds, |t.tables|, junk);
        DenseInit(t.binds.inc);
        BindKeeps(t, Init(t.binds.inc));
    }
  }

  predicate AllFit(t: Tables, gs: seq<Growth>)
    decreases |gs|
  {
    gs == [] || (Fits(t, gs[0]) && match Grow(t, gs[0]) case Fault => true case Ok(u) => AllFit(u, gs[1..]))
  }

  function GrowAll(t: Tables, gs: seq<Growth>): Outcome<Tables>
    requires AllFit(t, gs)
    decreases |gs|
  {
    if gs == [] then Ok(t)
    else
      match Grow(t, gs[0])
      case Fault => Fault
      case Ok(u) => GrowAll(u, gs[1..])
  }

  /** In any order and number, whatever memory holds. */
  lemma {:induction false} GrowAllKeeps(t: Tables, gs: seq<Growth>)
    requires Built(t) && AllFit(t, gs)
    ensures GrowAll(t, gs).Ok? && Built(GrowAll(t, gs).value)
    decreases |gs|
  {
    if gs != [] {
      GrowKeeps(t, gs[0]);
      GrowAllKeeps(Grow(t, gs[0]).value, gs[1..]);
    }
  }

  // ---- what a history comes to --------------------------------------------------------------------

  /** The connections that are made, in order: incoming or not. */
  function Kinds(gs: seq<Growth>): seq<bool> {
    if gs == [] then []
    else (match gs[0] case Connect(_) => [false] case Accept(_, _, _) => [true] case Bind(_) => []) + Kinds(gs[1..])
  }

  function Binds(gs: seq<Growth>): nat {
    if gs == [] then 0 else (if gs[0].Bind? then 1 else 0) + Binds(gs[1..])
  }

  /** The numbers of the connections that bind b accepts, in order, the next connection of all
      getting number n. */
  function AcceptedBy(gs: seq<Growth>, b: nat, n: nat): seq<nat> {
    if gs == [] then []
    else (if gs[0].Accept? && gs[0].b == b then [n] else []) + AcceptedBy(gs[1..], b, if gs[0].Bind? then n else n + 1)
  }

  /** The table holds exactly these, in slot order. */
  ghost predicate Lists(a: Arr, ids: seq<nat>) {
    a.last == |ids| && forall j :: (j in Live(a) <==> 0 <= j < |ids|) && (j in Live(a) ==> Live(a)[j] == ids[j])
  }

  /** Bind b's table, or the one it will start with. */
  function TableOf(t: Tables, b: nat): Arr {
    if b < |t.tables| then t.tables[b] else Init(t.binds.inc)
  }

  predicate Uniform(t: Tables, inc: nat) {
    t.conns.inc == inc && t.binds.inc == inc && forall b :: 0 <= b < |t.tables| ==> t.tables[b].inc == inc
  }

  lemma GrowUniform(t: Tables, g: Growth, inc: nat)
    requires Built(t) && Fits(t, g) && Uniform(t, inc) && Grow(t, g).Ok?
    ensures Uniform(Grow(t, g).value, inc)
  {
  }

  /** The number, order and kinds of the connections, and the number of binds. */
  ghost predicate Peered(t: Tables, gs: seq<Growth>, u: Tables) {
    && |u.tables| == |t.tables| + Binds(gs) && |u.peers| == |t.peers| + |Kinds(gs)|
    && (forall i :: 0 <= i < |t.peers| ==> u.peers[i] == t.peers[i])
    && (forall k :: 0 <= k < |Kinds(gs)| ==> u.peers[|t.peers| + k].incoming == Kinds(gs)[k])
  }

  lemma GrowPeers(t: Tables, g: Growth)
    requires Built(t) && Fits(t, g) && Grow(t, g).Ok?
    ensures Peered(t, [g], Grow(t, g).value)
  {
    assert [g][1..] == [];
  }

  lemma GrowTable(t: Tables, g: Growth, b: nat, ids: seq<nat>)
    requires Built(t) && Fits(t, g) && Lists(TableOf(t, b), ids) && Grow(t, g).Ok?
    ensures Lists(TableOf(Grow(t, g).value, b), ids + AcceptedBy([g], b, |t.peers|))
  {
    assert [g][1..] == [] && ids + [] == ids;
    if g.Accept? && g.b == b {
      InsertDense(t.tables[b], |t.peers|, g.bindJunk);
      assert AcceptedBy([g], b, |t.peers|) == [|t.peers|];
    } else {
      assert AcceptedBy([g], b, |t.peers|) == [];
    }
  }

  lemma KindsFirst(g: Growth, gs: seq<Growth>)
    ensures Kinds([g] + gs) == Kinds([g]) + Kinds(gs) && Binds([g] + gs) == Binds([g]) + Binds(gs)
  {
    assert [g][1..] == [] && ([g] + gs)[1..] == gs;
  }

  lemma PeeredOn(t: Tables, g: Growth, m: Tables, gs: seq<Growth>, u: Tables)
    requires Peered(t, [g], m) && Peered(m, gs, u)
    ensures Peered(t, [g] + gs, u)
  {
    KindsFirst(g, gs);
    var first, n := Kinds([g]), |t.peers|;
    forall k | 0 <= k < |Kinds([g] + gs)|
      ensures u.peers[n + k].incoming == Kinds([g] + gs)[k]
    {
      if k < |first| {
        assert u.peers[n + k] == m.peers[n + k];
      } else {
        assert u.peers[|m.peers| + (k - |first|)].incoming == Kinds(gs)[k - |first|];
      }
    }
  }

  lemma {:induction false} PeersAfter(t: Tables, gs: seq<Growth>, inc: nat)
    requires Built(t) && AllFit(t, gs) && Uniform(t, inc) && GrowAll(t, gs).Ok?
    ensures Peered(t, gs, GrowAll(t, gs).value) && Uniform(GrowAll(t, gs).value, inc)
    decreases |gs|
  {
    if gs != [] {
      var m := Grow(t, gs[0]).value;
      GrowKeeps(t, gs[0]);
      GrowUniform(t, gs[0], inc);
      GrowPeers(t, gs[0]);
      PeersAfter(m, gs[1..], inc);
      assert [gs[0]] + gs[1..] == gs;
      PeeredOn(t, gs[0], m, gs[1..], GrowAll(t, gs).value);
    }
  }

  lemma AcceptedFirst(ids: seq<nat>, g: Growth, gs: seq<Growth>, b: nat, n: nat)
    ensures ids + AcceptedBy([g] + gs, b, n)
         == ids + AcceptedBy([g], b, n) + AcceptedBy(gs, b, n + |Kinds([g])|)
  {
    assert [g][1..] == [] && ([g] + gs)[1..] == gs;
  }

  lemma OneMorePeer(t: Tables, g: Growth)
    requires Fits(t, g) && Grow(t, g).Ok?
    ensures |Grow(t, g).value.peers| == |t.peers| + |Kinds([g])|
  {
    assert [g][1..] == [];
  }

  /** What bind b accepts after the first operation. */
  lemma AcceptedRest(t: Tables, g: Growth, gs: seq<Growth>, b: nat, ids: seq<nat>, all: seq<nat>)
    requires Fits(t, g) && Grow(t, g).Ok? && all == ids + AcceptedBy([g] + gs, b, |t.peers|)
    ensures all == ids + AcceptedBy([g], b, |t.peers|) + AcceptedBy(gs, b, |Grow(t, g).value.peers|)
  {
    OneMorePeer(t, g);
    AcceptedFirst(ids, g, gs, b, |t.peers|);
  }

  lemma {:induction false} TableAfter(t: Tables, gs: seq<Growth>, b: nat, ids: seq<nat>, all: seq<nat>)
    requires Built(t) && AllFit(t, gs) && Lists(TableOf(t, b), ids) && GrowAll(t, gs).Ok?
    requires all == ids + AcceptedBy(gs, b, |t.peers|)
    ensures Lists(TableOf(GrowAll(t, gs).value, b), all)
    decreases |gs|
  {
    if gs == [] {
      assert ids + [] == ids;
    } else {
      assert [gs[0]] + gs[1..] == gs;
      GrowKeeps(t, gs[0]);
      GrowTable(t, gs[0], b, ids);
      AcceptedRest(t, gs[0], gs[1..], b, ids, all);
      TableAfter(Grow(t, gs[0]).value, gs[1..], b, ids + AcceptedBy([gs[0]], b, |t.peers|), all);
    }
  }

  /** A history with growth steps of this size, in which connections are accepted by binds that
      are there by then. */
  predicate WellMade(gs: seq<Growth>, binds: nat, inc: nat) {
    gs == []
    || (&& (match gs[0]
            case Connect(junk) => |junk| == inc
            case Accept(b, bindJunk, junk) => b < binds && |bindJunk| == inc && |junk| == inc
            case Bind(junk) => |junk| == inc)
        && WellMade(gs[1..], if gs[0].Bind? then binds + 1 else binds, inc))
  }

  lemma {:induction false} WellMadeFits(t: Tables, gs: seq<Growth>, inc: nat)
    requires Built(t) && Uniform(t, inc)
    ensures AllFit(t, gs) <==> WellMade(gs, |t.tables|, inc)
    decreases |gs|
  {
    if gs != [] && Fits(t, gs[0]) {
      GrowKeeps(t, gs[0]);
      GrowUniform(t, gs[0], inc);
      GrowPeers(t, gs[0]);
      assert [gs[0]][1..] == [];
      WellMadeFits(Grow(t, gs[0]).value, gs[1..], inc);
    }
  }

  /** From empty tables: the k-th connection is the k-th that was made or accepted, of that kind,
      and each bind's table lists those it accepted, in order. */
  lemma TablesAfter(inc: nat, gs: seq<Growth>)
    requires 2 <= inc && WellMade(gs, 0, inc)
    ensures AllFit(Empty(inc), gs) && GrowAll(Empty(inc), gs).Ok?
    ensures var t := GrowAll(Empty(inc), gs).value;
            && Built(t) && Uniform(t, inc) && |t.peers| == |Kinds(gs)| && |t.tables| == Binds(gs)
            && (forall k :: 0 <= k < |Kinds(gs)| ==> t.peers[k].incoming == Kinds(gs)[k])
            && (forall b :: 0 <= b < Binds(gs) ==> Lists(t.tables[b], AcceptedBy(gs, b, 0)))
  {
    EmptyBuilt(inc);
    WellMadeFits(Empty(inc), gs, inc);
    GrowAllKeeps(Empty(inc), gs);
    PeersAfter(Empty(inc), gs, inc);
    var t := GrowAll(Empty(inc), gs).value;
    forall k | 0 <= k < |Kinds(gs)|
      ensures t.peers[k].incoming == Kinds(gs)[k]
    {
      assert t.peers[|Empty(inc).peers| + k].incoming == Kinds(gs)[k];
    }
    forall b | 0 <= b < Binds(gs)
      ensures Lists(t.tables[b], AcceptedBy(gs, b, 0))
    {
      assert [] + AcceptedBy(gs, b, 0) == AcceptedBy(gs, b, 0);
      TableAfter(Empty(inc), gs, b, [], AcceptedBy(gs, b, 0));
    }
  }

  /** Not more connections were made, binds opened, or connections accepted by one bind than a
      growth step holds. */
  ghost predicate WithinStep(gs: seq<Growth>, inc: nat) {
    |Kinds(gs)| <= inc && Binds(gs) <= inc && forall b :: 0 <= b < Binds(gs) ==> |AcceptedBy(gs, b, 0)| <= inc
  }

  lemma SmallExactly(t: Tables, gs: seq<Growth>, inc: nat)
    requires Uniform(t, inc) && |t.tables| == Binds(gs) && t.conns.last == |Kinds(gs)| && t.binds.last == Binds(gs)
    requires forall b :: 0 <= b < Binds(gs) ==> Lists(t.tables[b], AcceptedBy(gs, b, 0))
    ensures WithinStep(gs, inc) <==>
              Small(t.conns) && Small(t.binds) && forall b :: 0 <= b < |t.tables| ==> Small(t.tables[b])
  {
    forall b | 0 <= b < |t.tables|
      ensures t.tables[b].last == |AcceptedBy(gs, b, 0)|
    {
      assert Lists(t.tables[b], AcceptedBy(gs, b, 0));
    }
    if !WithinStep(gs, inc) && |Kinds(gs)| <= inc && Binds(gs) <= inc {
      var b :| 0 <= b < Binds(gs) && |AcceptedBy(gs, b, 0)| > inc;
      assert !Small(t.tables[b]);
    }
  }

  /** Opening a socket, any connections and binds, and closing it: it stays in bounds iff the
      history is within one growth step, and then each connection that was made is freed once. */
  method OpenAndClose(inc: nat, gs: seq<Growth>) returns (sock: Socket, r: Outcome<()>)
    requires 2 <= inc && WellMade(gs, 0, inc)
    ensures r.Ok? <==> WithinStep(gs, inc)
    ensures r.Ok? ==> Teardown.Distinct(sock.freed) && forall id :: id in sock.freed <==> 0 <= id < |Kinds(gs)|
  {
    TablesAfter(inc, gs);
    var t := GrowAll(Empty(inc), gs).value;
    sock := new Socket(t.conns, t.binds, t.tables, t.peers);
    Numbered(t.binds, |t.tables|);
    Numbered(t.conns, |t.peers|);
    SmallExactly(t, gs, inc);
    r := sock.Term(Live(t.conns).Values);
  }

  lemma Numbered(a: Arr, n: nat)
    requires forall i :: i in Live(a) <==> 0 <= i < n
    requires forall i :: i in Live(a) ==> Live(a)[i] == i
    ensures forall id :: id in Live(a).Values <==> 0 <= id < n
  {
    forall id | 0 <= id < n
      ensures id in Live(a).Values
    {
      assert id in Live(a) && Live(a)[id] == id;
    }
  }

  /** The root's table is one that a broadcast goes through: each connection sits at its number. */
  lemma BuiltHolds(t: Tables)
    requires Built(t)
    ensures Broadcast.Holds(t.conns, |t.peers|)
  {
    forall i | 0 <= i < t.conns.last && t.conns.mem[i].Ref?
      ensures t.conns.mem[i].id == i < |t.peers|
    {
      assert i in Live(t.conns);
    }
  }
}
