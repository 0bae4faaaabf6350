/**
 * The table of edge vnic bindings: layout, the two allocators and release.
 *
 * `V` and `T` stand for MAX_VNIC_NUM and MAX_TUNNEL_NUM. A row is identified
 * by its primary key and holds a network or nothing.
 */
module EdgeVnics {
  import opened Options

  type EdgeId = string
  type Network = string
  datatype Key = Key(edge: EdgeId, vnic: nat, tunnel: nat)
  type Rows = map<Key, Option<Network>>

  // ------------------------------------------------------------- layout

  /** Tunnel indexes of vnic `v` are the `T` numbers above `(v - 1) * T`. */
  predicate IsSlot(k: Key, edge: EdgeId, V: nat, T: nat) {
    k.edge == edge && 1 <= k.vnic < V && (k.vnic - 1) * T < k.tunnel <= k.vnic * T
  }

  /** The rows of `edge` are exactly the laid-out slots. */
  ghost predicate Laid(rows: Rows, edge: EdgeId, V: nat, T: nat) {
    forall k: Key :: k.edge == edge ==> (k in rows <==> IsSlot(k, edge, V, T))
  }

  function Blank(keys: set<Key>): Rows {
    map k | k in keys :: None
  }

  ghost predicate Absent(rows: Rows, edge: EdgeId) {
    forall k :: k in rows ==> k.edge != edge
  }

  function OfVnic(rows: Rows, edge: EdgeId, vnic: nat): set<Key> {
    set k | k in rows && k.edge == edge && k.vnic == vnic
  }

  function Column(edge: EdgeId, v: nat, low: nat, n: nat): set<Key> {
    set t: nat | low < t <= low + n :: Key(edge, v, t)
  }

  /** The slots of the vnics below `V`, without those of vnic `skip`. */
  function Slots(edge: EdgeId, V: nat, T: nat, skip: nat): set<Key>
    decreases V
  {
    if V <= 1 then {}
    else Slots(edge, V - 1, T, skip) + if V - 1 == skip then {} else Column(edge, V - 1, (V - 2) * T, T)
  }

  /** The slot of a vnic that `allocate_edge_vnic` may hand out. */
  predicate IsLeader(k: Key, T: nat)
    requires T > 0
  {
    k.tunnel % T == 1
  }

  function Leaders(edge: EdgeId, V: nat, T: nat): set<Key>
    decreases V
  {
    if V <= 1 then {} else Leaders(edge, V - 1, T) + {Key(edge, V - 1, (V - 2) * T + 1)}
  }

  lemma {:induction false} ColumnSize(edge: EdgeId, v: nat, low: nat, n: nat)
    ensures |Column(edge, v, low, n)| == n
  {
    if n > 0 {
      ColumnSize(edge, v, low, n - 1);
      assert Column(edge, v, low, n) == Column(edge, v, low, n - 1) + {Key(edge, v, low + n)};
    }
  }

  lemma {:induction false} SlotsAre(edge: EdgeId, V: nat, T: nat, skip: nat)
    ensures forall k :: k in Slots(edge, V, T, skip) <==> IsSlot(k, edge, V, T) && k.vnic != skip
    decreases V
  {
    if V > 1 {
      SlotsAre(edge, V - 1, T, skip);
    }
  }

  lemma {:induction false} MulStep(n: nat, T: nat)
    ensures (n + 1) * T == n * T + T
  {
  }

  function VnicsWithout(V: nat, skip: nat): nat
    decreases V
  {
    if V <= 1 then 0 else VnicsWithout(V - 1, skip) + if V - 1 == skip then 0 else 1
  }

  lemma {:induction false} VnicCount(V: nat, skip: nat)
    requires V >= 1
    ensures VnicsWithout(V, skip) == V - 1 - if 1 <= skip < V then 1 else 0
    decreases V
  {
    if V > 1 { VnicCount(V - 1, skip); }
  }

  lemma {:induction false} SlotsGrow(edge: EdgeId, V: nat, T: nat, skip: nat)
    requires V > 1
    ensures |Slots(edge, V, T, skip)| == |Slots(edge, V - 1, T, skip)| + if V - 1 == skip then 0 else T
  {
    var fewer, last := Slots(edge, V - 1, T, skip), Column(edge, V - 1, (V - 2) * T, T);
    ColumnSize(edge, V - 1, (V - 2) * T, T);
    assert fewer !! last by { SlotsAre(edge, V - 1, T, skip); }
    if V - 1 != skip {
      assert |fewer + last| == |fewer| + |last|;
    }
  }

  lemma {:induction false} SlotCount(edge: EdgeId, V: nat, T: nat, skip: nat)
    ensures |Slots(edge, V, T, skip)| == VnicsWithout(V, skip) * T
    decreases V
  {
    if V > 1 {
      SlotsGrow(edge, V, T, skip);
      SlotCount(edge, V - 1, T, skip);
      MulStep(VnicsWithout(V - 1, skip), T);
    }
  }

  lemma {:induction false} DivModUnique(x: nat, q: nat, T: nat, r: nat)
    requires x == q * T + r && r < T
    ensures x % T == r
  {
    var q', r' := x / T, x % T;
    assert x == q' * T + r' && 0 <= r' < T;
    if q < q' {
      MulLess(q, q', T);
    } else if q' < q {
      MulLess(q', q, T);
    }
  }

  lemma {:induction false} MulLess(a: nat, b: nat, T: nat)
    requires a < b
    ensures a * T + T <= b * T
    decreases b - a
  {
    MulStep(a, T);
    if a + 1 < b { MulLess(a + 1, b, T); }
  }

  /** Within one vnic the remainder 1 singles out the first tunnel index. */
  lemma {:induction false} OneLeader(v: nat, T: nat, t: nat)
    requires T >= 2 && v >= 1 && (v - 1) * T < t <= v * T
    ensures t % T == 1 <==> t == (v - 1) * T + 1
  {
    MulStep(v - 1, T);
    var r := t - (v - 1) * T;
    if r < T { DivModUnique(t, v - 1, T, r); } else { DivModUnique(t, v, T, 0); }
  }

  lemma {:induction false} LeadersAre(edge: EdgeId, V: nat, T: nat)
    requires T >= 2
    ensures forall k :: k in Leaders(edge, V, T) <==> IsSlot(k, edge, V, T) && IsLeader(k, T)
    decreases V
  {
    if V > 1 {
      LeadersAre(edge, V - 1, T);
      forall k: Key | k.vnic == V - 1 ensures k in Leaders(edge, V, T) <==> IsSlot(k, edge, V, T) && IsLeader(k, T) {
        if IsSlot(k, edge, V, T) { OneLeader(V - 1, T, k.tunnel); }
      }
    }
  }

  lemma {:induction false} LeaderCount(edge: EdgeId, V: nat, T: nat)
    requires V >= 1
    ensures |Leaders(edge, V, T)| == V - 1
    ensures forall k :: k in Leaders(edge, V, T) ==> k.vnic < V
    decreases V
  {
    if V > 1 { LeaderCount(edge, V - 1, T); }
  }

  // ----------------------------------------------------------- bindings

  /** The bound rows of an edge. */
  ghost function Bound(rows: Rows, edge: EdgeId): map<Key, Network> {
    map k | k in rows && k.edge == edge && rows[k].Some? :: rows[k].value
  }

  ghost function Live(rows: Rows, edge: EdgeId): set<Network> {
    Bound(rows, edge).Values
  }

  ghost predicate Injective(m: map<Key, Network>) {
    forall k, l :: k in m && l in m && m[k] == m[l] ==> k == l
  }

  lemma {:induction false} InjectiveMinus(m: map<Key, Network>, k: Key)
    requires Injective(m) && k in m
    ensures Injective(m - {k}) && (m - {k}).Values == m.Values - {m[k]} && m[k] in m.Values
  {
    var rest := m - {k};
    forall n | n in m.Values - {m[k]} ensures n in rest.Values {
      var l :| l in m && m[l] == n;
      assert l in rest && rest[l] == n;
    }
    forall n | n in rest.Values ensures n in m.Values - {m[k]} {
      var l :| l in rest && rest[l] == n;
      assert l in m && m[l] == n;
    }
  }

  lemma {:induction false} InjectiveSize(m: map<Key, Network>)
    requires Injective(m)
    ensures |m.Values| == |m.Keys|
    decreases |m.Keys|
  {
    if m.Keys != {} {
      var k :| k in m.Keys;
      InjectiveMinus(m, k);
      assert (m - {k}).Keys == m.Keys - {k};
      InjectiveSize(m - {k});
    } else {
      assert m.Values == {};
    }
  }

  /** A subset of `slots` that leaves none free has as many members. */
  lemma {:induction false} FreeIffFewer(used: set<Key>, slots: set<Key>)
    requires used <= slots
    ensures (exists k :: k in slots && k !in used) <==> |used| < |slots|
  {
    if k :| k in slots && k !in used {
      assert |slots| == |used| + |slots - used| by { assert slots == used + (slots - used); }
      assert k in slots - used;
    } else {
      assert slots == used;
    }
  }

  // --------------------------------------------------------- operations

  datatype Op =
    | AllocateVnic(network: Network)
    | AllocateTunnel(network: Network, metadata: Option<Network>)
    | Free(network: Network)

  datatype Error = NoFreeVnic | NoResultFound | MultipleResultsFound | ZeroDivisionError
  datatype Result = Ok(key: Key) | Err(error: Error)

  /** Rows the tunnel allocator may choose from: free, and not on the vnic of
      the metadata network if that network is bound. */
  ghost predicate Eligible(rows: Rows, edge: EdgeId, metadata: Option<Network>, k: Key) {
    && k in rows && k.edge == edge && rows[k].None?
    && (metadata.Some? && metadata.value in Live(rows, edge) ==>
          exists m :: m in rows && m.edge == edge && rows[m] == metadata && m.vnic != k.vnic)
  }

  /** What one call may do to the rows of `edge`, and what it returns. */
  ghost predicate Step(rows: Rows, edge: EdgeId, T: nat, op: Op, rows': Rows, r: Result)
    requires T > 0
  {
    match op
    case AllocateVnic(network) =>
      if r.Ok? then
        && r.key in rows && r.key.edge == edge && rows[r.key].None? && IsLeader(r.key, T)
        && rows' == rows[r.key := Some(network)]
      else
        && rows' == rows && r == Err(NoFreeVnic)
        && forall k :: k in rows && k.edge == edge && rows[k].None? ==> !IsLeader(k, T)
    case AllocateTunnel(network, metadata) =>
      if r.Ok? then Eligible(rows, edge, metadata, r.key) && rows' == rows[r.key := Some(network)]
      else rows' == rows && r == Err(NoFreeVnic) && ExcludesAll(rows, edge, metadata)
    case Free(network) =>
      if r.Ok? then
        && r.key in rows && r.key.edge == edge && rows[r.key] == Some(network)
        && (forall k :: k in rows && k.edge == edge && rows[k] == Some(network) ==> k == r.key)
        && rows' == rows[r.key := None]
      else
        && rows' == rows
        && (r == Err(NoResultFound) <==> network !in Live(rows, edge))
        && (r == Err(MultipleResultsFound) || r == Err(NoResultFound))
        && (r == Err(MultipleResultsFound) ==> !Injective(Bound(rows, edge)))
  }

  /** Some row of the metadata network excludes every free row there is. */
  ghost predicate ExcludesAll(rows: Rows, edge: EdgeId, metadata: Option<Network>) {
    if metadata.Some? && metadata.value in Live(rows, edge) then
      exists m :: m in rows && m.edge == edge && rows[m] == metadata &&
        forall k :: k in rows && k.edge == edge && rows[k].None? ==> k.vnic == m.vnic
    else
      forall k :: k in rows && k.edge == edge ==> rows[k].Some?
  }

  lemma {:induction false} Binds(rows: Rows, edge: EdgeId, k: Key, network: Network)
    requires k in rows && k.edge == edge && rows[k].None?
    ensures Bound(rows[k := Some(network)], edge) == Bound(rows, edge)[k := network]
    ensures Live(rows[k := Some(network)], edge) == Live(rows, edge) + {network}
    ensures k !in Bound(rows, edge)
  {
    assert Bound(rows[k := Some(network)], edge) == Bound(rows, edge)[k := network];
    assert Bound(rows, edge)[k := network].Values == Bound(rows, edge).Values + {network} by {
      forall n | n in Bound(rows, edge).Values ensures n in Bound(rows, edge)[k := network].Values {
        var l :| l in Bound(rows, edge) && Bound(rows, edge)[l] == n;
        assert Bound(rows, edge)[k := network][l] == n;
      }
      assert Bound(rows, edge)[k := network][k] == network;
    }
  }

  lemma {:induction false} Unbinds(rows: Rows, edge: EdgeId, k: Key)
    requires k in rows && k.edge == edge && rows[k].Some? && Injective(Bound(rows, edge))
    ensures Bound(rows[k := None], edge) == Bound(rows, edge) - {k}
    ensures Live(rows[k := None], edge) == Live(rows, edge) - {rows[k].value}
    ensures Injective(Bound(rows[k := None], edge))
  {
    assert Bound(rows[k := None], edge) == Bound(rows, edge) - {k};
    InjectiveMinus(Bound(rows, edge), k);
  }

  // ------------------------------------------------ allocate_edge_vnic

  /** Every network in use has one slot, each of a vnic of its own. */
  ghost predicate LeaderInv(rows: Rows, edge: EdgeId, V: nat, T: nat)
    requires T > 0
  {
    && Laid(rows, edge, V, T)
    && Injective(Bound(rows, edge))
    && forall k :: k in Bound(rows, edge) ==> IsLeader(k, T)
  }

  /** A call that `allocate_edge_vnic` is meant for: a network without a slot
      gets one, or a network with one gives it up. */
  ghost predicate LeaderCall(rows: Rows, edge: EdgeId, op: Op) {
    match op
    case AllocateVnic(network) => network !in Live(rows, edge)
    case AllocateTunnel(_, _) => false
    case Free(network) => network in Live(rows, edge)
  }

  lemma {:induction false} BoundRow(rows: Rows, edge: EdgeId, network: Network) returns (k: Key)
    requires network in Live(rows, edge)
    ensures k in rows && k.edge == edge && rows[k] == Some(network) && k in Bound(rows, edge)
  {
    k :| k in Bound(rows, edge) && Bound(rows, edge)[k] == network;
  }

  lemma {:induction false} LeaderStep(rows: Rows, edge: EdgeId, V: nat, T: nat, op: Op, rows': Rows, r: Result)
    requires T > 0 && LeaderInv(rows, edge, V, T) && LeaderCall(rows, edge, op) && Step(rows, edge, T, op, rows', r)
    ensures LeaderInv(rows', edge, V, T)
  {
    match op
    case AllocateVnic(network) =>
      if r.Ok? {
        Binds(rows, edge, r.key, network);
        assert forall k :: k in Bound(rows, edge) ==> Bound(rows, edge)[k] in Live(rows, edge);
      }
    case Free(network) =>
      if r.Ok? { Unbinds(rows, edge, r.key); }
  }

  /** `allocate_edge_vnic` succeeds exactly while fewer than `V - 1` networks
      have a slot, the slot's vnic is not in use, and no binding is lost. With
      `T = 1` the remainder test never holds and it always fails. */
  lemma {:induction false} AllocateSucceedsIff(rows: Rows, edge: EdgeId, V: nat, T: nat, network: Network, rows': Rows, r: Result)
    requires V >= 1 && T > 0 && LeaderInv(rows, edge, V, T) && network !in Live(rows, edge)
    requires Step(rows, edge, T, AllocateVnic(network), rows', r)
    ensures T >= 2 ==> (r.Ok? <==> |Live(rows, edge)| < V - 1)
    ensures T == 1 ==> r == Err(NoFreeVnic)
    ensures r.Ok? && T >= 2 ==> forall k :: k in Bound(rows, edge) ==> k.vnic != r.key.vnic
    ensures r.Ok? ==> Bound(rows', edge) == Bound(rows, edge)[r.key := network]
  {
    if r.Ok? { Binds(rows, edge, r.key, network); }
    if T >= 2 {
      var used := Bound(rows, edge).Keys;
      LeadersAre(edge, V, T);
      LeaderCount(edge, V, T);
      InjectiveSize(Bound(rows, edge));
      assert used <= Leaders(edge, V, T);
      FreeIffFewer(used, Leaders(edge, V, T));
      if r.Err? {
        forall k | k in Leaders(edge, V, T) ensures k in used {
          assert k in rows && k.edge == edge;
        }
      } else {
        assert r.key in Leaders(edge, V, T) && r.key !in used;
        forall k | k in used ensures k.vnic != r.key.vnic {
          SameVnicSameLeader(edge, V, T, k, r.key);
        }
      }
    }
  }

  lemma {:induction false} SameVnicSameLeader(edge: EdgeId, V: nat, T: nat, k: Key, l: Key)
    requires T >= 2 && IsSlot(k, edge, V, T) && IsSlot(l, edge, V, T) && IsLeader(k, T) && IsLeader(l, T)
    ensures k.vnic == l.vnic ==> k == l
  {
    OneLeader(k.vnic, T, k.tunnel);
    OneLeader(l.vnic, T, l.tunnel);
  }

  // ------------------------------ allocate_edge_vnic_with_tunnel_index

  /** The metadata network holds slot `m`, alone on that vnic. */
  ghost predicate MetaInv(rows: Rows, edge: EdgeId, V: nat, T: nat, metadata: Network, m: Key) {
    && Laid(rows, edge, V, T)
    && Injective(Bound(rows, edge))
    && m in rows && m.edge == edge && rows[m] == Some(metadata)
    && forall k :: k in Bound(rows, edge) && k.vnic == m.vnic ==> k == m
  }

  /** Other networks come, if they have no slot yet, and go. */
  ghost predicate MetaCall(rows: Rows, edge: EdgeId, metadata: Network, op: Op) {
    match op
    case AllocateVnic(_) => false
    case AllocateTunnel(network, meta) => meta == Some(metadata) && network !in Live(rows, edge)
    case Free(network) => network in Live(rows, edge) && network != metadata
  }

  /** On a fresh edge the metadata network may get any slot. */
  lemma {:induction false} MetaFirst(rows: Rows, edge: EdgeId, V: nat, T: nat, metadata: Network, rows': Rows, r: Result)
    requires T > 0 && Laid(rows, edge, V, T) && Bound(rows, edge) == map[]
    requires Step(rows, edge, T, AllocateTunnel(metadata, Some(metadata)), rows', r) && r.Ok?
    ensures MetaInv(rows', edge, V, T, metadata, r.key)
  {
    Binds(rows, edge, r.key, metadata);
  }

  /** The slot that excludes others is that of the metadata network. */
  lemma {:induction false} MetaRow(rows: Rows, edge: EdgeId, V: nat, T: nat, metadata: Network, m: Key)
    requires MetaInv(rows, edge, V, T, metadata, m)
    ensures metadata in Live(rows, edge) && m in Bound(rows, edge)
    ensures forall k :: k in rows && k.edge == edge && rows[k] == Some(metadata) ==> k == m
  {
    assert m in Bound(rows, edge) && Bound(rows, edge)[m] == metadata;
    forall k | k in rows && k.edge == edge && rows[k] == Some(metadata) ensures k == m {
      assert k in Bound(rows, edge) && Bound(rows, edge)[k] == metadata;
    }
  }

  lemma {:induction false} MetaStep(rows: Rows, edge: EdgeId, V: nat, T: nat, metadata: Network, m: Key,
                                    op: Op, rows': Rows, r: Result)
    requires T > 0 && MetaInv(rows, edge, V, T, metadata, m)
    requires MetaCall(rows, edge, metadata, op) && Step(rows, edge, T, op, rows', r)
    ensures MetaInv(rows', edge, V, T, metadata, m)
  {
    MetaRow(rows, edge, V, T, metadata, m);
    match op
    case AllocateTunnel(network, _) =>
      if r.Ok? {
        Binds(rows, edge, r.key, network);
        assert r.key.vnic != m.vnic;
        assert forall k :: k in Bound(rows, edge) ==> Bound(rows, edge)[k] in Live(rows, edge);
      }
    case Free(network) =>
      if r.Ok? { Unbinds(rows, edge, r.key); }
  }

  /** The slots outside the metadata vnic, and those of them in use. */
  lemma {:induction false} OtherSlots(rows: Rows, edge: EdgeId, V: nat, T: nat, metadata: Network, m: Key)
    requires V >= 2 && T > 0 && MetaInv(rows, edge, V, T, metadata, m)
    ensures var used, slots := (Bound(rows, edge) - {m}).Keys, Slots(edge, V, T, m.vnic);
            && used <= slots && |slots| == (V - 2) * T && |used| == |Live(rows, edge) - {metadata}|
            && forall k :: k in slots <==> k in rows && k.edge == edge && k.vnic != m.vnic
  {
    MetaRow(rows, edge, V, T, metadata, m);
    var b := Bound(rows, edge);
    InjectiveMinus(b, m);
    InjectiveSize(b - {m});
    SlotCount(edge, V, T, m.vnic);
    VnicCount(V, m.vnic);
    SlotsAre(edge, V, T, m.vnic);
    assert IsSlot(m, edge, V, T);
    hide IsSlot;
  }

  /** With the metadata network bound, `allocate_edge_vnic_with_tunnel_index`
      succeeds exactly while fewer than `(V - 2) * T` other networks have a
      slot, and never on the metadata vnic, whichever row the query returns. */
  lemma {:induction false} TunnelSucceedsIff(rows: Rows, edge: EdgeId, V: nat, T: nat, metadata: Network, m: Key,
                                             network: Network, rows': Rows, r: Result)
    requires V >= 2 && T > 0 && MetaInv(rows, edge, V, T, metadata, m) && network !in Live(rows, edge)
    requires Step(rows, edge, T, AllocateTunnel(network, Some(metadata)), rows', r)
    ensures r.Ok? <==> |Live(rows, edge) - {metadata}| < (V - 2) * T
    ensures r.Ok? ==> r.key.vnic != m.vnic && Bound(rows', edge) == Bound(rows, edge)[r.key := network]
  {
    MetaRow(rows, edge, V, T, metadata, m);
    if r.Ok? { Binds(rows, edge, r.key, network); }
    OtherSlots(rows, edge, V, T, metadata, m);
    hide IsSlot, Slots, Laid;
    var used, slots := (Bound(rows, edge) - {m}).Keys, Slots(edge, V, T, m.vnic);
    FreeIffFewer(used, slots);
    if r.Ok? {
      assert r.key in slots && r.key !in used;
    } else {
      forall k | k in slots ensures k in used {
        assert k in rows && rows[k].Some?;
      }
    }
  }

  // --------------------------------------------------------------- runs

  ghost predicate Run(edge: EdgeId, T: nat, tables: seq<Rows>, ops: seq<Op>, results: seq<Result>)
    requires T > 0
  {
    && |tables| == |ops| + 1 && |results| == |ops|
    && forall i :: 0 <= i < |ops| ==> Step(tables[i], edge, T, ops[i], tables[i + 1], results[i])
  }

  /** From a fresh edge, any sequence of calls for networks without a slot and
      releases of networks with one keeps live networks on distinct vnics. */
  lemma {:induction false} VnicsStayDistinct(edge: EdgeId, V: nat, T: nat, tables: seq<Rows>, ops: seq<Op>,
                                             results: seq<Result>, i: nat)
    requires T >= 2 && Run(edge, T, tables, ops, results) && i < |tables|
    requires Laid(tables[0], edge, V, T) && Bound(tables[0], edge) == map[]
    requires forall j :: 0 <= j < |ops| ==> LeaderCall(tables[j], edge, ops[j])
    ensures LeaderInv(tables[i], edge, V, T)
    ensures forall k, l :: k in Bound(tables[i], edge) && l in Bound(tables[i], edge) && k != l ==>
              k.vnic != l.vnic && tables[i][k] != tables[i][l]
    decreases i
  {
    if i > 0 {
      VnicsStayDistinct(edge, V, T, tables, ops, results, i - 1);
      LeaderStep(tables[i - 1], edge, V, T, ops[i - 1], tables[i], results[i - 1]);
    }
    forall k, l | k in Bound(tables[i], edge) && l in Bound(tables[i], edge) && k != l ensures k.vnic != l.vnic {
      SameVnicSameLeader(edge, V, T, k, l);
    }
  }

  /** Once the metadata network is bound on a fresh edge, no run of calls and
      releases for other networks puts one of them on its vnic. */
  lemma {:induction false} MetadataVnicStaysAlone(edge: EdgeId, V: nat, T: nat, metadata: Network, tables: seq<Rows>,
                                                  ops: seq<Op>, results: seq<Result>, i: nat)
    requires T > 0 && Run(edge, T, tables, ops, results) && 1 <= i < |tables|
    requires Laid(tables[0], edge, V, T) && Bound(tables[0], edge) == map[]
    requires ops[0] == AllocateTunnel(metadata, Some(metadata)) && results[0].Ok?
    requires forall j :: 1 <= j < |ops| ==> MetaCall(tables[j], edge, metadata, ops[j])
    ensures MetaInv(tables[i], edge, V, T, metadata, results[0].key)
    ensures forall k :: k in Bound(tables[i], edge) && Bound(tables[i], edge)[k] != metadata ==> k.vnic != results[0].key.vnic
    decreases i
  {
    if i == 1 {
      MetaFirst(tables[0], edge, V, T, metadata, tables[1], results[0]);
    } else {
      MetadataVnicStaysAlone(edge, V, T, metadata, tables, ops, results, i - 1);
      MetaStep(tables[i - 1], edge, V, T, metadata, results[0].key, ops[i - 1], tables[i], results[i - 1]);
    }
  }

  // ------------------------------------------------------- the database

  lemma {:induction false} BlankUnion(rows: Rows, a: set<Key>, b: set<Key>)
    ensures rows + Blank(a) + Blank(b) == rows + Blank(a + b)
  {
  }

  lemma {:induction false} SlotsReach(edge: EdgeId, vnic: nat, V: nat, T: nat)
    requires 1 <= vnic < V
    ensures forall k :: k in Column(edge, vnic, (vnic - 1) * T, T) ==> IsSlot(k, edge, V, T)
  {
    MulStep(vnic - 1, T);
  }

  /** The rows a layout adds are the slots of the edge, all of them free. */
  lemma {:induction false} FreshEdge(rows: Rows, edge: EdgeId, V: nat, T: nat)
    requires Absent(rows, edge)
    ensures Laid(rows + Blank(Slots(edge, V, T, 0)), edge, V, T)
    ensures Bound(rows + Blank(Slots(edge, V, T, 0)), edge) == map[]
  {
    SlotsAre(edge, V, T, 0);
  }

  lemma {:induction false} NoSlots(rows: Rows, edge: EdgeId, T: nat)
    ensures Slots(edge, 1, T, 0) == {} && rows + Blank(Slots(edge, 1, T, 0)) == rows
  {
  }

  lemma {:induction false} MoreSlots(rows: Rows, edge: EdgeId, vnic: nat, T: nat)
    requires vnic >= 1
    ensures var slots, column := Slots(edge, vnic, T, 0), Column(edge, vnic, (vnic - 1) * T, T);
            && Slots(edge, vnic + 1, T, 0) == slots + column
            && rows + Blank(slots) + Blank(column) == rows + Blank(Slots(edge, vnic + 1, T, 0))
            && (column !! (rows + Blank(slots)).Keys ==> column !! rows.Keys)
            && (!(column !! (rows + Blank(slots)).Keys) ==> exists k :: k in column && k in rows)
  {
    SlotsAre(edge, vnic, T, 0);
    SlotsAre(edge, vnic + 1, T, 0);
    MulStep(vnic - 1, T);
    BlankUnion(rows, Slots(edge, vnic, T, 0), Column(edge, vnic, (vnic - 1) * T, T));
  }

  /** What a layout adds to the table, if no slot is there already. */
  lemma {:induction false} SlotsAdded(rows: Rows, edge: EdgeId, V: nat, T: nat)
    requires V >= 1 && Slots(edge, V, T, 0) !! rows.Keys
    ensures forall k :: k in rows ==> !IsSlot(k, edge, V, T)
    ensures var all := rows + Blank(Slots(edge, V, T, 0));
            && (Absent(rows, edge) ==> Laid(all, edge, V, T) && Bound(all, edge) == map[])
            && (forall k :: k in rows ==> k in all && all[k] == rows[k])
            && (forall k :: k in all && k !in rows ==> all[k] == None)
            && (forall k: Key :: k in all && k !in rows <==>
                  k.edge == edge && 1 <= k.vnic < V && (k.vnic - 1) * T < k.tunnel && k.tunnel <= k.vnic * T)
  {
    SlotsAre(edge, V, T, 0);
    if Absent(rows, edge) { FreshEdge(rows, edge, V, T); }
  }

  class EdgeVnicBindings {
    const V: nat
    const T: nat
    var rows: Rows

    constructor (V: nat, T: nat)
      requires V >= 2 && T >= 1
      ensures this.V == V && this.T == T && rows == map[]
    {
      this.V, this.T, rows := V, T, map[];
    }

    /** `init_edge_vnic_binding`: a slot that is there already violates the
        primary key, and then nothing changes. */
    method InitEdgeVnicBinding(edge: EdgeId) returns (ok: bool)
      requires V >= 1
      modifies `rows
      ensures ok <==> forall k :: k in old(rows) ==> !IsSlot(k, edge, V, T)
      ensures ok ==> rows == old(rows) + Blank(Slots(edge, V, T, 0))
      ensures ok && Absent(old(rows), edge) ==> Laid(rows, edge, V, T) && Bound(rows, edge) == map[]
      ensures ok ==>
                && (forall k :: k in old(rows) ==> k in rows && rows[k] == old(rows)[k])
                && (forall k :: k in rows && k !in old(rows) ==> rows[k] == None)
                && (forall k: Key :: k in rows && k !in old(rows) <==>
                      k.edge == edge && 1 <= k.vnic < V && (k.vnic - 1) * T < k.tunnel && k.tunnel <= k.vnic * T)
      ensures !ok ==> rows == old(rows)
    {
      hide Slots, Column, Blank, IsSlot, Laid, Bound, Absent;
      var was := rows;
      NoSlots(was, edge, T);
      for vnic := 1 to V
        invariant rows == was + Blank(Slots(edge, vnic, T, 0))
        invariant Slots(edge, vnic, T, 0) !! was.Keys
      {
        ok := AddVnic(edge, vnic);
        MoreSlots(was, edge, vnic, T);
        if !ok {
          SlotsReach(edge, vnic, V, T);
          rows := was;
          return;
        }
      }
      SlotsAdded(was, edge, V, T);
      ok := true;
    }

    /** The inner loop: one row per tunnel of `vnic`. */
    method AddVnic(edge: EdgeId, vnic: nat) returns (ok: bool)
      requires vnic >= 1
      modifies `rows
      ensures var column := Column(edge, vnic, (vnic - 1) * T, T);
              if ok then rows == old(rows) + Blank(column) && column !! old(rows).Keys else !(column !! old(rows).Keys)
    {
      var start := (vnic - 1) * T;
      MulStep(vnic - 1, T);
      assert Column(edge, vnic, start, 0) == {};
      for tunnel := start to vnic * T
        invariant rows == old(rows) + Blank(Column(edge, vnic, start, tunnel - start))
        invariant Column(edge, vnic, start, tunnel - start) !! old(rows).Keys
      {
        var k := Key(edge, vnic, tunnel + 1);
        assert Column(edge, vnic, start, tunnel + 1 - start) == Column(edge, vnic, start, tunnel - start) + {k};
        if k in rows {
          assert k in Column(edge, vnic, start, T) && k in old(rows);
          return false;
        }
        rows := rows[k := None];
      }
      ok := true;
    }

    /** A query for the free rows of an edge, in whatever order they come. */
    method FreeRows(edge: EdgeId) returns (bindings: seq<Key>)
      ensures forall k :: k in bindings <==> k in rows && k.edge == edge && rows[k].None?
    {
      var todo := set k | k in rows && k.edge == edge && rows[k].None?;
      bindings := [];
      while todo != {}
        invariant forall k :: (k in todo || k in bindings) <==> k in rows && k.edge == edge && rows[k].None?
        decreases todo
      {
        var k :| k in todo;
        todo := todo - {k};
        bindings := bindings + [k];
      }
    }

    /** `allocate_edge_vnic`: on edges with their layout, or with no rows, this
        is the step of the model. On others the remainder is taken modulo the
        number of rows of vnic 1, if there are any. */
    method AllocateEdgeVnic(edge: EdgeId, network: Network) returns (r: Result)
      requires T >= 1
      modifies `rows
      ensures V >= 2 && (Laid(old(rows), edge, V, T) || Absent(old(rows), edge)) ==> Step(old(rows), edge, T, AllocateVnic(network), rows, r)
      ensures var n := |OfVnic(old(rows), edge, 1)|;
              if r.Ok? then
                && n > 0 && r.key in old(rows) && r.key.edge == edge && old(rows)[r.key].None? && r.key.tunnel % n == 1
                && rows == old(rows)[r.key := Some(network)]
              else
                && rows == old(rows)
                && (r.error == NoFreeVnic || (r.error == ZeroDivisionError && n == 0 && exists k :: k in rows && k.edge == edge && rows[k].None?))
                && forall k: Key :: k in rows && k.edge == edge && rows[k].None? ==>
                     if n == 0 then r.error == ZeroDivisionError else r.error == NoFreeVnic && k.tunnel % n != 1
    {
      var tunnelsPerIndex := |OfVnic(rows, edge, 1)|;
      var bindings := FreeRows(edge);
      if V >= 2 && Laid(rows, edge, V, T) {
        FirstVnicCount(rows, edge, V, T);
      }
      for i := 0 to |bindings|
        invariant rows == old(rows)
        invariant forall j :: 0 <= j < i ==> tunnelsPerIndex > 0 && bindings[j].tunnel % tunnelsPerIndex != 1
      {
        var binding := bindings[i];
        assert binding in bindings;
        if tunnelsPerIndex == 0 { return Err(ZeroDivisionError); }
        if binding.tunnel % tunnelsPerIndex == 1 {
          rows := rows[binding := Some(network)];
          return Ok(binding);
        }
      }
      r := Err(NoFreeVnic);
    }

    method AllocateEdgeVnicWithTunnelIndex(edge: EdgeId, network: Network, metadata: Option<Network>)
      returns (r: Result)
      requires T >= 1
      modifies `rows
      ensures Step(old(rows), edge, T, AllocateTunnel(network, metadata), rows, r)
      ensures r.Ok? ==>
                && r.key in old(rows) && r.key.edge == edge && old(rows)[r.key] == None && rows == old(rows)[r.key := Some(network)]
                && (metadata.Some? && (exists m :: m in old(rows) && m.edge == edge && old(rows)[m] == metadata) ==>
                      exists m :: m in old(rows) && m.edge == edge && old(rows)[m] == metadata && m.vnic != r.key.vnic)
      ensures r.Err? ==> rows == old(rows) && r.error == NoFreeVnic
      ensures r.Err? ==>
                || (forall k :: k in rows && k.edge == edge ==> rows[k].Some?)
                || (metadata.Some? &&
                    exists m ::
                      && m in rows && m.edge == edge && rows[m] == metadata
                      && forall k :: k in rows && k.edge == edge && rows[k] == None ==> k.vnic == m.vnic)
    {
      var free := set k | k in rows && k.edge == edge && rows[k].None?;
      var candidates := free;
      if metadata.Some? {
        var bound := set k | k in rows && k.edge == edge && rows[k] == metadata;
        assert forall k :: k in rows && k.edge == edge && rows[k] == metadata ==> k in bound;
        NetworkRows(rows, edge, metadata.value, bound);
        if bound != {} {
          var binding :| binding in bound;
          candidates := set k | k in free && k.vnic != binding.vnic;
          assert forall k :: k in free ==> k in candidates || k.vnic == binding.vnic;
          if candidates == {} {
            ExcludedBy(rows, edge, metadata, binding, free);
          }
        }
      }
      if candidates == {} {
        assert forall k :: k in rows && k.edge == edge && rows[k].None? ==> k in free;
        return Err(NoFreeVnic);
      }
      var binding :| binding in candidates;
      rows := rows[binding := Some(network)];
      r := Ok(binding);
    }

    /** `free_edge_vnic_by_network`: exactly one row must match. */
    method FreeEdgeVnicByNetwork(edge: EdgeId, network: Network) returns (r: Result)
      requires T >= 1
      modifies `rows
      ensures Step(old(rows), edge, T, Free(network), rows, r)
      ensures r.Ok? ==>
                && r.key in old(rows) && r.key.edge == edge && old(rows)[r.key] == Some(network) && rows == old(rows)[r.key := None]
                && (forall k :: k in rows && k.edge == edge ==> rows[k] != Some(network))
      ensures r.Err? ==> rows == old(rows)
      ensures r == Err(NoResultFound) <==> forall k :: k in old(rows) && k.edge == edge ==> old(rows)[k] != Some(network)
      ensures r == Err(MultipleResultsFound) <==>
                exists k, m :: k in old(rows) && m in old(rows) && k != m && k.edge == m.edge == edge && old(rows)[k] == old(rows)[m] == Some(network)
    {
      var matching := set k | k in rows && k.edge == edge && rows[k] == Some(network);
      NetworkRows(rows, edge, network, matching);
      assert forall k :: k in rows && k.edge == edge && rows[k] == Some(network) ==> k in matching;
      if matching == {} { return Err(NoResultFound); }
      var binding :| binding in matching;
      if matching != {binding} {
        var other :| other in matching && other != binding;
        assert binding in Bound(rows, edge) && other in Bound(rows, edge);
        return Err(MultipleResultsFound);
      }
      rows := rows[binding := None];
      r := Ok(binding);
    }
  }

  lemma {:induction false} ExcludedBy(rows: Rows, edge: EdgeId, metadata: Option<Network>, m: Key, free: set<Key>)
    requires metadata.Some? && m in rows && m.edge == edge && rows[m] == metadata
    requires free == set k | k in rows && k.edge == edge && rows[k].None?
    requires forall k :: k in free ==> k.vnic == m.vnic
    ensures ExcludesAll(rows, edge, metadata)
  {
    assert Bound(rows, edge)[m] == metadata.value;
    forall k | k in rows && k.edge == edge && rows[k].None? ensures k.vnic == m.vnic {
      assert k in free;
    }
  }

  lemma {:induction false} NetworkRows(rows: Rows, edge: EdgeId, network: Network, bound: set<Key>)
    requires bound == set k | k in rows && k.edge == edge && rows[k] == Some(network)
    ensures bound != {} <==> network in Live(rows, edge)
  {
    if k :| k in bound {
      assert Bound(rows, edge)[k] == network;
    }
    if network in Live(rows, edge) {
      var k := BoundRow(rows, edge, network);
      assert k in bound;
    }
  }

  /** Counting the rows of vnic 1 yields the number of tunnels per vnic. */
  lemma {:induction false} FirstVnicCount(rows: Rows, edge: EdgeId, V: nat, T: nat)
    requires V >= 2 && Laid(rows, edge, V, T)
    ensures |OfVnic(rows, edge, 1)| == T
  {
    ColumnSize(edge, 1, 0, T);
    assert OfVnic(rows, edge, 1) == Column(edge, 1, 0, T);
  }
}
