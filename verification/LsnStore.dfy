/**
 * Logical service nodes (LSNs) and their ports: the backend that owns them and
 * the local store that remembers them.
 *
 * Calls to the backend and to the local database may fail; a backend call that
 * fails may or may not have taken effect.
 */
module LsnStore {
  import opened Options

  type Id = nat
  type NetworkId = string
  type SubnetId = string
  type Mac = string

  const METADATA_MAC: Mac := "fa:15:73:74:d4:74"

  datatype LsnPort = LsnPort(lsn: Id, subnet: SubnetId, mac: Mac)

  type Lsns = map<Id, NetworkId>
  type LsnPorts = map<Id, LsnPort>

  datatype Error =
    | LsnNotFound | LsnPortNotFound | NsxPluginException | PortConfigurationError
    | MultipleResultsFound | ApiException | DbError | Malformed
  datatype Result<+T> = Ok(value: T) | Err(error: Error)

  /** How plugging a port into a switch ends. */
  datatype Plug = Plugged | Conflict | PlugError

  datatype Command =
    | Get(network: NetworkId, raiseOnErr: bool)
    | Create(network: NetworkId)
    | Delete(lsn: Id)
    | DeleteByNetwork(network: NetworkId)
    | PortGet(network: NetworkId, tag: Tag, raiseOnErr: bool)
    | PortCreate(port: LsnPort)
    | PortDelete(portId: Id)
    | PortDispose(network: NetworkId, mac: Mac, switchPort: Option<bool>)
    | DhcpSetup(network: NetworkId, switch: Result<()>, subnet: SubnetId, mac: Mac, plug: Plug, configured: Option<bool>)

  /** What becomes of a backend call: it works, fails, or takes effect and is
      reported as failed. */
  datatype Fate = Works | Fails | Lost

  // ---------------------------------------------------------- invariant

  ghost predicate Submap<K, V>(a: map<K, V>, b: map<K, V>) {
    forall k :: k in a ==> k in b && b[k] == a[k]
  }

  /** Unique constraints of the port table. */
  ghost predicate Unique(rows: LsnPorts) {
    forall p, q :: p in rows && q in rows && (rows[p].subnet == rows[q].subnet || rows[p].mac == rows[q].mac) ==> p == q
  }

  /** Every port's LSN is there: foreign key of the table, parent on the backend. */
  ghost predicate Parented(ports: LsnPorts, lsns: Lsns) {
    forall p :: p in ports ==> ports[p].lsn in lsns
  }

  ghost predicate Below(lsns: Lsns, ports: LsnPorts, next: Id) {
    forall i :: i in lsns || i in ports ==> i < next
  }

  /** Everything stored is on the backend, with the same attributes. */
  ghost predicate Inv(lsns: Lsns, ports: LsnPorts, rows: Lsns, portRows: LsnPorts, next: Id) {
    && Submap(rows, lsns) && Submap(portRows, ports)
    && Parented(portRows, rows) && Parented(ports, lsns)
    && Unique(portRows) && Below(lsns, ports, next)
  }

  function WithoutLsn(ports: LsnPorts, l: Id): LsnPorts {
    map p | p in ports && ports[p].lsn != l :: ports[p]
  }

  function OnNetwork(lsns: Lsns, n: NetworkId): set<Id> {
    set l | l in lsns && lsns[l] == n
  }

  /** Ports of an LSN that carry the tag asked for. */
  function Tagged(ports: LsnPorts, l: Id, tag: Tag): set<Id> {
    set p | p in ports && ports[p].lsn == l && Carries(ports[p], tag)
  }

  datatype Tag = BySubnet(subnet: SubnetId) | ByMac(mac: Mac)

  predicate Carries(p: LsnPort, tag: Tag) {
    match tag
    case BySubnet(s) => p.subnet == s
    case ByMac(m) => p.mac == m
  }

  predicate Stored(rows: LsnPorts, tag: Tag) {
    exists p :: p in rows && Carries(rows[p], tag)
  }

  ghost predicate OneMore(ports: LsnPorts, before: LsnPorts, p: Id, subnet: SubnetId, mac: Mac) {
    && p !in before && p in ports && ports - {p} == before
    && ports[p].subnet == subnet && ports[p].mac == mac
  }

  predicate Clashes(rows: LsnPorts, p: LsnPort) {
    exists q :: q in rows && (rows[q].subnet == p.subnet || rows[q].mac == p.mac)
  }

  /** No delete is refused, so that compensation always takes effect. */
  predicate DeletesWork(deletes: seq<Fate>) {
    forall f :: f in deletes ==> f != Fails
  }

  /** No create takes effect and is reported as failed. */
  predicate NoneLost(creates: seq<Fate>) {
    forall f :: f in creates ==> f != Lost
  }

  /** No query and no local write raises. */
  predicate Reliable(failures: seq<bool>) {
    forall b :: b in failures ==> !b
  }

  predicate AllWork(creates: seq<Fate>) {
    forall f :: f in creates ==> f == Works
  }

  ghost predicate Single(ids: set<Id>) {
    exists l :: ids == {l}
  }

  /** The reply to a tag query: an id only if exactly one object matches. */
  ghost predicate Matches(ids: set<Id>, r: Result<Option<Id>>, none: Error) {
    if ids == {} then r == Err(none)
    else if Single(ids) then r.Ok? && r.value.Some? && ids == {r.value.value}
    else r == Ok(None)
  }

  // -------------------------------------------------------------- steps

  lemma {:induction false} LsnAdded(lsns: Lsns, ports: LsnPorts, rows: Lsns, portRows: LsnPorts, next: Id, n: NetworkId)
    requires Inv(lsns, ports, rows, portRows, next)
    ensures Inv(lsns[next := n], ports, rows, portRows, next + 1) && next !in lsns && next !in rows
  {
  }

  lemma {:induction false} LsnRowAdded(lsns: Lsns, ports: LsnPorts, rows: Lsns, portRows: LsnPorts, next: Id, l: Id)
    requires Inv(lsns, ports, rows, portRows, next) && l in lsns
    ensures Inv(lsns, ports, rows[l := lsns[l]], portRows, next)
  {
  }

  lemma {:induction false} PortAdded(lsns: Lsns, ports: LsnPorts, rows: Lsns, portRows: LsnPorts, next: Id, p: LsnPort)
    requires Inv(lsns, ports, rows, portRows, next) && p.lsn in lsns
    ensures Inv(lsns, ports[next := p], rows, portRows, next + 1) && next !in ports && next !in portRows
  {
  }

  lemma {:induction false} PortRowAdded(lsns: Lsns, ports: LsnPorts, rows: Lsns, portRows: LsnPorts, next: Id, p: Id)
    requires Inv(lsns, ports, rows, portRows, next) && p in ports && ports[p].lsn in rows
    requires p !in portRows && !Clashes(portRows, ports[p])
    ensures Inv(lsns, ports, rows, portRows[p := ports[p]], next)
  {
  }

  /** Rows go first, together with the rows that refer to them. */
  lemma {:induction false} LsnRowRemoved(lsns: Lsns, ports: LsnPorts, rows: Lsns, portRows: LsnPorts, next: Id, l: Id)
    requires Inv(lsns, ports, rows, portRows, next)
    ensures Inv(lsns, ports, rows - {l}, WithoutLsn(portRows, l), next)
  {
  }

  lemma {:induction false} LsnRemoved(lsns: Lsns, ports: LsnPorts, rows: Lsns, portRows: LsnPorts, next: Id, l: Id)
    requires Inv(lsns, ports, rows, portRows, next) && l !in rows
    ensures Inv(lsns - {l}, WithoutLsn(ports, l), rows, portRows, next)
  {
  }

  lemma {:induction false} PortRowRemoved(lsns: Lsns, ports: LsnPorts, rows: Lsns, portRows: LsnPorts, next: Id, p: Id)
    requires Inv(lsns, ports, rows, portRows, next)
    ensures Inv(lsns, ports, rows, portRows - {p}, next)
  {
  }

  lemma {:induction false} PortRemoved(lsns: Lsns, ports: LsnPorts, rows: Lsns, portRows: LsnPorts, next: Id, p: Id)
    requires Inv(lsns, ports, rows, portRows, next) && p !in portRows
    ensures Inv(lsns, ports - {p}, rows, portRows, next)
  {
  }

  /** A node the backend just created has no ports yet. */
  lemma {:induction false} NoPorts(lsns: Lsns, ports: LsnPorts, before: Lsns, l: Id, n: NetworkId)
    requires Parented(ports, before) && lsns == before[l := n] && l !in before
    ensures WithoutLsn(ports, l) == ports && lsns - {l} == before
  {
  }

  /** What a lookup comes to when nothing raises: the one row there is; or, with
      none, the one LSN the backend has, which is then stored. */
  ghost predicate Resolved(rows: Lsns, lsns: Lsns, n: NetworkId, raiseOnErr: bool, sync: bool, rows': Lsns, r: Result<Option<Id>>) {
    var ids, remote := OnNetwork(rows, n), OnNetwork(lsns, n);
    if Single(ids) then r.Ok? && r.value.Some? && ids == {r.value.value} && rows' == rows
    else if ids != {} then r == Err(MultipleResultsFound) && rows' == rows
    else if !raiseOnErr then r == Ok(None) && rows' == rows
    else if !sync || remote == {} then r == Err(LsnNotFound) && rows' == rows
    else if Single(remote) then r.Ok? && r.value.Some? && remote == {r.value.value} && rows' == rows[r.value.value := n]
    else r == Err(NsxPluginException) && rows' == rows
  }

  /** The one port that the backend has for the tag can be stored. */
  ghost predicate Pulls(portRows: LsnPorts, rows: Lsns, ports: LsnPorts, n: NetworkId, tag: Tag, l: Id, p: Id) {
    && !Stored(portRows, tag) && OnNetwork(rows, n) == {l} && Tagged(ports, l, tag) == {p}
    && p !in portRows && p in ports && !Clashes(portRows, ports[p])
  }

  lemma {:induction false} OnlyOne(rows: LsnPorts, p: Id, mac: Mac)
    requires Unique(rows) && p in rows && rows[p].mac == mac
    ensures !Stored(rows - {p}, ByMac(mac))
  {
    forall q | q in rows - {p} ensures rows[q].mac != mac {}
  }

  /** An LSN of the network that is not among its rows has no row at all. */
  lemma {:induction false} NoRow(rows: Lsns, lsns: Lsns, n: NetworkId, l: Id)
    requires Submap(rows, lsns) && OnNetwork(rows, n) == {} && l in OnNetwork(lsns, n)
    ensures l !in rows
  {
    assert l in rows ==> l in OnNetwork(rows, n);
  }

  // --------------------------------------------------------- the manager

  class PersistentLsnManager {
    const syncOnMissing: bool
    /** The backend's LSNs with their network, and ports. */
    var lsns: Lsns
    var ports: LsnPorts
    var next: Id
    /** The local tables. */
    var lsnRows: Lsns
    var portRows: LsnPorts
    /** Fates of the calls to come; past the end every call works. */
    var creates: seq<Fate>
    var deletes: seq<Fate>
    var failures: seq<bool>

    constructor (syncOnMissing: bool, creates: seq<Fate>, deletes: seq<Fate>, failures: seq<bool>)
      ensures this.syncOnMissing == syncOnMissing && lsns == map[] && ports == map[] && lsnRows == map[] && portRows == map[]
      ensures Sound()
    {
      this.syncOnMissing, this.creates, this.deletes, this.failures := syncOnMissing, creates, deletes, failures;
      lsns, ports, next, lsnRows, portRows := map[], map[], 0, map[], map[];
    }

    ghost predicate Sound()
      reads this
    {
      Inv(lsns, ports, lsnRows, portRows, next)
    }

    /** Whether the next query or local write raises. */
    method Failing() returns (b: bool)
      modifies `failures
      ensures Reliable(old(failures)) ==> !b && Reliable(failures)
    {
      if failures == [] { return false; }
      b := failures[0];
      assert b in failures && forall c :: c in failures[1..] ==> c in failures;
      failures := failures[1..];
    }

    method NextCreate() returns (f: Fate)
      modifies `creates
      ensures NoneLost(old(creates)) ==> f != Lost && NoneLost(creates)
      ensures AllWork(old(creates)) ==> f == Works && AllWork(creates)
    {
      if creates == [] { return Works; }
      f := creates[0];
      assert f in creates && forall g :: g in creates[1..] ==> g in creates;
      creates := creates[1..];
    }

    method NextDelete() returns (f: Fate)
      modifies `deletes
      ensures DeletesWork(old(deletes)) ==> f != Fails && DeletesWork(deletes)
    {
      if deletes == [] { return Works; }
      f := deletes[0];
      assert f in deletes && forall g :: g in deletes[1..] ==> g in deletes;
      deletes := deletes[1..];
    }

    // ------------------------------------------------- backend requests

    method LsnForNetworkCreate(n: NetworkId) returns (r: Result<Id>)
      requires Sound()
      modifies `lsns, `next, `creates
      ensures Sound()
      ensures r.Ok? ==> r.value == old(next) && lsns == old(lsns)[r.value := n] && r.value !in old(lsns)
      ensures r.Err? ==> r.error == ApiException
      ensures r.Err? ==> lsns == old(lsns) || (lsns == old(lsns)[old(next) := n] && !NoneLost(old(creates)))
      ensures NoneLost(old(creates)) ==> NoneLost(creates)
      ensures AllWork(old(creates)) ==> r.Ok?
    {
      var f := NextCreate();
      if f == Fails { return Err(ApiException); }
      LsnAdded(lsns, ports, lsnRows, portRows, next, n);
      lsns, next := lsns[next := n], next + 1;
      r := if f == Works then Ok(next - 1) else Err(ApiException);
    }

    /** None if more than one LSN carries the network's tag. */
    method LsnForNetworkGet(n: NetworkId) returns (r: Result<Option<Id>>)
      modifies `failures
      ensures r.Ok? && r.value.Some? ==> OnNetwork(lsns, n) == {r.value.value}
      ensures Reliable(old(failures)) ==> Reliable(failures) && Matches(OnNetwork(lsns, n), r, LsnNotFound)
    {
      var fails := Failing();
      if fails { return Err(ApiException); }
      var results := OnNetwork(lsns, n);
      if results == {} { return Err(LsnNotFound); }
      var l :| l in results;
      r := Ok(if results == {l} then Some(l) else None);
    }

    method BackendLsnDelete(l: Id)
      requires Sound() && l !in lsnRows
      modifies `lsns, `ports, `deletes
      ensures Sound()
      ensures (lsns == old(lsns) - {l} && ports == WithoutLsn(old(ports), l)) || (lsns == old(lsns) && ports == old(ports))
      ensures DeletesWork(old(deletes)) ==> lsns == old(lsns) - {l} && DeletesWork(deletes)
    {
      var f := NextDelete();
      if f != Fails {
        LsnRemoved(lsns, ports, lsnRows, portRows, next, l);
        lsns, ports := lsns - {l}, WithoutLsn(ports, l);
      }
    }

    method BackendPortCreate(p: LsnPort) returns (r: Result<Id>)
      requires Sound()
      modifies `ports, `next, `creates
      ensures Sound()
      ensures r.Ok? ==> p.lsn in lsns && r.value == old(next) && ports == old(ports)[r.value := p] && r.value !in old(ports)
      ensures r.Err? ==> r.error == ApiException || r.error == LsnNotFound
      ensures r.Err? ==> ports == old(ports) || (ports == old(ports)[old(next) := p] && !NoneLost(old(creates)))
      ensures NoneLost(old(creates)) ==> NoneLost(creates)
      ensures AllWork(old(creates)) && p.lsn in lsns ==> r.Ok?
    {
      var f := NextCreate();
      if f == Fails { return Err(ApiException); }
      if p.lsn !in lsns { return Err(LsnNotFound); }
      PortAdded(lsns, ports, lsnRows, portRows, next, p);
      ports, next := ports[next := p], next + 1;
      r := if f == Works then Ok(next - 1) else Err(ApiException);
    }

    method BackendPortGet(l: Id, tag: Tag) returns (r: Result<Option<Id>>)
      modifies `failures
      ensures r.Ok? && r.value.Some? ==> Tagged(ports, l, tag) == {r.value.value}
      ensures Reliable(old(failures)) ==> Reliable(failures) && Matches(Tagged(ports, l, tag), r, LsnPortNotFound)
    {
      var fails := Failing();
      if fails { return Err(ApiException); }
      var results := Tagged(ports, l, tag);
      if results == {} { return Err(LsnPortNotFound); }
      var p :| p in results;
      r := Ok(if results == {p} then Some(p) else None);
    }

    /** Without a port id the reply is a listing, which has no tags. */
    method LsnPortInfoGet(l: Id, p: Option<Id>) returns (r: Result<LsnPort>)
      modifies `failures
      ensures r.Ok? ==> p.Some? && p.value in ports && ports[p.value].lsn == l && r.value == ports[p.value]
      ensures Reliable(old(failures)) ==>
                Reliable(failures) && (r.Ok? <==> p.Some? && p.value in ports && ports[p.value].lsn == l)
    {
      var fails := Failing();
      if fails { return Err(ApiException); }
      if p.None? { return Err(Malformed); }
      if p.value !in ports || ports[p.value].lsn != l { return Err(LsnPortNotFound); }
      r := Ok(ports[p.value]);
    }

    method BackendPortDelete(p: Id)
      requires Sound() && p !in portRows
      modifies `ports, `deletes
      ensures Sound()
      ensures ports == old(ports) - {p} || ports == old(ports)
      ensures DeletesWork(old(deletes)) ==> ports == old(ports) - {p} && DeletesWork(deletes)
    {
      var f := NextDelete();
      if f != Fails {
        PortRemoved(lsns, ports, lsnRows, portRows, next, p);
        ports := ports - {p};
      }
    }

    // ------------------------------------------------------ local tables

    /** `lsn_save`: a missing or repeated primary key is a database error. */
    method LsnSave(n: NetworkId, l: Option<Id>) returns (r: Result<()>)
      requires Sound() && (l.Some? ==> l.value in lsns && lsns[l.value] == n)
      modifies `lsnRows, `failures
      ensures Sound()
      ensures r.Ok? ==> l.Some? && lsnRows == old(lsnRows)[l.value := n] && l.value !in old(lsnRows)
      ensures r.Err? ==> r.error == NsxPluginException && lsnRows == old(lsnRows)
      ensures Reliable(old(failures)) ==> Reliable(failures) && (r.Ok? <==> l.Some? && l.value !in old(lsnRows))
    {
      var fails := Failing();
      if fails || l.None? || l.value in lsnRows { return Err(NsxPluginException); }
      LsnRowAdded(lsns, ports, lsnRows, portRows, next, l.value);
      lsnRows := lsnRows[l.value := n];
      r := Ok(());
    }

    /** `lsn_port_save`: all constraints of the port table apply. */
    method LsnPortSave(p: Id, subnet: SubnetId, mac: Mac, l: Id) returns (r: Result<()>)
      requires Sound() && p in ports && ports[p] == LsnPort(l, subnet, mac)
      modifies `portRows, `failures
      ensures Sound()
      ensures r.Ok? ==> portRows == old(portRows)[p := ports[p]] && p !in old(portRows)
      ensures r.Err? ==> r.error == NsxPluginException && portRows == old(portRows)
      ensures Reliable(old(failures)) ==>
                Reliable(failures) && (r.Ok? <==> p !in old(portRows) && l in lsnRows && !Clashes(old(portRows), LsnPort(l, subnet, mac)))
    {
      var fails := Failing();
      var row := LsnPort(l, subnet, mac);
      if fails || p in portRows || l !in lsnRows || Clashes(portRows, row) { return Err(NsxPluginException); }
      PortRowAdded(lsns, ports, lsnRows, portRows, next, p);
      portRows := portRows[p := row];
      r := Ok(());
    }

    method LsnGetForNetwork(n: NetworkId) returns (r: Result<Id>)
      modifies `failures
      ensures r.Ok? ==> r.value in lsnRows && lsnRows[r.value] == n
      ensures r.Err? ==> r.error == LsnNotFound || r.error == MultipleResultsFound
      ensures Reliable(old(failures)) ==>
                var ids := OnNetwork(lsnRows, n);
                && Reliable(failures) && (ids == {} <==> r == Err(LsnNotFound))
                && (Single(ids) <==> r.Ok?) && (r.Ok? ==> ids == {r.value})
    {
      var fails := Failing();
      var results := OnNetwork(lsnRows, n);
      if fails || results == {} { return Err(LsnNotFound); }
      var l :| l in results;
      r := if results == {l} then Ok(l) else Err(MultipleResultsFound);
    }

    method LsnPortGetFor(tag: Tag) returns (r: Result<Id>)
      requires Sound()
      modifies `failures
      ensures r.Ok? ==> r.value in portRows && Carries(portRows[r.value], tag)
      ensures r.Err? ==> r.error == LsnPortNotFound
      ensures Reliable(old(failures)) ==> Reliable(failures) && (r.Ok? <==> Stored(portRows, tag))
    {
      var fails := Failing();
      var results := set p | p in portRows && Carries(portRows[p], tag);
      assert Stored(portRows, tag) <==> results != {} by {
        if p :| p in portRows && Carries(portRows[p], tag) { assert p in results; }
      }
      if fails || results == {} { return Err(LsnPortNotFound); }
      var p :| p in results;
      r := Ok(p);
    }

    // -------------------------------------------------------------- LSNs

    /** With `syncOnMissing`, an LSN only the backend knows is stored. */
    method LsnGet(n: NetworkId, raiseOnErr: bool) returns (r: Result<Option<Id>>)
      requires Sound()
      modifies `lsnRows, `failures
      ensures Sound()
      ensures r.Ok? && r.value.Some? ==> r.value.value in lsnRows && lsnRows[r.value.value] == n
      ensures r.Ok? && r.value.None? ==> !raiseOnErr
      ensures r.Err? ==> lsnRows == old(lsnRows)
      ensures r.Err? ==> r.error == MultipleResultsFound || (raiseOnErr && r.error in {LsnNotFound, NsxPluginException})
      ensures Submap(old(lsnRows), lsnRows) && forall l :: l in lsnRows && l !in old(lsnRows) ==> r == Ok(Some(l))
      ensures !syncOnMissing || !raiseOnErr ==> lsnRows == old(lsnRows)
      ensures Reliable(old(failures)) ==> Reliable(failures) && Resolved(old(lsnRows), lsns, n, raiseOnErr, syncOnMissing, lsnRows, r)
      ensures Reliable(old(failures)) ==> forall l :: OnNetwork(old(lsnRows), n) == {l} ==> r == Ok(Some(l)) && lsnRows == old(lsnRows)
      ensures Reliable(old(failures)) && OnNetwork(old(lsnRows), n) == {} && !raiseOnErr ==> r == Ok(None)
      ensures Reliable(old(failures)) && OnNetwork(old(lsnRows), n) == {} && raiseOnErr && (!syncOnMissing || OnNetwork(lsns, n) == {}) ==>
                r == Err(LsnNotFound)
      ensures Reliable(old(failures)) && OnNetwork(old(lsnRows), n) == {} && raiseOnErr && syncOnMissing ==>
                forall l :: OnNetwork(lsns, n) == {l} ==> r == Ok(Some(l)) && lsnRows == old(lsnRows)[l := n]
    {
      var row := LsnGetForNetwork(n);
      if row.Ok? { return Ok(Some(row.value)); }
      if row.error == MultipleResultsFound { return Err(MultipleResultsFound); }
      if !raiseOnErr { return Ok(None); }
      if !syncOnMissing { return Err(LsnNotFound); }
      var remote := LsnForNetworkGet(n);
      if remote.Err? { return Err(LsnNotFound); }
      if remote.value.Some? {
        assert remote.value.value in OnNetwork(lsns, n);
        if OnNetwork(lsnRows, n) == {} { NoRow(lsnRows, lsns, n, remote.value.value); }
      }
      var saved := LsnSave(n, remote.value);
      r := if saved.Ok? then Ok(remote.value) else Err(saved.error);
    }

    /** A failed creation leaves no row, and nothing on the backend either if
        the compensating delete takes effect. */
    method LsnCreate(n: NetworkId) returns (r: Result<Id>)
      requires Sound()
      modifies this
      ensures Sound()
      ensures portRows == old(portRows) && ports == old(ports)
      ensures r.Ok? ==> r.value !in old(lsns) && lsns == old(lsns)[r.value := n] && lsnRows == old(lsnRows)[r.value := n]
      ensures r.Err? ==> r.error == NsxPluginException && lsnRows == old(lsnRows)
      ensures r.Err? ==> lsns == old(lsns) || lsns == old(lsns)[old(next) := n]
      ensures r.Err? && DeletesWork(old(deletes)) && NoneLost(old(creates)) ==> lsns == old(lsns)
      ensures AllWork(old(creates)) && Reliable(old(failures)) ==> r.Ok?
    {
      var made := LsnForNetworkCreate(n);
      if made.Err? { return Err(NsxPluginException); }
      var saved := LsnSave(n, Some(made.value));
      if saved.Err? {
        NoPorts(lsns, ports, old(lsns), made.value, n);
        BackendLsnDelete(made.value);
        return Err(saved.error);
      }
      r := made;
    }

    /** The rows go first, so that they never outlive the LSN. */
    method LsnDelete(l: Id) returns (r: Result<()>)
      requires Sound()
      modifies this
      ensures Sound()
      ensures r.Err? ==> r.error == DbError && lsns == old(lsns) && ports == old(ports) && lsnRows == old(lsnRows) && portRows == old(portRows)
      ensures r.Ok? ==> lsnRows == old(lsnRows) - {l} && portRows == WithoutLsn(old(portRows), l)
      ensures r.Ok? ==> (lsns == old(lsns) - {l} && ports == WithoutLsn(old(ports), l)) || (lsns == old(lsns) && ports == old(ports))
      ensures r.Ok? && DeletesWork(old(deletes)) ==> l !in lsns
      ensures Reliable(old(failures)) ==> r.Ok?
    {
      var fails := Failing();
      if fails { return Err(DbError); }
      LsnRowRemoved(lsns, ports, lsnRows, portRows, next, l);
      lsnRows, portRows := lsnRows - {l}, WithoutLsn(portRows, l);
      BackendLsnDelete(l);
      r := Ok(());
    }

    method LsnDeleteByNetwork(n: NetworkId) returns (r: Result<()>)
      requires Sound()
      modifies this
      ensures Sound()
      ensures Submap(lsnRows, old(lsnRows)) && Submap(portRows, old(portRows)) && Submap(lsns, old(lsns)) && Submap(ports, old(ports))
      ensures forall l :: l in old(lsnRows) && l !in lsnRows ==> old(lsnRows)[l] == n
      ensures Reliable(old(failures)) && Single(OnNetwork(old(lsnRows), n)) ==> r.Ok? && OnNetwork(lsnRows, n) == {}
      ensures Reliable(old(failures)) && Single(OnNetwork(old(lsnRows), n)) && DeletesWork(old(deletes)) ==>
                forall l :: l in OnNetwork(old(lsnRows), n) ==> l !in lsns
      ensures Reliable(old(failures)) && !Single(OnNetwork(old(lsnRows), n)) ==>
                && r == (if OnNetwork(old(lsnRows), n) == {} then Ok(()) else Err(MultipleResultsFound))
                && lsns == old(lsns) && ports == old(ports) && lsnRows == old(lsnRows) && portRows == old(portRows)
    {
      var found := LsnGet(n, false);
      if found.Err? { return Err(found.error); }
      r := Ok(());
      if found.value.Some? {
        r := LsnDelete(found.value.value);
      }
    }

    // ------------------------------------------------------------- ports

    /** `lsn_port_get` and `lsn_port_get_by_mac`. On a miss, the LSN is looked
        up through the overriding `LsnGet`, which may store it first. */
    method LsnPortGet(n: NetworkId, tag: Tag, raiseOnErr: bool) returns (r: Result<Option<(Id, Id)>>)
      requires Sound()
      modifies `lsnRows, `portRows, `failures
      ensures Sound()
      ensures r.Ok? && r.value.Some? ==>
                var (l, p) := r.value.value; p in portRows && portRows[p].lsn == l && Carries(portRows[p], tag)
      ensures r.Ok? && r.value.Some? ==>
                var row := portRows[r.value.value.1]; match tag case BySubnet(s) => row.subnet == s case ByMac(m) => row.mac == m
      ensures r.Ok? && r.value.None? ==> !raiseOnErr
      ensures Submap(old(lsnRows), lsnRows) && Submap(old(portRows), portRows)
      ensures r.Err? ==> portRows == old(portRows)
      ensures !syncOnMissing || !raiseOnErr ==> lsnRows == old(lsnRows) && portRows == old(portRows)
      ensures Reliable(old(failures)) ==> Reliable(failures)
      ensures Reliable(old(failures)) && Stored(old(portRows), tag) ==> r.Ok? && r.value.Some? && portRows == old(portRows)
      ensures Reliable(old(failures)) && !Stored(old(portRows), tag) && (!raiseOnErr || !syncOnMissing) ==>
                r == if raiseOnErr then Err(LsnPortNotFound) else Ok(None)
      ensures forall l: Id, p: Id :: Reliable(old(failures)) && raiseOnErr && syncOnMissing && Pulls(old(portRows), old(lsnRows), ports, n, tag, l, p) ==>
                r == Ok(Some((l, p))) && portRows == old(portRows)[p := ports[p]]
    {
      var row := LsnPortGetFor(tag);
      if row.Ok? { return Ok(Some((portRows[row.value].lsn, row.value))); }
      if !raiseOnErr { return Ok(None); }
      if !syncOnMissing { return Err(LsnPortNotFound); }
      var lsn := LsnGet(n, raiseOnErr);
      if lsn.Err? { return Err(lsn.error); }
      var l := lsn.value.value;
      var port := BackendPortGet(l, tag);
      if port.Err? { return Err(LsnPortNotFound); }
      var info := LsnPortInfoGet(l, port.value);
      if info.Err? { return Err(info.error); }
      assert port.value.value in Tagged(ports, l, tag);
      var saved;
      match tag {
        case BySubnet(subnet) => saved := LsnPortSave(port.value.value, subnet, info.value.mac, l);
        case ByMac(mac) => saved := LsnPortSave(port.value.value, info.value.subnet, mac, l);
      }
      r := if saved.Ok? then Ok(Some((l, port.value.value))) else Err(saved.error);
    }

    method LsnPortCreate(p: LsnPort) returns (r: Result<Id>)
      requires Sound()
      modifies this
      ensures Sound()
      ensures lsnRows == old(lsnRows) && lsns == old(lsns)
      ensures r.Ok? ==> r.value == old(next) && r.value !in old(ports) && r.value !in old(portRows)
      ensures r.Ok? ==> ports == old(ports)[r.value := p] && portRows == old(portRows)[r.value := p]
      ensures r.Err? ==> r.error in {LsnNotFound, NsxPluginException} && portRows == old(portRows)
      ensures r.Err? ==> ports == old(ports) || (ports == old(ports)[old(next) := p] && old(next) !in old(ports))
      ensures r.Err? && DeletesWork(old(deletes)) && NoneLost(old(creates)) ==> ports == old(ports)
      ensures AllWork(old(creates)) && Reliable(old(failures)) && p.lsn in lsnRows && !Clashes(old(portRows), p) ==> r.Ok?
      ensures DeletesWork(old(deletes)) ==> DeletesWork(deletes)
      ensures Reliable(old(failures)) ==> Reliable(failures)
    {
      var made := BackendPortCreate(p);
      if made.Err? { return Err(if made.error == LsnNotFound then LsnNotFound else NsxPluginException); }
      var saved := LsnPortSave(made.value, p.subnet, p.mac, p.lsn);
      if saved.Err? {
        assert made.value !in portRows;
        BackendPortDelete(made.value);
        return Err(saved.error);
      }
      r := made;
    }

    method LsnPortDelete(p: Id) returns (r: Result<()>)
      requires Sound()
      modifies `ports, `portRows, `deletes, `failures
      ensures Sound()
      ensures r.Err? ==> r.error == DbError && ports == old(ports) && portRows == old(portRows)
      ensures r.Ok? ==> portRows == old(portRows) - {p} && (ports == old(ports) - {p} || ports == old(ports))
      ensures r.Ok? && DeletesWork(old(deletes)) ==> ports == old(ports) - {p}
      ensures Reliable(old(failures)) ==> r.Ok?
    {
      var fails := Failing();
      if fails { return Err(DbError); }
      PortRowRemoved(lsns, ports, lsnRows, portRows, next, p);
      portRows := portRows - {p};
      BackendPortDelete(p);
      r := Ok(());
    }

    /** Deletes the port of this MAC, and with that of the metadata address the
        network's metadata port on the switch: `switchPort` says whether one is
        found and lets itself be deleted, `gone` whether it was deleted. */
    method LsnPortDispose(n: NetworkId, mac: Mac, switchPort: Option<bool>) returns (r: Result<()>, gone: bool)
      requires Sound()
      modifies this
      ensures Sound()
      ensures lsns == old(lsns) && lsnRows == old(lsnRows) && Submap(ports, old(ports)) && Submap(portRows, old(portRows))
      ensures forall p :: p in old(portRows) && p !in portRows ==> old(portRows)[p].mac == mac
      ensures gone ==> r.Ok? && mac == METADATA_MAC && switchPort == Some(true) && !Stored(portRows, ByMac(mac)) && Stored(old(portRows), ByMac(mac))
      ensures Reliable(old(failures)) ==> r.Ok? && !Stored(portRows, ByMac(mac))
      ensures Reliable(old(failures)) ==>
                (gone <==> Stored(old(portRows), ByMac(mac)) && mac == METADATA_MAC && switchPort == Some(true))
      ensures Reliable(old(failures)) && DeletesWork(old(deletes)) ==>
                forall p :: p in old(portRows) && old(portRows)[p].mac == mac ==> p !in ports
      ensures Reliable(old(failures)) && !Stored(old(portRows), ByMac(mac)) ==> ports == old(ports) && portRows == old(portRows)
    {
      gone := false;
      var found := LsnPortGet(n, ByMac(mac), false);
      if found.Err? { return Err(found.error), gone; }
      r := Ok(());
      if found.value.Some? {
        OnlyOne(portRows, found.value.value.1, mac);
        r := LsnPortDelete(found.value.value.1);
        // A missing switch port and a refused deletion are only logged.
        if r.Ok? && mac == METADATA_MAC && switchPort.Some? { gone := switchPort.value; }
      }
    }

    /** Creates a port and plugs it into a switch. After a configuration error
        neither side has the port, or only the backend if it kept it. */
    method LsnPortDhcpSetup(n: NetworkId, switch: Result<()>, subnet: SubnetId, mac: Mac, plug: Plug, configured: Option<bool>)
      returns (r: Result<Option<(Id, Id)>>)
      requires Sound()
      modifies this
      ensures Sound()
      ensures lsns == old(lsns) && Submap(old(lsnRows), lsnRows)
      ensures r.Ok? ==>
                && OneMore(ports, old(ports), old(next), subnet, mac) && OneMore(portRows, old(portRows), old(next), subnet, mac)
                && portRows[old(next)].lsn in lsnRows && lsnRows[portRows[old(next)].lsn] == n
                && r.value == if configured.None? then Some((portRows[old(next)].lsn, old(next))) else None
      ensures r == Err(PortConfigurationError) ==>
                && portRows == old(portRows)
                && (ports == old(ports) || OneMore(ports, old(ports), old(next), subnet, mac))
                && (DeletesWork(old(deletes)) && NoneLost(old(creates)) ==> ports == old(ports))
      ensures plug == Conflict ==> r.Err?
      ensures plug == Conflict && DeletesWork(old(deletes)) && NoneLost(old(creates)) && Reliable(old(failures)) ==>
                ports == old(ports) && portRows == old(portRows)
      ensures switch.Err? ==>
                && r.Err? && ports == old(ports) && portRows == old(portRows) && lsnRows == old(lsnRows)
                && (switch.error in {LsnNotFound, LsnPortNotFound, NsxPluginException} ==> r.error == PortConfigurationError)
      ensures !syncOnMissing ==> lsnRows == old(lsnRows)
      ensures AllWork(old(creates)) && Reliable(old(failures)) && switch.Ok? && plug == Plugged && configured != Some(false) ==>
                forall l: Id | OnNetwork(old(lsnRows), n) == {l} && !Clashes(old(portRows), LsnPort(l, subnet, mac)) :: r.Ok?
      ensures AllWork(old(creates)) && Reliable(old(failures)) && switch.Ok? ==>
                forall l: Id | OnNetwork(old(lsnRows), n) == {l} && !Clashes(old(portRows), LsnPort(l, subnet, mac)) ::
                  && (plug == Conflict ==> r == Err(PortConfigurationError))
                  && (plug == PlugError ==> r == Err(ApiException))
                  && (plug == Plugged && configured == Some(false) ==> r == Err(NsxPluginException))
                  && (plug != Conflict ==>
                        ports == old(ports)[old(next) := LsnPort(l, subnet, mac)] && portRows == old(portRows)[old(next) := LsnPort(l, subnet, mac)])
    {
      hide Inv, Clashes;
      if switch.Err? {
        return Err(if switch.error in {LsnNotFound, LsnPortNotFound, NsxPluginException} then PortConfigurationError
                   else if switch.error == PortConfigurationError then ApiException else switch.error);
      }
      var lsn := LsnGet(n, true);
      if lsn.Err? {
        return Err(if lsn.error == MultipleResultsFound then MultipleResultsFound else PortConfigurationError);
      }
      var l := lsn.value.value;
      assert forall k: Id :: Reliable(old(failures)) && OnNetwork(old(lsnRows), n) == {k} ==> k == l by {
        forall k: Id | Reliable(old(failures)) && OnNetwork(old(lsnRows), n) == {k} ensures k == l {
          assert Single(OnNetwork(old(lsnRows), n)) && k in {l};
        }
      }
      var port := LsnPortCreate(LsnPort(l, subnet, mac));
      if port.Err? { return Err(PortConfigurationError); }
      if plug == Conflict {
        assert ports - {port.value} == old(ports) && portRows - {port.value} == old(portRows);
        var deleted := LsnPortDelete(port.value);
        return Err(if deleted.Err? then deleted.error else PortConfigurationError);
      }
      if plug == PlugError { return Err(ApiException); }
      if configured == Some(false) { return Err(NsxPluginException); }
      r := Ok(if configured.None? then Some((l, port.value)) else None);
    }

    // -------------------------------------------------------------- runs

    method Execute(c: Command)
      requires Sound()
      modifies this
      ensures Sound()
    {
      match c {
        case Get(n, raiseOnErr) => var r := LsnGet(n, raiseOnErr);
        case Create(n) => var r := LsnCreate(n);
        case Delete(l) => var r := LsnDelete(l);
        case DeleteByNetwork(n) => var r := LsnDeleteByNetwork(n);
        case PortGet(n, tag, raiseOnErr) => var r := LsnPortGet(n, tag, raiseOnErr);
        case PortCreate(p) => var r := LsnPortCreate(p);
        case PortDelete(p) => var r := LsnPortDelete(p);
        case PortDispose(n, mac, switchPort) => var r, gone := LsnPortDispose(n, mac, switchPort);
        case DhcpSetup(n, switch, subnet, mac, plug, configured) =>
          var r := LsnPortDhcpSetup(n, switch, subnet, mac, plug, configured);
      }
    }

    /** However calls fail, the local store never names an LSN or a port that
        the backend lacks or knows with other attributes, and never a port
        without its LSN. */
    method Run(commands: seq<Command>)
      requires Sound()
      modifies this
      ensures Sound()
      ensures forall l :: l in lsnRows ==> l in lsns && lsns[l] == lsnRows[l]
      ensures forall p :: p in portRows ==> p in ports && ports[p] == portRows[p] && portRows[p].lsn in lsnRows
    {
      for i := 0 to |commands|
        invariant Sound()
      {
        Execute(commands[i]);
      }
    }
  }
}
