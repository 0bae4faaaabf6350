/**
 * The metadata access network of a router: an internal network with one
 * subnet, attached to the router by an interface that holds a fixed address.
 *
 * The handlers create it and destroy it through the plugin's own interface
 * calls, which invoke the handlers again. Any call may raise, as decided by
 * `outcomes`, and what becomes of the exception depends on its class.
 */
module MetadataNetworks {
  import opened Options

  type Id = nat
  type RouterId = string
  const METADATA_GATEWAY_IP := "169.254.169.253"

  datatype FixedIp = FixedIp(subnet: Id, ip: string)
  datatype Port = Port(router: RouterId, network: Id, fixedIps: seq<FixedIp>)
  datatype Subnet = Subnet(network: Id, enableDhcp: bool)

  /** A network is a tenant's, or bears the name `meta-<router>`. */
  datatype Purpose = Tenant | Meta(router: RouterId)

  type Networks = map<Id, Purpose>
  type Subnets = map<Id, Subnet>
  type Ports = map<Id, Port>

  // ------------------------------------------------------------ queries

  ghost predicate IsMeta(p: Port) {
    exists f :: f in p.fixedIps && f.ip == METADATA_GATEWAY_IP
  }

  ghost predicate Has(ports: Ports, r: RouterId) {
    exists p :: p in ports && ports[p].router == r && IsMeta(ports[p])
  }

  ghost predicate AtMostOne(ports: Ports) {
    forall p, q :: p in ports && q in ports && IsMeta(ports[p]) && IsMeta(ports[q]) && ports[p].router == ports[q].router
                   ==> p == q
  }

  function RouterPorts(ports: Ports, r: RouterId): set<Id> {
    set p | p in ports && ports[p].router == r
  }

  predicate DhcpOff(subnets: Subnets, p: Port) {
    exists f :: f in p.fixedIps && f.subnet in subnets && !subnets[f.subnet].enableDhcp
  }

  /** Some port of the router has an address on a subnet without DHCP. */
  ghost predicate Disabled(ports: Ports, subnets: Subnets, r: RouterId) {
    exists p :: p in ports && ports[p].router == r && DhcpOff(subnets, ports[p])
  }

  ghost predicate HasTenant(ports: Ports, r: RouterId) {
    exists p :: p in ports && ports[p].router == r && !IsMeta(ports[p])
  }

  /** Some tenant interface of the router is on a subnet without DHCP. */
  ghost predicate TenantDisabled(ports: Ports, subnets: Subnets, r: RouterId) {
    exists p :: p in ports && ports[p].router == r && !IsMeta(ports[p]) && DhcpOff(subnets, ports[p])
  }

  /** When a router is meant to have a metadata network. */
  ghost predicate Wants(ports: Ports, subnets: Subnets, r: RouterId, onDemand: bool) {
    if onDemand then TenantDisabled(ports, subnets, r) else HasTenant(ports, r)
  }

  ghost predicate Agrees(ports: Ports, subnets: Subnets, r: RouterId, enabled: bool, onDemand: bool) {
    Has(ports, r) <==> enabled && Wants(ports, subnets, r, onDemand)
  }

  // ---------------------------------------------------------- invariant

  ghost predicate Fresh(networks: Networks, subnets: Subnets, ports: Ports, next: Id) {
    forall i :: i in networks || i in subnets || i in ports ==> i < next
  }

  /** A metadata interface has one address, on the subnet of its network; a
      tenant's is on a tenant's network. */
  ghost predicate Placed(networks: Networks, subnets: Subnets, p: Port) {
    && p.network in networks
    && (forall f :: f in p.fixedIps ==> f.subnet in subnets && subnets[f.subnet].network == p.network)
    && if IsMeta(p) then |p.fixedIps| == 1 && networks[p.network] == Meta(p.router)
       else networks[p.network] == Tenant
  }

  ghost predicate AllPlaced(networks: Networks, subnets: Subnets, ports: Ports) {
    forall p :: p in ports ==> Placed(networks, subnets, ports[p])
  }

  ghost predicate SubnetsSound(networks: Networks, subnets: Subnets) {
    forall s :: s in subnets ==>
      && subnets[s].network in networks
      && (networks[subnets[s].network].Meta? ==> subnets[s].enableDhcp)
  }

  ghost predicate Inv(networks: Networks, subnets: Subnets, ports: Ports, next: Id) {
    && Fresh(networks, subnets, ports, next)
    && SubnetsSound(networks, subnets)
    && AllPlaced(networks, subnets, ports)
    && AtMostOne(ports)
  }

  /** No metadata network without its interface. */
  ghost predicate Tidy(networks: Networks, ports: Ports) {
    forall n :: n in networks && networks[n].Meta? ==> exists p :: p in ports && ports[p].network == n
  }

  /** Only metadata interfaces of router `r` differ. */
  ghost predicate SamePorts(ports: Ports, ports': Ports, r: RouterId) {
    forall p ::
      && (p in ports && !(ports[p].router == r && IsMeta(ports[p])) ==> p in ports' && ports'[p] == ports[p])
      && (p in ports' && !(ports'[p].router == r && IsMeta(ports'[p])) ==> p in ports && ports'[p] == ports[p])
  }

  /** Tenants' networks and subnets are as before. */
  ghost predicate SameTenants(networks: Networks, subnets: Subnets, networks': Networks, subnets': Subnets) {
    && (forall n :: n in networks && networks[n] == Tenant ==> n in networks' && networks'[n] == Tenant)
    && (forall n :: n in networks' && networks'[n] == Tenant ==> n in networks && networks[n] == Tenant)
    && (forall s :: s in subnets && subnets[s].network in networks && networks[subnets[s].network] == Tenant ==>
          s in subnets' && subnets'[s] == subnets[s])
    && (forall s :: s in subnets' && subnets'[s].network in networks' && networks'[subnets'[s].network] == Tenant ==>
          s in subnets && subnets[s] == subnets'[s])
  }

  /** How a call ends: well, with an exception of one of the three classes the
      handlers deal with, with a reference error of the database, or with any
      other exception. */
  datatype Outcome = Fine | Handled | DbReference | Other

  /** The outcome of the call after the next `i`; past the end all are fine. */
  function At(outcomes: seq<Outcome>, i: nat): Outcome {
    if i < |outcomes| then outcomes[i] else Fine
  }

  function Drop(outcomes: seq<Outcome>, n: nat): seq<Outcome> {
    if n <= |outcomes| then outcomes[n..] else []
  }

  /** How many of the coming calls raise. */
  function Faults(outcomes: seq<Outcome>): nat {
    if outcomes == [] then 0 else (if outcomes[0] == Fine then 0 else 1) + Faults(outcomes[1..])
  }

  predicate Quiet(outcomes: seq<Outcome>) {
    Faults(outcomes) == 0
  }

  lemma {:induction false} DropMore(outcomes: seq<Outcome>, n: nat)
    ensures Drop(outcomes, 0) == outcomes && Drop(Drop(outcomes, n), 1) == Drop(outcomes, n + 1)
    ensures forall i: nat :: At(Drop(outcomes, n), i) == At(outcomes, n + i)
    ensures Faults(outcomes) == Faults(Drop(outcomes, 1)) + if At(outcomes, 0) == Fine then 0 else 1
  {
  }

  /** The first failure among the next `n` calls. */
  function FirstFault(outcomes: seq<Outcome>, n: nat): Outcome {
    if n == 0 then Fine else if At(outcomes, 0) != Fine then At(outcomes, 0) else FirstFault(Drop(outcomes, 1), n - 1)
  }

  /** What is left of a metadata network that was to be created, if at most one
      call raises: all of it, nothing, the network without an interface, or all
      of it unknown to the DHCP agent. */
  datatype Left = Complete | Nothing | Orphan | Silent

  /** The calls are: create the network, schedule it, create the subnet, add the
      interface (three), notify the agent. Scheduling comes before the `try`;
      within it, only a handled exception leads to the network's deletion; and
      after the notification the deletion is refused. */
  function CreateEnd(o: seq<Outcome>, notifies: bool): Left {
    if At(o, 0) != Fine then Nothing
    else if At(o, 1) != Fine then Orphan
    else if FirstFault(Drop(o, 2), 4) == Handled then Nothing
    else if FirstFault(Drop(o, 2), 4) != Fine then Orphan
    else if notifies && At(o, 6) != Fine then Silent
    else Complete
  }

  /** What is left of one that was to be destroyed. */
  datatype Removal = Kept | Gone | Readded | Orphaned

  /** The calls are: remove the interface (two), delete the network, and, if
      that raised, add the interface again. */
  function DestroyEnd(o: seq<Outcome>): Removal {
    if At(o, 0) != Fine then Kept
    else if At(o, 1) != Fine then Orphaned
    else match At(o, 2)
      case Fine => Gone
      case Handled => Readded
      case _ => Orphaned
  }

  /** The failures that leave a network without an interface behind: that of
      the scheduling, and unhandled ones between it and the notification. */
  lemma {:induction false} OrphanIff(o: seq<Outcome>, notifies: bool)
    requires Faults(o) == 1
    ensures CreateEnd(o, notifies) == Orphan <==>
              At(o, 1) != Fine || exists i: nat :: 2 <= i <= 5 && (At(o, i) == DbReference || At(o, i) == Other)
    ensures CreateEnd(o, notifies) == Silent <==> notifies && At(o, 6) != Fine
  {
    OneFault(o);
    FourCalls(o);
  }

  /** Inputs for both: the scheduling raises, or the notification does. */
  lemma {:induction false} LeftBehind()
    ensures Faults([Fine, Handled]) == 1 && CreateEnd([Fine, Handled], true) == Orphan
    ensures var o := [Fine, Fine, Fine, Fine, Fine, Fine, Handled]; Faults(o) == 1 && CreateEnd(o, true) == Silent
  {
    var o := [Fine, Fine, Fine, Fine, Fine, Fine, Handled];
    FourCalls(o);
    assert o[1..] == [Fine, Fine, Fine, Fine, Fine, Handled] && o[1..][1..] == [Fine, Fine, Fine, Fine, Handled];
    assert [Fine, Fine, Fine, Fine, Handled][1..] == [Fine, Fine, Fine, Handled] && [Fine, Fine, Fine, Handled][1..] == [Fine, Fine, Handled];
    assert [Fine, Fine, Handled][1..] == [Fine, Handled] && [Fine, Handled][1..] == [Handled];
  }

  lemma {:induction false} FourCalls(o: seq<Outcome>)
    ensures FirstFault(Drop(o, 2), 4) ==
            if At(o, 2) != Fine then At(o, 2) else if At(o, 3) != Fine then At(o, 3) else if At(o, 4) != Fine then At(o, 4) else At(o, 5)
  {
    var d := Drop(o, 2);
    DropMore(o, 2);
    DropMore(d, 1);
    DropMore(d, 2);
    DropMore(d, 3);
    assert FirstFault(d, 4) == if At(d, 0) != Fine then At(d, 0) else FirstFault(Drop(d, 1), 3);
    assert FirstFault(Drop(d, 1), 3) == if At(d, 1) != Fine then At(d, 1) else FirstFault(Drop(d, 2), 2);
    assert FirstFault(Drop(d, 2), 2) == if At(d, 2) != Fine then At(d, 2) else FirstFault(Drop(d, 3), 1);
    assert FirstFault(Drop(d, 3), 1) == if At(d, 3) != Fine then At(d, 3) else FirstFault(Drop(d, 4), 0);
  }

  lemma {:induction false} SevenCalls(o: seq<Outcome>)
    ensures FirstFault(o, 6) ==
            if At(o, 0) != Fine then At(o, 0) else if At(o, 1) != Fine then At(o, 1) else FirstFault(Drop(o, 2), 4)
    ensures FirstFault(o, 7) == if FirstFault(o, 6) != Fine then FirstFault(o, 6) else At(o, 6)
  {
    DropMore(o, 0);
    DropMore(o, 1);
    FaultMore(o, 6);
    assert FirstFault(o, 6) == if At(o, 0) != Fine then At(o, 0) else FirstFault(Drop(o, 1), 5);
    assert FirstFault(Drop(o, 1), 5) == if At(Drop(o, 1), 0) != Fine then At(Drop(o, 1), 0) else FirstFault(Drop(Drop(o, 1), 1), 4);
  }

  /** One call more. */
  lemma {:induction false} FaultMore(o: seq<Outcome>, n: nat)
    ensures FirstFault(o, n + 1) == if FirstFault(o, n) != Fine then FirstFault(o, n) else At(o, n)
    decreases n
  {
    DropMore(o, 1);
    if n > 0 { FaultMore(Drop(o, 1), n - 1); }
  }

  lemma {:induction false} ThreeCalls(o: seq<Outcome>)
    ensures FirstFault(o, 3) ==
            if At(o, 0) != Fine then At(o, 0)
            else if At(Drop(o, 1), 0) != Fine then At(Drop(o, 1), 0) else At(Drop(Drop(o, 1), 1), 0)
    ensures Drop(Drop(Drop(o, 1), 1), 1) == Drop(o, 3)
  {
    DropMore(o, 1);
    DropMore(o, 2);
    assert FirstFault(o, 3) == if At(o, 0) != Fine then At(o, 0) else FirstFault(Drop(o, 1), 2);
    assert FirstFault(Drop(o, 1), 2) == if At(o, 1) != Fine then At(o, 1) else FirstFault(Drop(Drop(o, 1), 1), 1);
    assert FirstFault(Drop(o, 2), 1) == if At(o, 2) != Fine then At(o, 2) else FirstFault(Drop(Drop(o, 2), 1), 0);
  }

  lemma {:induction false} AttachCalls(o: seq<Outcome>)
    ensures FirstFault(o, 4) == if At(o, 0) != Fine then At(o, 0) else FirstFault(Drop(o, 1), 3)
    ensures At(Drop(Drop(o, 1), 3), 0) == At(o, 4)
  {
    assert FirstFault(o, 4) == if At(o, 0) != Fine then At(o, 0) else FirstFault(Drop(o, 1), 3);
  }

  lemma {:induction false} CreateCalls(o: seq<Outcome>)
    ensures At(Drop(o, 1), 0) == At(o, 1) && Drop(Drop(o, 1), 1) == Drop(o, 2) && At(Drop(o, 2), 4) == At(o, 6)
  {
  }

  lemma {:induction false} DestroyCalls(o: seq<Outcome>)
    ensures At(Drop(Drop(o, 1), 1), 0) == At(o, 2)
    ensures Faults(Drop(Drop(o, 1), 1)) == Faults(Drop(Drop(Drop(o, 1), 1), 1)) + if At(o, 2) == Fine then 0 else 1
    ensures At(Drop(Drop(Drop(o, 1), 1), 1), 0) == At(o, 3) && At(Drop(o, 1), 0) == At(o, 1)
    ensures FirstFault(o, 3) == if At(o, 0) != Fine then At(o, 0) else if At(o, 1) != Fine then At(o, 1) else At(o, 2)
    ensures FirstFault(o, 4) == if FirstFault(o, 3) != Fine then FirstFault(o, 3) else At(o, 3)
    ensures Faults(o) <= 1 && At(o, 2) != Fine ==> At(o, 0) == Fine && At(o, 1) == Fine
  {
    DropMore(Drop(Drop(o, 1), 1), 0);
    ThreeCalls(o);
    DropMore(o, 2);
    FaultMore(o, 3);
    if Faults(o) <= 1 { OneFault(o); }
  }

  lemma {:induction false} OneFault(o: seq<Outcome>)
    requires Faults(o) <= 1
    ensures forall i: nat, j: nat :: At(o, i) != Fine && At(o, j) != Fine ==> i == j
    ensures Faults(o) == 0 ==> forall i: nat :: At(o, i) == Fine
    decreases |o|
  {
    if o != [] {
      OneFault(o[1..]);
      if o[0] != Fine {
        assert forall i: nat :: At(o[1..], i) == Fine;
      }
      forall i: nat ensures i > 0 ==> At(o, i) == At(o[1..], i - 1) {}
    }
  }

  // ------------------------------------------------------------- lemmas

  /** Metadata subnets have DHCP on, so only tenants' interfaces count. */
  lemma {:induction false} OnlyTenantsCount(networks: Networks, subnets: Subnets, ports: Ports, r: RouterId)
    requires SubnetsSound(networks, subnets) && AllPlaced(networks, subnets, ports)
    ensures Disabled(ports, subnets, r) <==> TenantDisabled(ports, subnets, r)
  {
    if Disabled(ports, subnets, r) {
      var p :| p in ports && ports[p].router == r && DhcpOff(subnets, ports[p]);
      assert Placed(networks, subnets, ports[p]);
    }
  }

  /** The metadata interface is the only one iff no tenant's is left. */
  lemma {:induction false} LastPort(ports: Ports, r: RouterId)
    requires AtMostOne(ports) && Has(ports, r)
    ensures |RouterPorts(ports, r)| == 1 <==> !HasTenant(ports, r)
  {
    var m :| m in ports && ports[m].router == r && IsMeta(ports[m]);
    var all := RouterPorts(ports, r);
    assert m in all;
    if HasTenant(ports, r) {
      var p :| p in ports && ports[p].router == r && !IsMeta(ports[p]);
      assert {m, p} <= all && |{m, p}| == 2;
      assert |all| == |{m, p}| + |all - {m, p}| by { assert all == {m, p} + (all - {m, p}); }
    } else {
      assert all == {m};
    }
  }

  lemma {:induction false} SamePortsSameWants(ports: Ports, ports': Ports, subnets: Subnets, subnets': Subnets,
                                              networks: Networks, networks': Networks, q: RouterId, r: RouterId, onDemand: bool)
    requires SamePorts(ports, ports', q) && SameTenants(networks, subnets, networks', subnets')
    requires AllPlaced(networks, subnets, ports) && AllPlaced(networks', subnets', ports')
    ensures Wants(ports', subnets', r, onDemand) <==> Wants(ports, subnets, r, onDemand)
    ensures r != q ==> (Has(ports', r) <==> Has(ports, r))
  {
    forall p | p in ports && !IsMeta(ports[p])
      ensures p in ports' && ports'[p] == ports[p] && (DhcpOff(subnets', ports[p]) <==> DhcpOff(subnets, ports[p]))
    {
      assert Placed(networks, subnets, ports[p]);
    }
    forall p | p in ports' && !IsMeta(ports'[p]) ensures p in ports && ports'[p] == ports[p] {}
    forall p | p in ports && ports[p].router == r && r != q ensures p in ports' && ports'[p] == ports[p] {}
    forall p | p in ports' && ports'[p].router == r && r != q ensures p in ports && ports'[p] == ports[p] {}
  }

  // ------------------------------------------------ steps on the tables

  lemma {:induction false} PortAdded(networks: Networks, subnets: Subnets, ports: Ports, next: Id, p: Port)
    requires Inv(networks, subnets, ports, next) && Placed(networks, subnets, p)
    requires IsMeta(p) ==> !Has(ports, p.router)
    ensures Inv(networks, subnets, ports[next := p], next + 1) && next !in ports
    ensures IsMeta(p) ==> SamePorts(ports, ports[next := p], p.router) && Has(ports[next := p], p.router)
    ensures !IsMeta(p) ==> forall r :: Has(ports[next := p], r) <==> Has(ports, r)
  {
    var ports' := ports[next := p];
    forall q | q in ports' ensures Placed(networks, subnets, ports'[q]) {
      if q != next { assert Placed(networks, subnets, ports[q]); }
    }
    forall r | !IsMeta(p) ensures Has(ports', r) <==> Has(ports, r) {
      if q :| q in ports && ports[q].router == r && IsMeta(ports[q]) { assert ports'[q] == ports[q]; }
    }
    assert IsMeta(p) ==> ports'[next].router == p.router;
  }

  lemma {:induction false} PortRemoved(networks: Networks, subnets: Subnets, ports: Ports, next: Id, p: Id)
    requires Inv(networks, subnets, ports, next) && p in ports
    ensures Inv(networks, subnets, ports - {p}, next)
    ensures IsMeta(ports[p]) ==> !Has(ports - {p}, ports[p].router) && SamePorts(ports, ports - {p}, ports[p].router)
    ensures !IsMeta(ports[p]) ==> forall r :: Has(ports - {p}, r) <==> Has(ports, r)
  {
    forall q | q in ports - {p} ensures Placed(networks, subnets, ports[q]) {}
    forall r | !IsMeta(ports[p]) ensures Has(ports - {p}, r) <==> Has(ports, r) {
      if q :| q in ports && ports[q].router == r && IsMeta(ports[q]) {
        assert q in ports - {p} && (ports - {p})[q] == ports[q];
      }
    }
  }

  lemma {:induction false} NetworkAdded(networks: Networks, subnets: Subnets, ports: Ports, next: Id, r: RouterId)
    requires Inv(networks, subnets, ports, next)
    ensures Inv(networks[next := Meta(r)], subnets, ports, next + 1)
    ensures SameTenants(networks, subnets, networks[next := Meta(r)], subnets)
  {
    forall p | p in ports ensures Placed(networks[next := Meta(r)], subnets, ports[p]) {
      assert Placed(networks, subnets, ports[p]);
    }
  }

  lemma {:induction false} SubnetAdded(networks: Networks, subnets: Subnets, ports: Ports, next: Id, n: Id)
    requires Inv(networks, subnets, ports, next) && n in networks && networks[n].Meta?
    ensures Inv(networks, subnets[next := Subnet(n, true)], ports, next + 1)
    ensures SameTenants(networks, subnets, networks, subnets[next := Subnet(n, true)])
  {
    forall p | p in ports ensures Placed(networks, subnets[next := Subnet(n, true)], ports[p]) {
      assert Placed(networks, subnets, ports[p]);
    }
  }

  function Without(subnets: Subnets, n: Id): Subnets {
    map s | s in subnets && subnets[s].network != n :: subnets[s]
  }

  lemma {:induction false} NetworkRemoved(networks: Networks, subnets: Subnets, ports: Ports, next: Id, n: Id)
    requires Inv(networks, subnets, ports, next) && n in networks && networks[n].Meta?
    requires forall p :: p in ports ==> ports[p].network != n
    ensures Inv(networks - {n}, Without(subnets, n), ports, next)
    ensures SameTenants(networks, subnets, networks - {n}, Without(subnets, n))
  {
    forall p | p in ports ensures Placed(networks - {n}, Without(subnets, n), ports[p]) {
      assert Placed(networks, subnets, ports[p]);
    }
  }

  lemma {:induction false} SamePortsTwice(a: Ports, b: Ports, c: Ports, r: RouterId)
    requires SamePorts(a, b, r) && SamePorts(b, c, r)
    ensures SamePorts(a, c, r)
  {
  }

  lemma {:induction false} SameTenantsTwice(n0: Networks, s0: Subnets, n1: Networks, s1: Subnets, n2: Networks, s2: Subnets)
    requires SameTenants(n0, s0, n1, s1) && SameTenants(n1, s1, n2, s2)
    ensures SameTenants(n0, s0, n2, s2)
  {
  }

  lemma {:induction false} Same(networks: Networks, subnets: Subnets, ports: Ports, r: RouterId)
    ensures SamePorts(ports, ports, r) && SameTenants(networks, subnets, networks, subnets)
  {
  }

  /** A port that was just added is still there after the handler has run. */
  lemma {:induction false} StillThere(with: Ports, ports: Ports, r: RouterId, i: Id)
    requires SamePorts(with, ports, r) && i in with
    requires IsMeta(with[i]) ==> ports == with
    ensures i in ports && ports[i] == with[i]
  {
  }

  /** Taking the added port out again leaves the tenants' ports as before. */
  lemma {:induction false} RolledBack(before: Ports, p: Port, i: Id, mid: Ports, ports: Ports)
    requires i !in before && SamePorts(before[i := p], mid, p.router) && i in mid
    requires SamePorts(mid - {i}, ports, p.router)
    ensures SamePorts(before, ports, p.router)
  {
  }

  lemma {:induction false} AddThenRemove(before: Ports, i: Id, p: Port)
    requires i !in before
    ensures before[i := p] - {i} == before
  {
  }

  lemma {:induction false} TidyCreated(networks: Networks, ports: Ports, n: Id, i: Id, p: Port)
    requires Tidy(networks, ports) && i !in ports && p.network == n
    ensures Tidy(networks[n := Meta(p.router)], ports[i := p])
  {
    var ports' := ports[i := p];
    forall k | k in networks && k != n && networks[k].Meta? ensures exists q :: q in ports' && ports'[q].network == k {
      var q :| q in ports && ports[q].network == k;
      assert ports'[q] == ports[q];
    }
    assert ports'[i].network == n;
  }

  lemma {:induction false} TidyDestroyed(networks: Networks, ports: Ports, m: Id)
    requires Tidy(networks, ports) && m in ports
    ensures Tidy(networks - {ports[m].network}, ports - {m})
  {
    var n, ports' := ports[m].network, ports - {m};
    forall k | k in networks && k != n && networks[k].Meta? ensures exists q :: q in ports' && ports'[q].network == k {
      var q :| q in ports && ports[q].network == k;
      assert ports'[q] == ports[q];
    }
  }

  lemma {:induction false} Found(ports: Ports, r: RouterId, all: seq<Id>, meta: Option<Id>)
    requires forall p :: p in all <==> p in RouterPorts(ports, r)
    requires meta.Some? ==> meta.value in all && IsMeta(ports[meta.value])
    requires meta.None? ==> forall p :: p in all ==> !IsMeta(ports[p])
    ensures meta.Some? <==> Has(ports, r)
    ensures meta.Some? ==> meta.value in ports && ports[meta.value].router == r
  {
    if Has(ports, r) {
      var p :| p in ports && ports[p].router == r && IsMeta(ports[p]);
      assert p in RouterPorts(ports, r);
    }
  }

  /** Port `q` of the network is the only difference. */
  ghost predicate Joined(before: Ports, ports: Ports, q: Id, n: Id, r: RouterId) {
    q !in before && q in ports && ports == before[q := ports[q]] && ports[q].network == n && ports[q].router == r
  }

  lemma {:induction false} TidyJoined(networks: Networks, before: Ports, n: Id, q: Id, ports: Ports, r: RouterId)
    requires Tidy(networks, before) && Joined(before, ports, q, n, r)
    ensures Tidy(networks[n := Meta(r)], ports)
  {
    TidyCreated(networks, before, n, q, ports[q]);
  }

  lemma {:induction false} TidyAgain(networks: Networks, ports: Ports, m: Id, i: Id, p: Port)
    requires Tidy(networks, ports) && m in ports && i !in ports - {m} && p.network == ports[m].network
    ensures Tidy(networks, (ports - {m})[i := p])
  {
    var ports' := (ports - {m})[i := p];
    forall n | n in networks && networks[n].Meta? ensures exists q :: q in ports' && ports'[q].network == n {
      var q :| q in ports && ports[q].network == n;
      if q == m { assert ports'[i].network == n; } else { assert ports'[q] == ports[q]; }
    }
  }

  lemma {:induction false} Untidy(networks: Networks, ports: Ports, n: Id, r: RouterId)
    requires forall p :: p in ports ==> ports[p].network != n
    ensures !Tidy(networks[n := Meta(r)], ports)
    ensures n in networks && networks[n].Meta? ==> !Tidy(networks, ports)
  {
    assert networks[n := Meta(r)][n].Meta?;
  }

  /** The interface of a metadata network is alone on it. */
  lemma {:induction false} AloneOnNetwork(networks: Networks, subnets: Subnets, ports: Ports, next: Id, m: Id)
    requires Inv(networks, subnets, ports, next) && m in ports && IsMeta(ports[m])
    ensures ports[m].network in networks && networks[ports[m].network] == Meta(ports[m].router)
    ensures forall q :: q in ports && ports[q].network == ports[m].network ==> q == m
    ensures |ports[m].fixedIps| == 1 && ports[m].fixedIps[0].ip == METADATA_GATEWAY_IP
    ensures Placed(networks, subnets, ports[m])
  {
    assert Placed(networks, subnets, ports[m]);
    forall q | q in ports && ports[q].network == ports[m].network ensures q == m {
      assert Placed(networks, subnets, ports[q]);
    }
  }

  /** Whether router `r` has a metadata network after a handler call in which
      nothing raises. */
  ghost predicate Answer(ports: Ports, subnets: Subnets, r: RouterId, enabled: bool, onDemand: bool, interface: bool) {
    if interface then
      Has(ports, r) || (enabled && (onDemand ==> Disabled(ports, subnets, r)))
    else
      Has(ports, r) && !(enabled && (|RouterPorts(ports, r)| == 1 || (onDemand && !Disabled(ports, subnets, r))))
  }

  lemma {:induction false} AllOfRouter(ports: Ports, subnets: Subnets, r: RouterId, all: seq<Id>)
    requires forall p :: p in all <==> p in RouterPorts(ports, r)
    ensures Disabled(ports, subnets, r) <==> exists p :: p in all && DhcpOff(subnets, ports[p])
  {
    hide DhcpOff;
  }

  lemma {:induction false} PlacedAt(networks: Networks, subnets: Subnets, p: Port, k: nat)
    requires Placed(networks, subnets, p) && k < |p.fixedIps|
    ensures p.fixedIps[k].subnet in subnets && subnets[p.fixedIps[k].subnet].network == p.network
  {
    assert p.fixedIps[k] in p.fixedIps;
  }

  lemma {:induction false} Answered(ports: Ports, subnets: Subnets, r: RouterId, enabled: bool, onDemand: bool)
    requires Has(ports, r)
    ensures Answer(ports, subnets, r, enabled, onDemand, true)
  {
  }

  lemma {:induction false} NotAnswered(ports: Ports, subnets: Subnets, r: RouterId, enabled: bool, onDemand: bool)
    requires !Has(ports, r)
    ensures !Answer(ports, subnets, r, enabled, onDemand, false)
  {
  }

  lemma {:induction false} MetaPlaced(networks: Networks, subnets: Subnets, n: Id, r: RouterId, f: FixedIp) returns (p: Port)
    requires n in networks && networks[n] == Meta(r) && f.ip == METADATA_GATEWAY_IP
    requires f.subnet in subnets && subnets[f.subnet].network == n
    ensures p == Port(r, n, [f]) && IsMeta(p) && Placed(networks, subnets, p)
  {
    p := Port(r, n, [f]);
    assert f in p.fixedIps;
  }

  // --------------------------------------------------- tenants' requests

  datatype Request =
    | NewNetwork
    | NewSubnet(network: Id, enableDhcp: bool)
    | Attach(router: RouterId, network: Id, fixedIps: seq<FixedIp>)
    | Detach(router: RouterId, port: Id)
    | SwitchDhcp(subnet: Id, enableDhcp: bool)

  /** What the tenants own, without the metadata networks. */
  datatype Tenants = Tenants(networks: set<Id>, subnets: Subnets, ports: Ports)

  ghost function TenantsOf(networks: Networks, subnets: Subnets, ports: Ports): Tenants {
    Tenants(set n | n in networks && networks[n] == Tenant,
            map s | s in subnets && subnets[s].network in networks && networks[subnets[s].network] == Tenant :: subnets[s],
            map p | p in ports && !IsMeta(ports[p]) :: ports[p])
  }

  predicate Applies(t: Tenants, request: Request) {
    match request
    case NewNetwork => true
    case NewSubnet(n, _) => n in t.networks
    case Attach(_, n, fixedIps) =>
      && n in t.networks
      && forall f | f in fixedIps :: f.subnet in t.subnets && t.subnets[f.subnet].network == n && f.ip != METADATA_GATEWAY_IP
    case Detach(router, p) => p in t.ports && t.ports[p].router == router
    case SwitchDhcp(s, _) => s in t.subnets
  }

  /** The meaning of a request in a world without metadata networks; a request
      that does not apply is refused. */
  function After(t: Tenants, request: Request, id: Id): Tenants {
    if !Applies(t, request) then t else
    match request
    case NewNetwork => t.(networks := t.networks + {id})
    case NewSubnet(n, enableDhcp) => t.(subnets := t.subnets[id := Subnet(n, enableDhcp)])
    case Attach(router, n, fixedIps) => t.(ports := t.ports[id := Port(router, n, fixedIps)])
    case Detach(_, p) => t.(ports := t.ports - {p})
    case SwitchDhcp(s, enableDhcp) => t.(subnets := t.subnets[s := t.subnets[s].(enableDhcp := enableDhcp)])
  }

  lemma {:induction false} TenantSubnetChanged(networks: Networks, subnets: Subnets, ports: Ports, s: Id, v: Subnet)
    requires v.network in networks && networks[v.network] == Tenant && (s in subnets ==> subnets[s].network == v.network)
    ensures var t := TenantsOf(networks, subnets, ports);
            && (s in subnets ==> s in t.subnets && t.subnets[s] == subnets[s])
            && TenantsOf(networks, subnets[s := v], ports) == t.(subnets := t.subnets[s := v])
  {
  }

  lemma {:induction false} TenantPortChanged(networks: Networks, subnets: Subnets, ports: Ports, i: Id, p: Port)
    requires !IsMeta(p)
    ensures var t := TenantsOf(networks, subnets, ports);
            && (i !in ports ==> TenantsOf(networks, subnets, ports[i := p]) == t.(ports := t.ports[i := p]))
            && TenantsOf(networks, subnets, ports - {i}) == t.(ports := t.ports - {i})
  {
  }

  lemma {:induction false} SameView(networks: Networks, subnets: Subnets, ports: Ports,
                                    networks': Networks, subnets': Subnets, ports': Ports, r: RouterId)
    requires SamePorts(ports, ports', r) && SameTenants(networks, subnets, networks', subnets')
    ensures TenantsOf(networks', subnets', ports') == TenantsOf(networks, subnets, ports)
  {
  }

  /** An interface more: the router's answer brings it to agreement again. */
  lemma {:induction false} AttachAgrees(networks: Networks, subnets: Subnets, ports: Ports, next: Id, p: Port,
                                        networks': Networks, subnets': Subnets, ports': Ports, next': Id,
                                        enabled: bool, onDemand: bool, r: RouterId)
    requires Inv(networks, subnets, ports, next) && Placed(networks, subnets, p) && !IsMeta(p)
    requires Inv(networks', subnets', ports', next')
    requires SamePorts(ports[next := p], ports', p.router) && SameTenants(networks, subnets, networks', subnets')
    requires Has(ports', p.router) <==> Answer(ports[next := p], subnets, p.router, enabled, onDemand, true)
    requires Agrees(ports, subnets, r, enabled, onDemand)
    ensures Agrees(ports', subnets', r, enabled, onDemand)
  {
    var with := ports[next := p];
    PortAdded(networks, subnets, ports, next, p);
    SamePortsSameWants(with, ports', subnets, subnets', networks, networks', p.router, r, onDemand);
    OnlyTenantsCount(networks, subnets, with, r);
    WantsMore(ports, subnets, next, p, r, onDemand);
  }

  lemma {:induction false} WantsMore(ports: Ports, subnets: Subnets, i: Id, p: Port, r: RouterId, onDemand: bool)
    requires i !in ports && !IsMeta(p)
    ensures Wants(ports, subnets, r, onDemand) ==> Wants(ports[i := p], subnets, r, onDemand)
    ensures r != p.router ==> (Wants(ports[i := p], subnets, r, onDemand) ==> Wants(ports, subnets, r, onDemand))
    ensures HasTenant(ports[i := p], p.router)
  {
    var with := ports[i := p];
    forall q | q in ports ensures q in with && with[q] == ports[q] {}
    assert with[i] == p;
  }

  /** An interface less. */
  lemma {:induction false} DetachAgrees(networks: Networks, subnets: Subnets, ports: Ports, next: Id, i: Id,
                                        networks': Networks, subnets': Subnets, ports': Ports, next': Id,
                                        enabled: bool, onDemand: bool, r: RouterId)
    requires Inv(networks, subnets, ports, next) && i in ports && !IsMeta(ports[i])
    requires Inv(networks', subnets', ports', next')
    requires SamePorts(ports - {i}, ports', ports[i].router) && SameTenants(networks, subnets, networks', subnets')
    requires Has(ports', ports[i].router) <==> Answer(ports - {i}, subnets, ports[i].router, enabled, onDemand, false)
    requires Agrees(ports, subnets, r, enabled, onDemand)
    ensures Agrees(ports', subnets', r, enabled, onDemand)
  {
    var rest, q := ports - {i}, ports[i].router;
    PortRemoved(networks, subnets, ports, next, i);
    SamePortsSameWants(rest, ports', subnets, subnets', networks, networks', q, r, onDemand);
    OnlyTenantsCount(networks, subnets, rest, r);
    WantsMore(rest, subnets, i, ports[i], r, onDemand);
    assert rest[i := ports[i]] == ports;
    if r == q && Has(rest, r) { LastPort(rest, r); TenantDisabledHasTenant(rest, subnets, r); }
  }

  lemma {:induction false} TenantDisabledHasTenant(ports: Ports, subnets: Subnets, r: RouterId)
    ensures TenantDisabled(ports, subnets, r) ==> HasTenant(ports, r)
  {
  }

  /** Half of the agreement, which switching DHCP of a subnet leaves intact. */
  ghost predicate HalfAgrees(ports: Ports, subnets: Subnets, r: RouterId, enabled: bool, switchedOn: bool) {
    if switchedOn then
      enabled && TenantDisabled(ports, subnets, r) ==> Has(ports, r)
    else
      Has(ports, r) ==> TenantDisabled(ports, subnets, r)
  }

  /** Agreement up to the handler call still to come. */
  ghost predicate Pending(ports: Ports, subnets: Subnets, r: RouterId, enabled: bool, on: bool) {
    HalfAgrees(ports, subnets, r, enabled, on) && (Has(ports, r) ==> enabled && HasTenant(ports, r))
  }

  lemma {:induction false} SwitchHalfAgrees(networks: Networks, subnets: Subnets, ports: Ports, s: Id, on: bool,
                                            enabled: bool, r: RouterId, next: Id)
    requires s in subnets && Inv(networks, subnets, ports, next)
    requires Agrees(ports, subnets, r, enabled, true)
    ensures var subnets' := subnets[s := subnets[s].(enableDhcp := on)];
            && Pending(ports, subnets', r, enabled, on)
            && ((forall p :: p in ports && ports[p].router == r ==> !Uses(ports[p], s)) ==>
                  Agrees(ports, subnets', r, enabled, true))
  {
    var subnets' := subnets[s := subnets[s].(enableDhcp := on)];
    forall p | p in ports
      ensures on ==> (DhcpOff(subnets', ports[p]) ==> DhcpOff(subnets, ports[p]))
      ensures !on ==> (DhcpOff(subnets, ports[p]) ==> DhcpOff(subnets', ports[p]))
      ensures !Uses(ports[p], s) ==> (DhcpOff(subnets', ports[p]) <==> DhcpOff(subnets, ports[p]))
    {
      assert Placed(networks, subnets, ports[p]);
    }
  }

  predicate Uses(p: Port, s: Id) {
    exists f :: f in p.fixedIps && f.subnet == s
  }

  /** The handler's answer after a switch completes the agreement. */
  lemma {:induction false} SwitchAgrees(networks: Networks, subnets: Subnets, ports: Ports,
                                        networks': Networks, subnets': Subnets, ports': Ports,
                                        enabled: bool, on: bool, q: RouterId)
    requires SubnetsSound(networks, subnets) && AllPlaced(networks, subnets, ports) && AtMostOne(ports)
    requires AllPlaced(networks', subnets', ports')
    requires SamePorts(ports, ports', q) && SameTenants(networks, subnets, networks', subnets')
    requires Has(ports', q) <==> Answer(ports, subnets, q, enabled, true, !on)
    requires HalfAgrees(ports, subnets, q, enabled, on) && (Has(ports, q) ==> enabled && HasTenant(ports, q))
    ensures Agrees(ports', subnets', q, enabled, true)
    ensures Has(ports', q) ==> enabled && HasTenant(ports', q)
  {
    SamePortsSameWants(ports, ports', subnets, subnets', networks, networks', q, q, true);
    SamePortsSameWants(ports, ports', subnets, subnets', networks, networks', q, q, false);
    OnlyTenantsCount(networks, subnets, ports, q);
    if Has(ports, q) { LastPort(ports, q); }
    TenantDisabledHasTenant(ports', subnets', q);
    TenantDisabledHasTenant(ports, subnets, q);
  }

  lemma {:induction false} SwitchStep(networks: Networks, subnets: Subnets, ports: Ports,
                                      networks': Networks, subnets': Subnets, ports': Ports, next: Id, next': Id,
                                      enabled: bool, on: bool, q: RouterId, r: RouterId)
    requires Inv(networks, subnets, ports, next) && Inv(networks', subnets', ports', next')
    requires SamePorts(ports, ports', q) && SameTenants(networks, subnets, networks', subnets')
    requires Has(ports', q) <==> Answer(ports, subnets, q, enabled, true, !on)
    requires Pending(ports, subnets, q, enabled, on) && Pending(ports, subnets, r, enabled, on)
    ensures Pending(ports', subnets', r, enabled, on)
    ensures r == q || Agrees(ports, subnets, r, enabled, true) ==> Agrees(ports', subnets', r, enabled, true)
  {
    SamePortsSameWants(ports, ports', subnets, subnets', networks, networks', q, r, true);
    SamePortsSameWants(ports, ports', subnets, subnets', networks, networks', q, r, false);
    if r == q {
      SwitchAgrees(networks, subnets, ports, networks', subnets', ports', enabled, on, q);
    }
  }

  /** Every router agrees, or is pending and in `todo`. */
  ghost predicate AllSwitched(ports: Ports, subnets: Subnets, enabled: bool, on: bool, todo: seq<RouterId>) {
    forall r :: Pending(ports, subnets, r, enabled, on) && (r in todo || Agrees(ports, subnets, r, enabled, true))
  }

  lemma {:induction false} SwitchStart(networks: Networks, subnets: Subnets, ports: Ports, s: Id, on: bool, enabled: bool,
                                       next: Id, routers: seq<RouterId>)
    requires s in subnets && Inv(networks, subnets, ports, next)
    requires forall r :: Agrees(ports, subnets, r, enabled, true)
    requires forall p :: p in ports && Uses(ports[p], s) ==> ports[p].router in routers
    ensures AllSwitched(ports, subnets[s := subnets[s].(enableDhcp := on)], enabled, on, routers)
  {
    hide Inv, Pending, Agrees, Uses;
    var subnets' := subnets[s := subnets[s].(enableDhcp := on)];
    forall r ensures Pending(ports, subnets', r, enabled, on) && (r in routers || Agrees(ports, subnets', r, enabled, true)) {
      SwitchHalfAgrees(networks, subnets, ports, s, on, enabled, r, next);
    }
  }

  lemma {:induction false} SwitchNext(networks: Networks, subnets: Subnets, ports: Ports,
                                      networks': Networks, subnets': Subnets, ports': Ports, next: Id, next': Id,
                                      enabled: bool, on: bool, todo: seq<RouterId>)
    requires todo != []
    requires Inv(networks, subnets, ports, next) && Inv(networks', subnets', ports', next')
    requires SamePorts(ports, ports', todo[0]) && SameTenants(networks, subnets, networks', subnets')
    requires Has(ports', todo[0]) <==> Answer(ports, subnets, todo[0], enabled, true, !on)
    requires AllSwitched(ports, subnets, enabled, on, todo)
    ensures AllSwitched(ports', subnets', enabled, on, todo[1..])
  {
    hide Inv, SamePorts, SameTenants, Has, Answer, Pending, Agrees;
    assert todo == [todo[0]] + todo[1..];
    forall r ensures Pending(ports', subnets', r, enabled, on) && (r in todo[1..] || Agrees(ports', subnets', r, enabled, true)) {
      assert Pending(ports, subnets, r, enabled, on) && Pending(ports, subnets, todo[0], enabled, on);
      SwitchStep(networks, subnets, ports, networks', subnets', ports', next, next', enabled, on, todo[0], r);
    }
  }

  lemma {:induction false} Switched(networks: Networks, subnets: Subnets, ports: Ports, next: Id, s: Id, on: bool)
    requires Inv(networks, subnets, ports, next) && s in subnets && networks[subnets[s].network] == Tenant
    ensures Inv(networks, subnets[s := subnets[s].(enableDhcp := on)], ports, next)
  {
    var subnets' := subnets[s := subnets[s].(enableDhcp := on)];
    forall p | p in ports ensures Placed(networks, subnets', ports[p]) {
      assert Placed(networks, subnets, ports[p]);
    }
  }

  lemma {:induction false} TidyWithPort(networks: Networks, ports: Ports, i: Id, p: Port)
    requires Tidy(networks, ports) && i !in ports
    ensures Tidy(networks, ports[i := p])
  {
    var ports' := ports[i := p];
    forall n | n in networks && networks[n].Meta? ensures exists q :: q in ports' && ports'[q].network == n {
      var q :| q in ports && ports[q].network == n;
      assert ports'[q] == ports[q];
    }
  }

  lemma {:induction false} TidyWithoutPort(networks: Networks, subnets: Subnets, ports: Ports, i: Id)
    requires Tidy(networks, ports) && i in ports && Placed(networks, subnets, ports[i]) && !IsMeta(ports[i])
    ensures Tidy(networks, ports - {i})
  {
    forall n | n in networks && networks[n].Meta? ensures exists q :: q in ports - {i} && ports[q].network == n {
      var q :| q in ports && ports[q].network == n;
      assert q in ports - {i};
    }
  }

  // ---------------------------------------------------------- the plugin

  class Plugin {
    const direct: bool
    const overlappingIps: bool
    const onDemand: bool
    /** Whether DHCP agents are notified. */
    const notifies: bool
    var networks: Networks
    var subnets: Subnets
    var ports: Ports
    var next: Id
    /** How the coming calls end; past the end all are fine. */
    var outcomes: seq<Outcome>

    constructor (direct: bool, overlappingIps: bool, onDemand: bool, notifies: bool, outcomes: seq<Outcome>)
      ensures this.direct == direct && this.overlappingIps == overlappingIps && this.onDemand == onDemand
      ensures this.notifies == notifies && this.outcomes == outcomes
      ensures networks == map[] && subnets == map[] && ports == map[] && next == 0
      ensures Inv(networks, subnets, ports, next) && Tidy(networks, ports)
    {
      this.direct, this.overlappingIps, this.onDemand, this.notifies := direct, overlappingIps, onDemand, notifies;
      networks, subnets, ports, next, this.outcomes := map[], map[], map[], 0, outcomes;
    }

    ghost predicate Enabled() {
      direct && overlappingIps
    }

    ghost predicate Sound()
      reads this
    {
      Inv(networks, subnets, ports, next)
    }

    method Call() returns (e: Outcome)
      modifies `outcomes
      ensures e == At(old(outcomes), 0) && outcomes == Drop(old(outcomes), 1)
      ensures Faults(old(outcomes)) == Faults(outcomes) + if e == Fine then 0 else 1
    {
      if outcomes == [] { return Fine; }
      e := outcomes[0];
      outcomes := outcomes[1..];
    }

    method CreateNetwork(router: RouterId) returns (n: Id, end: Outcome)
      requires Sound()
      modifies `networks, `next, `outcomes
      ensures Sound()
      ensures end == At(old(outcomes), 0) && outcomes == Drop(old(outcomes), 1)
      ensures Faults(old(outcomes)) == Faults(outcomes) + if end == Fine then 0 else 1
      ensures end != Fine ==> networks == old(networks) && next == old(next)
      ensures end == Fine ==> n == old(next) && n !in old(networks) && networks == old(networks)[n := Meta(router)]
      ensures end == Fine ==> forall p :: p in ports ==> ports[p].network != n
      ensures SameTenants(old(networks), subnets, networks, subnets)
    {
      n := next;
      end := Call();
      if end != Fine { return; }
      assert forall p :: p in ports ==> Placed(networks, subnets, ports[p]);
      NetworkAdded(networks, subnets, ports, next, router);
      networks, next := networks[next := Meta(router)], next + 1;
    }

    method CreateSubnet(n: Id) returns (s: Id, end: Outcome)
      requires Sound() && n in networks && networks[n].Meta?
      modifies `subnets, `next, `outcomes
      ensures Sound()
      ensures end == At(old(outcomes), 0) && outcomes == Drop(old(outcomes), 1)
      ensures Faults(old(outcomes)) == Faults(outcomes) + if end == Fine then 0 else 1
      ensures end != Fine ==> subnets == old(subnets) && next == old(next)
      ensures end == Fine ==> subnets == old(subnets)[s := Subnet(n, true)]
      ensures SameTenants(networks, old(subnets), networks, subnets)
    {
      s := next;
      end := Call();
      if end != Fine { return; }
      SubnetAdded(networks, subnets, ports, next, n);
      subnets, next := subnets[next := Subnet(n, true)], next + 1;
    }

    /** Deleting a network removes its subnets; it is refused, with an exception
        that is handled, while a port is on it. */
    method DeleteNetwork(n: Id) returns (end: Outcome)
      requires Sound() && n in networks && networks[n].Meta?
      modifies `networks, `subnets, `outcomes
      ensures Sound()
      ensures SameTenants(old(networks), old(subnets), networks, subnets)
      ensures end == Fine ==> networks == old(networks) - {n} && forall p :: p in ports ==> ports[p].network != n
      ensures end != Fine ==> networks == old(networks) && subnets == old(subnets)
      ensures outcomes == Drop(old(outcomes), 1) && Faults(outcomes) <= Faults(old(outcomes))
      ensures end == if At(old(outcomes), 0) != Fine then At(old(outcomes), 0)
                     else if exists p :: p in ports && ports[p].network == n then Handled else Fine
      ensures Quiet(old(outcomes)) && (forall p :: p in ports ==> ports[p].network != n) ==> end == Fine
      ensures Quiet(old(outcomes)) ==> end == Fine || end == Handled
    {
      end := Call();
      if end != Fine { return; }
      if exists p :: p in ports && ports[p].network == n {
        return Handled;
      }
      NetworkRemoved(networks, subnets, ports, next, n);
      networks, subnets := networks - {n}, Without(subnets, n);
    }

    method GetPorts(router: RouterId) returns (found: seq<Id>)
      ensures |found| == |RouterPorts(ports, router)|
      ensures forall p :: p in found <==> p in RouterPorts(ports, router)
    {
      var todo := RouterPorts(ports, router);
      found := [];
      while todo != {}
        invariant forall p :: (p in found || p in todo) <==> p in RouterPorts(ports, router)
        invariant |found| + |todo| == |RouterPorts(ports, router)|
        decreases todo
      {
        var p :| p in todo;
        todo := todo - {p};
        found := found + [p];
      }
    }

    /** The first port found to hold the metadata address. */
    method FindMetadataPort(found: seq<Id>) returns (m: Option<Id>)
      requires forall p :: p in found ==> p in ports
      ensures m.Some? ==> m.value in found && IsMeta(ports[m.value])
      ensures m.None? ==> forall p :: p in found ==> !IsMeta(ports[p])
      ensures m.None? <==> forall p, f :: p in found && f in ports[p].fixedIps ==> f.ip != METADATA_GATEWAY_IP
    {
      for i := 0 to |found|
        invariant forall j :: 0 <= j < i ==> !IsMeta(ports[found[j]])
      {
        var port := ports[found[i]];
        for k := 0 to |port.fixedIps|
          invariant forall j :: 0 <= j < k ==> port.fixedIps[j].ip != METADATA_GATEWAY_IP
        {
          if port.fixedIps[k].ip == METADATA_GATEWAY_IP {
            assert port.fixedIps[k] in port.fixedIps;
            return Some(found[i]);
          }
        }
      }
      m := None;
    }

    /** The first subnet without DHCP among the addresses of the ports. */
    method FindDhcpDisabledSubnetByPort(found: seq<Id>) returns (s: Option<Id>)
      requires Sound() && forall p :: p in found ==> p in ports
      ensures s.Some? <==> exists p :: p in found && DhcpOff(subnets, ports[p])
      ensures s.Some? ==> s.value in subnets && !subnets[s.value].enableDhcp
    {
      for i := 0 to |found|
        invariant forall j :: 0 <= j < i ==> !DhcpOff(subnets, ports[found[j]])
      {
        var port := ports[found[i]];
        assert Placed(networks, subnets, port);
        for k := 0 to |port.fixedIps|
          invariant forall j :: 0 <= j < k ==> subnets[port.fixedIps[j].subnet].enableDhcp
        {
          assert port.fixedIps[k] in port.fixedIps;
          if !subnets[port.fixedIps[k].subnet].enableDhcp {
            assert DhcpOff(subnets, ports[found[i]]);
            return Some(port.fixedIps[k].subnet);
          }
        }
      }
      s := None;
    }

    /** Called when an interface of `router` has been added or, with `interface`
        false, removed. A call made by the plugin on behalf of the handlers
        themselves finds the metadata interface already there, or already gone,
        and changes nothing. Handled exceptions end here. */
    method HandleRouterMetadataAccess(router: RouterId, interface: bool) returns (end: Outcome)
      requires Sound()
      modifies this
      ensures Sound() && end != Handled
      ensures SamePorts(old(ports), ports, router)
      ensures SameTenants(old(networks), old(subnets), networks, subnets)
      ensures interface == Has(old(ports), router) ==>
                && ports == old(ports) && networks == old(networks) && subnets == old(subnets)
                && outcomes == old(outcomes) && end == Fine
      ensures Quiet(old(outcomes)) ==>
                && Quiet(outcomes) && end == Fine
                && (Has(ports, router) <==> Answer(old(ports), old(subnets), router, Enabled(), onDemand, interface))
                && (Tidy(old(networks), old(ports)) ==> Tidy(networks, ports))
      ensures Faults(old(outcomes)) <= 1 && interface && !Has(old(ports), router) ==>
                var called := Enabled() && (onDemand ==> Disabled(old(ports), old(subnets), router));
                var fault := if called then FirstFault(old(outcomes), if notifies then 7 else 6) else Fine;
                end == if fault == Handled then Fine else fault
      ensures Faults(old(outcomes)) <= 1 && !interface && Has(old(ports), router) ==>
                var called := Enabled() && (|RouterPorts(old(ports), router)| == 1 || (onDemand && !Disabled(old(ports), old(subnets), router)));
                var fault := if called then FirstFault(old(outcomes), if notifies then 4 else 3) else Fine;
                end == if fault == Handled || At(old(outcomes), 2) == DbReference then Fine else fault
      decreases if interface == Has(ports, router) then 1 else 5
    {
      hide Inv, SamePorts, SameTenants, Tidy, CreateEnd, DestroyEnd, Faults, At, Drop, FirstFault, Disabled, DhcpOff;
      DestroyCalls(outcomes);
      Same(networks, subnets, ports, router);
      end := Fine;
      if !direct || !overlappingIps { return; }
      var all := GetPorts(router);
      var meta := FindMetadataPort(all);
      var off := FindDhcpDisabledSubnetByPort(all);
      AllOfRouter(ports, subnets, router, all);
      if interface {
        if meta.None? && (!onDemand || off.Some?) {
          end := CreateMetadataAccessNetwork(router);
        }
      } else {
        if |all| == 1 || (onDemand && off.None?) {
          end := DestroyMetadataAccessNetwork(router, all);
        }
      }
      if end == Handled { end := Fine; }
    }

    /** If nothing raises the router gets its network. If a single call raises,
        `CreateEnd` says what is left. */
    method CreateMetadataAccessNetwork(router: RouterId) returns (end: Outcome)
      requires Sound() && !Has(ports, router)
      modifies this
      ensures Sound()
      ensures SamePorts(old(ports), ports, router)
      ensures SameTenants(old(networks), old(subnets), networks, subnets)
      ensures Quiet(old(outcomes)) ==> Quiet(outcomes) && end == Fine && Has(ports, router)
      ensures Faults(old(outcomes)) <= 1 ==>
                var left := CreateEnd(old(outcomes), notifies);
                && networks == (if left.Nothing? then old(networks) else old(networks)[old(next) := Meta(router)])
                && (left.Complete? || left.Silent? <==> Has(ports, router))
                && (left.Nothing? || left.Orphan? ==> ports == old(ports))
                && (Tidy(old(networks), old(ports)) ==> (Tidy(networks, ports) <==> !left.Orphan?))
      ensures Faults(old(outcomes)) <= 1 ==>
                var fault := FirstFault(old(outcomes), if notifies then 7 else 6);
                if fault == Handled then end == Fine || end == Handled else end == fault
      decreases 4
    {
      hide Inv, SamePorts, SameTenants, Tidy, Placed, Answer, Faults, At, Drop, FirstFault;
      ghost var o := outcomes;
      CreateCalls(o);
      SevenCalls(o);
      Same(networks, subnets, ports, router);
      var n;
      n, end := CreateNetwork(router);
      if end != Fine { return; }
      Untidy(old(networks), ports, n, router);
      end := Call();  // schedule_network
      if end != Fine { return; }
      ghost var q;
      end, q := AttachMetadataNetwork(router, n);
      SameTenantsTwice(old(networks), old(subnets), networks, old(subnets), networks, subnets);
      if Joined(old(ports), ports, q, n, router) && Tidy(old(networks), old(ports)) {
        TidyJoined(old(networks), old(ports), n, q, ports, router);
      }
      if end == Handled {
        label Failed:
        end := DeleteNetwork(n);
        assert end == Fine ==> networks == old(networks);
        SameTenantsTwice(old(networks), old(subnets), old@Failed(networks), old@Failed(subnets), networks, subnets);
      }
    }

    /** The body of the `try`: the subnet, the interface and the notification. */
    method AttachMetadataNetwork(router: RouterId, n: Id) returns (end: Outcome, ghost q: Id)
      requires Sound() && !Has(ports, router) && n in networks && networks[n] == Meta(router)
      requires forall p :: p in ports ==> ports[p].network != n
      modifies this
      ensures Sound() && networks == old(networks)
      ensures SamePorts(old(ports), ports, router)
      ensures SameTenants(networks, old(subnets), networks, subnets)
      ensures Quiet(old(outcomes)) ==> Quiet(outcomes) && end == Fine
      ensures Faults(old(outcomes)) <= 1 ==>
                var fault := FirstFault(old(outcomes), 4);
                if fault != Fine then end == fault && ports == old(ports) && Quiet(outcomes)
                else && end == (if notifies then At(old(outcomes), 4) else Fine) && Faults(outcomes) + (if end == Fine then 0 else 1) <= 1
                     && Has(ports, router) && Joined(old(ports), ports, q, n, router)
      decreases 4, 0
    {
      hide Inv, SamePorts, SameTenants, Tidy, Placed, Answer, Faults, At, Drop, FirstFault;
      ghost var o := outcomes;
      AttachCalls(o);
      Same(networks, subnets, ports, router);
      q := 0;
      var s;
      s, end := CreateSubnet(n);
      if end != Fine { return; }
      var fixedIp := FixedIp(s, METADATA_GATEWAY_IP);
      ghost var p := MetaPlaced(networks, subnets, n, router, fixedIp);
      PortAdded(networks, subnets, ports, next, p);
      Answered(ports[next := p], subnets, router, Enabled(), onDemand);
      q := next;
      var port;
      port, end := AddRouterInterface(router, n, [fixedIp]);
      if end != Fine { return; }
      if notifies {
        end := Call();
      }
    }

    method DestroyMetadataAccessNetwork(router: RouterId, all: seq<Id>) returns (end: Outcome)
      requires Sound() && forall p :: p in all <==> p in RouterPorts(ports, router)
      modifies this
      ensures Sound()
      ensures SamePorts(old(ports), ports, router)
      ensures SameTenants(old(networks), old(subnets), networks, subnets)
      ensures !Has(old(ports), router) ==>
                && ports == old(ports) && networks == old(networks) && subnets == old(subnets)
                && outcomes == old(outcomes) && end == Fine
      ensures Quiet(old(outcomes)) ==>
                && Quiet(outcomes) && end == Fine && !Has(ports, router)
                && (Tidy(old(networks), old(ports)) ==> Tidy(networks, ports))
      ensures Has(old(ports), router) && Faults(old(outcomes)) <= 1 ==>
                var removal := DestroyEnd(old(outcomes));
                && (Has(ports, router) <==> removal.Kept? || removal.Readded?)
                && (networks == old(networks) <==> !removal.Gone?)
                && (Tidy(old(networks), old(ports)) ==> (Tidy(networks, ports) <==> !removal.Orphaned?))
      ensures Has(old(ports), router) && Faults(old(outcomes)) <= 1 ==>
                var fault := FirstFault(old(outcomes), if notifies then 4 else 3);
                end == if At(old(outcomes), 2) == Handled || At(old(outcomes), 2) == DbReference then Fine else fault
      decreases if Has(ports, router) then 4 else 0
    {
      hide Inv, SamePorts, SameTenants, Tidy, Placed, Answer, Faults, At, Drop, FirstFault, Has, IsMeta, Enabled;
      ghost var o := outcomes;
      DestroyCalls(o);
      Same(networks, subnets, ports, router);
      end := Fine;
      var meta := FindMetadataPort(all);
      Found(ports, router, all, meta);
      if meta.None? { return; }
      var port := ports[meta.value];
      AloneOnNetwork(networks, subnets, ports, next, meta.value);
      PortRemoved(networks, subnets, ports, next, meta.value);
      NotAnswered(ports - {meta.value}, subnets, router, Enabled(), onDemand);
      if Tidy(networks, ports) { TidyDestroyed(networks, ports, meta.value); }
      Untidy(networks, ports - {meta.value}, port.network, router);
      PlacedAt(networks, subnets, port, 0);
      end := RemoveRouterInterface(router, meta.value);
      if end != Fine { return; }
      end := DeleteNetwork(port.network);
      if end == Handled {
        var fixedIp := FixedIp(port.fixedIps[0].subnet, METADATA_GATEWAY_IP);
        ghost var p := MetaPlaced(networks, subnets, port.network, router, fixedIp);
        PortAdded(networks, subnets, ports, next, p);
        Answered(ports[next := p], subnets, router, Enabled(), onDemand);
        SamePortsTwice(old(ports), ports, ports[next := p], router);
        if Tidy(old(networks), old(ports)) { TidyAgain(networks, old(ports), meta.value, next, p); }
        var again;
        again, end := AddRouterInterface(router, port.network, [fixedIp]);
        if end != Fine { return; }
      } else if end == DbReference {
        end := Fine;
      } else if end != Fine {
        return;
      }
      if notifies {
        end := Call();
      }
    }

    /** Adds an interface with the given addresses and calls the handler. If
        anything raises after the port was added, the interface is removed
        again, unless that raises too. */
    method AddRouterInterface(router: RouterId, network: Id, fixedIps: seq<FixedIp>) returns (port: Option<Id>, end: Outcome)
      requires Sound() && Placed(networks, subnets, Port(router, network, fixedIps))
      requires IsMeta(Port(router, network, fixedIps)) ==> !Has(ports, router)
      modifies this
      ensures Sound() && (end == Fine <==> port.Some?)
      ensures SameTenants(old(networks), old(subnets), networks, subnets)
      ensures var with := old(ports)[old(next) := Port(router, network, fixedIps)];
              && (port.Some? ==> port.value == old(next) && SamePorts(with, ports, router))
              && (port.None? ==> SamePorts(old(ports), ports, router) || SamePorts(with, ports, router))
              && (IsMeta(Port(router, network, fixedIps)) ==>
                    && networks == old(networks) && subnets == old(subnets) && (ports == with || (port.None? && ports == old(ports)))
                    && (port.Some? ==> outcomes == Drop(old(outcomes), 3) && Faults(outcomes) <= Faults(old(outcomes)))
                    && (port.Some? ==> FirstFault(old(outcomes), 3) == Fine)
                    && (Faults(old(outcomes)) <= 1 && port.None? ==>
                          ports == old(ports) && Quiet(outcomes) && end == FirstFault(old(outcomes), 3)))
              && (Quiet(old(outcomes)) ==>
                    && Quiet(outcomes) && port.Some?
                    && (Has(ports, router) <==> Answer(with, old(subnets), router, Enabled(), onDemand, true))
                    && (Tidy(old(networks), with) ==> Tidy(networks, ports)))
      decreases if IsMeta(Port(router, network, fixedIps)) then 3 else 7
    {
      hide Inv, SamePorts, SameTenants, Tidy, Placed, Answer, Has, IsMeta, Faults, At, Drop, FirstFault;
      ghost var o := outcomes;
      ThreeCalls(o);
      Same(networks, subnets, ports, router);
      port := None;
      end := Call();
      if end != Fine { return; }
      var p := Port(router, network, fixedIps);
      PortAdded(networks, subnets, ports, next, p);
      ports, next := ports[next := p], next + 1;
      port := Some(next - 1);
      Same(networks, subnets, ports, router);
      end := Call();
      if end == Fine {
        end := HandleRouterMetadataAccess(router, true);
        if end == Fine { end := Call(); }
      }
      if end != Fine {
        StillThere(old(ports)[old(next) := p], ports, router, old(next));
        AddThenRemove(old(ports), old(next), p);
        ghost var mid, midNets, midSubs := ports, networks, subnets;
        var rolledBack := RemoveRouterInterface(router, port.value);
        SameTenantsTwice(old(networks), old(subnets), midNets, midSubs, networks, subnets);
        if SamePorts(mid - {old(next)}, ports, router) {
          RolledBack(old(ports), p, old(next), mid, ports);
        }
        port := None;
      }
    }

    /** Removes an interface and calls the handler. */
    method RemoveRouterInterface(router: RouterId, p: Id) returns (end: Outcome)
      requires Sound() && p in ports && ports[p].router == router
      modifies this
      ensures Sound()
      ensures SameTenants(old(networks), old(subnets), networks, subnets)
      ensures ports == old(ports) || SamePorts(old(ports) - {p}, ports, router)
      ensures end == Fine ==> SamePorts(old(ports) - {p}, ports, router)
      ensures IsMeta(old(ports)[p]) ==>
                && networks == old(networks) && subnets == old(subnets) && Faults(outcomes) <= Faults(old(outcomes))
                && (if At(old(outcomes), 0) != Fine then
                      ports == old(ports) && end == At(old(outcomes), 0)
                    else
                      && ports == old(ports) - {p} && end == At(old(outcomes), 1) && outcomes == Drop(Drop(old(outcomes), 1), 1)
                      && Faults(old(outcomes)) == Faults(outcomes) + if end == Fine then 0 else 1)
      ensures Quiet(old(outcomes)) ==>
                && Quiet(outcomes) && end == Fine
                && (Has(ports, router) <==> Answer(old(ports) - {p}, old(subnets), router, Enabled(), onDemand, false))
                && (Tidy(old(networks), old(ports) - {p}) ==> Tidy(networks, ports))
      decreases if IsMeta(ports[p]) then 2 else 6
    {
      hide Inv, SamePorts, SameTenants, Tidy, Faults, At, Drop;
      DropMore(outcomes, 1);
      Same(networks, subnets, ports, router);
      end := Call();
      if end != Fine { return; }
      PortRemoved(networks, subnets, ports, next, p);
      ports := ports - {p};
      end := HandleRouterMetadataAccess(router, false);
      if end == Fine { end := Call(); }
    }

    /** What holds between requests as long as nothing raises. */
    ghost predicate Agreement()
      reads this
    {
      && Sound() && Tidy(networks, ports) && Quiet(outcomes)
      && forall r :: Agrees(ports, subnets, r, Enabled(), onDemand)
    }

    method AttachInterface(router: RouterId, network: Id, fixedIps: seq<FixedIp>)
      requires Agreement()
      requires var p := Port(router, network, fixedIps); Placed(networks, subnets, p) && !IsMeta(p)
      modifies this
      ensures Agreement()
      ensures var before := TenantsOf(old(networks), old(subnets), old(ports));
              TenantsOf(networks, subnets, ports) ==
              before.(ports := before.ports[old(next) := Port(router, network, fixedIps)])
    {
      hide Inv, SamePorts, SameTenants, Tidy, Answer, Has, Agrees, TenantsOf;
      ghost var p := Port(router, network, fixedIps);
      PortAdded(networks, subnets, ports, next, p);
      TidyWithPort(networks, ports, next, p);
      TenantPortChanged(networks, subnets, ports, next, p);
      var port, end := AddRouterInterface(router, network, fixedIps);
      SameView(old(networks), old(subnets), old(ports)[old(next) := p], networks, subnets, ports, router);
      forall r ensures Agrees(ports, subnets, r, Enabled(), onDemand) {
        AttachAgrees(old(networks), old(subnets), old(ports), old(next), p, networks, subnets, ports, next,
                     Enabled(), onDemand, r);
      }
    }

    method DetachInterface(router: RouterId, i: Id)
      requires Agreement() && i in ports && ports[i].router == router && !IsMeta(ports[i])
      modifies this
      ensures Agreement()
      ensures var before := TenantsOf(old(networks), old(subnets), old(ports));
              TenantsOf(networks, subnets, ports) == before.(ports := before.ports - {i})
    {
      hide SamePorts, SameTenants, Tidy, Placed, Answer, Has, Agrees, Fresh, SubnetsSound, AtMostOne, TenantsOf;
      TidyWithoutPort(networks, subnets, ports, i);
      TenantPortChanged(networks, subnets, ports, i, ports[i]);
      var end := RemoveRouterInterface(router, i);
      SameView(old(networks), old(subnets), old(ports) - {i}, networks, subnets, ports, router);
      forall r ensures Agrees(ports, subnets, r, Enabled(), onDemand) {
        DetachAgrees(old(networks), old(subnets), old(ports), old(next), i, networks, subnets, ports, next,
                     Enabled(), onDemand, r);
      }
    }

    /** `update_subnet` with a value for DHCP: in on-demand mode every router
        with an interface on the subnet is reconsidered. */
    method UpdateSubnet(s: Id, enableDhcp: bool)
      requires Agreement() && s in subnets && subnets[s].network in networks && networks[subnets[s].network] == Tenant
      modifies this
      ensures Agreement()
      ensures var before := TenantsOf(old(networks), old(subnets), old(ports));
              s in before.subnets && TenantsOf(networks, subnets, ports) ==
              before.(subnets := before.subnets[s := before.subnets[s].(enableDhcp := enableDhcp)])
    {
      hide Inv, SamePorts, SameTenants, Tidy, Answer, Has, TenantDisabled, Pending, TenantsOf;
      TenantSubnetChanged(networks, subnets, ports, s, subnets[s].(enableDhcp := enableDhcp));
      var routers := InterfaceRouters(s);
      Switched(networks, subnets, ports, next, s, enableDhcp);
      if onDemand { SwitchStart(networks, subnets, ports, s, enableDhcp, Enabled(), next, routers); }
      subnets := subnets[s := subnets[s].(enableDhcp := enableDhcp)];
      if !onDemand {
        forall r ensures Agrees(ports, subnets, r, Enabled(), false) {
          assert Agrees(ports, old(subnets), r, Enabled(), false);
        }
        return;
      }
      assert routers[0..] == routers;
      for i := 0 to |routers|
        invariant Sound() && Tidy(networks, ports) && Quiet(outcomes)
        invariant AllSwitched(ports, subnets, Enabled(), enableDhcp, routers[i..])
        invariant TenantsOf(networks, subnets, ports) ==
                  TenantsOf(old(networks), old(subnets)[s := old(subnets)[s].(enableDhcp := enableDhcp)], old(ports))
      {
        ghost var nets, subs, ps, n := networks, subnets, ports, next;
        var end := HandleRouterMetadataAccess(routers[i], !enableDhcp);
        assert end == Fine;
        SameView(nets, subs, ps, networks, subnets, ports, routers[i]);
        SwitchNext(nets, subs, ps, networks, subnets, ports, n, next, Enabled(), enableDhcp, routers[i..]);
        assert routers[i..][1..] == routers[i + 1..];
      }
    }

    /** The routers of the interfaces found on a subnet, one entry for each. */
    method InterfaceRouters(s: Id) returns (routers: seq<RouterId>)
      ensures forall r :: r in routers <==> exists p :: p in ports && ports[p].router == r && Uses(ports[p], s)
    {
      var todo := set p | p in ports && Uses(ports[p], s);
      ghost var all := todo;
      routers := [];
      while todo != {}
        invariant todo <= all
        invariant forall r :: r in routers <==> exists p :: p in all - todo && ports[p].router == r
        decreases todo
      {
        var p :| p in todo;
        assert all - (todo - {p}) == (all - todo) + {p};
        todo := todo - {p};
        routers := routers + [ports[p].router];
      }
      assert all - {} == all;
    }

    method NewTenantNetwork()
      requires Agreement()
      modifies `networks, `next
      ensures Agreement()
      ensures var before := TenantsOf(old(networks), subnets, ports);
              TenantsOf(networks, subnets, ports) == before.(networks := before.networks + {old(next)})
    {
      hide Agrees;
      forall p | p in ports ensures Placed(networks[next := Tenant], subnets, ports[p]) {
        assert Placed(networks, subnets, ports[p]);
      }
      networks, next := networks[next := Tenant], next + 1;
    }

    method NewTenantSubnet(n: Id, enableDhcp: bool)
      requires Agreement() && n in networks && networks[n] == Tenant
      modifies `subnets, `next
      ensures Agreement()
      ensures var before := TenantsOf(networks, old(subnets), ports);
              TenantsOf(networks, subnets, ports) == before.(subnets := before.subnets[old(next) := Subnet(n, enableDhcp)])
    {
      hide Has, HasTenant, TenantsOf;
      TenantSubnetChanged(networks, subnets, ports, next, Subnet(n, enableDhcp));
      var subnets' := subnets[next := Subnet(n, enableDhcp)];
      forall p | p in ports
        ensures Placed(networks, subnets', ports[p]) && (DhcpOff(subnets', ports[p]) <==> DhcpOff(subnets, ports[p]))
      {
        assert Placed(networks, subnets, ports[p]);
      }
      forall r ensures Agrees(ports, subnets', r, Enabled(), onDemand) {
        assert Agrees(ports, subnets, r, Enabled(), onDemand);
      }
      subnets, next := subnets', next + 1;
    }

    /** One request: the tenants see what they would see without metadata
        networks, and every router is in agreement again. */
    method Serve(request: Request)
      requires Agreement()
      modifies this
      ensures Agreement()
      ensures TenantsOf(networks, subnets, ports) ==
              After(TenantsOf(old(networks), old(subnets), old(ports)), request, old(next))
    {
      hide Inv, Tidy, Agrees;
      match request
      case NewNetwork => NewTenantNetwork();
      case NewSubnet(n, enableDhcp) =>
        if n in networks && networks[n] == Tenant { NewTenantSubnet(n, enableDhcp); }
      case Attach(router, n, fixedIps) =>
        if && n in networks && networks[n] == Tenant
           && (forall f | f in fixedIps :: f.subnet in subnets && subnets[f.subnet].network == n)
           && (forall f | f in fixedIps :: f.ip != METADATA_GATEWAY_IP) {
          AttachInterface(router, n, fixedIps);
        }
      case Detach(router, p) =>
        if p in ports && ports[p].router == router && forall f | f in ports[p].fixedIps :: f.ip != METADATA_GATEWAY_IP {
          DetachInterface(router, p);
        }
      case SwitchDhcp(s, enableDhcp) =>
        if s in subnets && subnets[s].network in networks && networks[subnets[s].network] == Tenant {
          UpdateSubnet(s, enableDhcp);
        }
    }

    /** After every sequence of requests every router has at most one metadata
        interface, and has one exactly when it is meant to. */
    method Run(requests: seq<Request>)
      requires Agreement()
      modifies this
      ensures AtMostOne(ports) && Tidy(networks, ports)
      ensures forall r :: Has(ports, r) <==> direct && overlappingIps && Wants(ports, subnets, r, onDemand)
      ensures Agreement()
    {
      for i := 0 to |requests|
        invariant Agreement()
      {
        Serve(requests[i]);
      }
      forall r ensures Has(ports, r) <==> direct && overlappingIps && Wants(ports, subnets, r, onDemand) {
        assert Agrees(ports, subnets, r, Enabled(), onDemand);
      }
    }
  }

  /** A run in which a network stays behind: its scheduling raises. */
  method ScheduleFailure(router: RouterId) returns (p: Plugin)
    ensures fresh(p) && p.Sound() && !Tidy(p.networks, p.ports) && !Has(p.ports, router)
  {
    p := new Plugin(true, true, false, true, [Fine, Handled]);
    LeftBehind();
    var end := p.CreateMetadataAccessNetwork(router);
  }
}
