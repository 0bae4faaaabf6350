/**
 * Migration of networks with their subnets and ports.
 *
 * Subnets are created without DHCP; once the ports of a network exist, DHCP is
 * switched on for one of its subnets at most.
 */
module NetworkReplay {
  import opened Filters
  import opened Options
  import opened ReplayTraces

  type Id = string
  type Route = string

  datatype Network = Network(id: Id, external: bool, subnets: seq<Id>, tags: seq<string>)
  datatype Subnet = Subnet(dhcp: bool, hostRoutes: seq<Route>, tags: seq<string>)
  datatype Owner = RouterGateway | LbV | Dhcp | FloatingIp | RouterInterface | Other
  datatype Port = Port(id: Id, network: Id, owner: Owner, device: Id, subnet: Option<Id>, internal: bool, tags: seq<string>)

  datatype Call =
    | NetworkCreate(network: Id)
    | SubnetCreate(subnet: Id, ofNetwork: Id, enableDhcp: bool, hostRoutes: seq<Route>)
    | PortCreate(port: Id, onNetwork: Id)
    | RouterUplink(router: Id, gatewayNetwork: Id)
    | InterfaceAdd(toRouter: Id, createdPort: Id)
    | SubnetEnableDhcp(createdSubnet: Id, routes: seq<Route>)
    | TagAdd(resource: Resource, tagged: Id, tag: string)
  datatype Resource = Networks | Subnets | Ports

  type Trace = seq<Event<Call, Id>>

  /** The events of one network: its own, those of each subnet and each port,
      and what switches DHCP on. */
  datatype Segment = Segment(network: Trace, subnets: seq<Trace>, ports: seq<Trace>, dhcp: Trace)

  function All(s: Segment): Trace {
    s.network + Flatten(s.subnets) + Flatten(s.ports) + s.dhcp
  }

  function Whole(segments: seq<Segment>): Trace {
    if segments == [] then [] else Whole(segments[..|segments| - 1]) + All(segments[|segments| - 1])
  }

  // --------------------------------------------------------------- order

  function Select(nets: seq<Network>, external: bool): seq<Network> {
    if nets == [] then [] else
    var rest, last := Select(nets[..|nets| - 1], external), nets[|nets| - 1];
    if last.external == external then rest + [last] else rest
  }

  /** Each network is in the one selection that its kind calls for. */
  lemma {:induction false} SelectsCover(nets: seq<Network>)
    ensures multiset(Select(nets, true)) + multiset(Select(nets, false)) == multiset(nets)
    ensures (forall n :: n in Select(nets, true) ==> n.external) && (forall n :: n in Select(nets, false) ==> !n.external)
  {
    if nets != [] {
      var rest, last := nets[..|nets| - 1], nets[|nets| - 1];
      SelectsCover(rest);
      assert nets == rest + [last];
    }
  }

  lemma {:induction false} SelectJoins(a: seq<Network>, b: seq<Network>, external: bool)
    ensures Select(a + b, external) == Select(a, external) + Select(b, external)
  {
    if b == [] {
      assert a + b == a;
    } else {
      SelectJoins(a, b[..|b| - 1], external);
      assert (a + b)[..|a + b| - 1] == a + b[..|b| - 1];
    }
  }

  /** Selecting from a selection. */
  lemma {:induction false} SelectAgain(nets: seq<Network>, first: bool, external: bool)
    ensures Select(Select(nets, first), external) == if first == external then Select(nets, first) else []
  {
    if nets != [] {
      var rest, last := nets[..|nets| - 1], nets[|nets| - 1];
      SelectAgain(rest, first, external);
      SelectJoins(Select(rest, first), [last], external);
    }
  }

  /** External networks first, each kind in source order. */
  function Ordered(nets: seq<Network>): (r: seq<Network>)
    ensures multiset(r) == multiset(nets) && |r| == |nets|
    ensures forall i :: 0 <= i < |r| ==> r[i] in nets
    ensures forall i, j :: 0 <= i < j < |r| && r[j].external ==> r[i].external
    ensures forall external :: Select(r, external) == Select(nets, external)
  {
    SelectsCover(nets);
    var r := Select(nets, true) + Select(nets, false);
    assert |multiset(r)| == |multiset(nets)|;
    assert forall i :: 0 <= i < |r| ==> r[i] in multiset(r);
    assert forall external :: Select(r, external) == Select(nets, external) by {
      forall external ensures Select(r, external) == Select(nets, external) {
        SelectJoins(Select(nets, true), Select(nets, false), external);
        SelectAgain(nets, true, external);
        SelectAgain(nets, false, external);
      }
    }
    r
  }

  // ------------------------------------------------------------- subnets

  /** The subnets of a network that the destination lacks. */
  function Missing(ids: seq<Id>, existing: set<Id>): (r: seq<Id>)
    ensures forall s :: s in r <==> s in ids && s !in existing
  {
    if ids == [] then [] else
    var rest, last := Missing(ids[..|ids| - 1], existing), ids[|ids| - 1];
    assert ids == ids[..|ids| - 1] + [last];
    if last in existing then rest else rest + [last]
  }

  lemma {:induction false} MissingIsFilter(ids: seq<Id>, existing: set<Id>, keep: Id -> bool)
    requires forall s :: keep(s) <==> s !in existing
    ensures IsFilter(Missing(ids, existing), ids, keep)
  {
    hide IsFilter;
    if ids == [] {
      FilterNone(keep);
    } else {
      MissingIsFilter(ids[..|ids| - 1], existing, keep);
      FilterLast(Missing(ids[..|ids| - 1], existing), Missing(ids, existing), ids, keep);
    }
  }

  /** How many of the subnets have DHCP. */
  function DhcpCount(ids: seq<Id>, source: map<Id, Subnet>): nat
    requires forall s :: s in ids ==> s in source
  {
    if ids == [] then 0 else
    DhcpCount(ids[..|ids| - 1], source) + if source[ids[|ids| - 1]].dhcp then 1 else 0
  }

  /** The subnet whose DHCP is switched on later: the first with DHCP, on a
      network that is not external. */
  predicate Deferred(ids: seq<Id>, i: nat, source: map<Id, Subnet>, external: bool)
    requires i < |ids| && forall s :: s in ids ==> s in source
  {
    !external && source[ids[i]].dhcp && DhcpCount(ids[..i], source) == 0
  }

  lemma {:induction false} NoDhcp(ids: seq<Id>, i: nat, source: map<Id, Subnet>)
    requires i <= |ids| && forall s :: s in ids ==> s in source
    ensures DhcpCount(ids[..i], source) == 0 <==> forall j :: 0 <= j < i ==> !source[ids[j]].dhcp
    decreases i
  {
    if i > 0 {
      assert ids[..i][..i - 1] == ids[..i - 1];
      NoDhcp(ids, i - 1, source);
    }
  }

  /** The deferred subnet is the first with DHCP, if the network is not external. */
  lemma {:induction false} DeferredMeans(ids: seq<Id>, i: nat, source: map<Id, Subnet>, external: bool)
    requires i < |ids| && forall s :: s in ids ==> s in source
    ensures Deferred(ids, i, source, external) <==>
            !external && source[ids[i]].dhcp && forall j :: 0 <= j < i ==> !source[ids[j]].dhcp
  {
    NoDhcp(ids, i, source);
  }

  lemma {:induction false} DhcpCountGrows(ids: seq<Id>, i: nat, j: nat, source: map<Id, Subnet>)
    requires i <= j <= |ids| && forall s :: s in ids ==> s in source
    ensures DhcpCount(ids[..i], source) <= DhcpCount(ids[..j], source)
    decreases j
  {
    if i < j {
      assert ids[..j][..j - 1] == ids[..j - 1];
      DhcpCountGrows(ids, i, j - 1, source);
    }
  }

  lemma {:induction false} OneDeferred(ids: seq<Id>, i: nat, j: nat, source: map<Id, Subnet>, external: bool)
    requires i < |ids| && j < |ids| && forall s :: s in ids ==> s in source
    requires Deferred(ids, i, source, external) && Deferred(ids, j, source, external)
    ensures i == j
  {
    var a, b := if i <= j then i else j, if i <= j then j else i;
    if a < b {
      assert ids[..a + 1][..a] == ids[..a];
      DhcpCountGrows(ids, a + 1, b, source);
    }
  }

  /** The create call of the `i`-th missing subnet. */
  function CreateCall(ids: seq<Id>, i: nat, source: map<Id, Subnet>, net: Network): Call
    requires i < |ids| && forall s :: s in ids ==> s in source
  {
    SubnetCreate(ids[i], net.id, false, if Deferred(ids, i, source, net.external) then [] else source[ids[i]].hostRoutes)
  }

  function TagCalls(resource: Resource, id: Id, tags: seq<string>): seq<Call> {
    seq(|tags|, i requires 0 <= i < |tags| => TagAdd(resource, id, tags[i]))
  }

  function SubnetCalls(ids: seq<Id>, i: nat, source: map<Id, Subnet>, net: Network): seq<Call>
    requires i < |ids| && forall s :: s in ids ==> s in source
  {
    [CreateCall(ids, i, source, net)] + TagCalls(Subnets, ids[i], source[ids[i]].tags)
  }

  /** The calls for the `i`-th missing subnet: one that creates it without DHCP,
      and without its routes if DHCP is to follow, and one for each tag. */
  lemma {:induction false} SubnetCallsAre(ids: seq<Id>, i: nat, source: map<Id, Subnet>, net: Network)
    requires i < |ids| && forall s :: s in ids ==> s in source
    ensures var calls, tags := SubnetCalls(ids, i, source, net), source[ids[i]].tags;
            var withheld := !net.external && source[ids[i]].dhcp && forall j :: 0 <= j < i ==> !source[ids[j]].dhcp;
            && |calls| == 1 + |tags| && (forall k :: 0 <= k < |tags| ==> calls[k + 1] == TagAdd(Subnets, ids[i], tags[k]))
            && calls[0] == SubnetCreate(ids[i], net.id, false, if withheld then [] else source[ids[i]].hostRoutes)
  {
    DeferredMeans(ids, i, source, net.external);
  }

  /** The first missing subnets were asked for, in order, and tagged. */
  ghost predicate SubnetsTried(segments: seq<Trace>, ids: seq<Id>, source: map<Id, Subnet>, net: Network)
    requires forall s :: s in ids ==> s in source
  {
    |segments| <= |ids| && forall i :: 0 <= i < |segments| ==> Tried(segments[i], SubnetCalls(ids, i, source, net))
  }

  /** All of them were. */
  ghost predicate SubnetsDone(segments: seq<Trace>, ids: seq<Id>, source: map<Id, Subnet>, net: Network)
    requires forall s :: s in ids ==> s in source
  {
    |segments| == |ids| && SubnetsTried(segments, ids, source, net)
  }

  /** What DHCP is to be switched on for: the object that the deferred subnet
      became, with the routes withheld from its creation. */
  ghost function Listed(segments: seq<Trace>, ids: seq<Id>, n: nat, source: map<Id, Subnet>, net: Network): seq<(Id, seq<Route>)>
    requires n <= |ids| && |segments| >= n && forall s :: s in ids ==> s in source
  {
    if n == 0 then [] else
    Listed(segments, ids, n - 1, source, net) +
    if Deferred(ids, n - 1, source, net.external) && Done(segments[n - 1], SubnetCalls(ids, n - 1, source, net))
    then [(segments[n - 1][0].answer.value, source[ids[n - 1]].hostRoutes)] else []
  }

  /** The new ids of the subnets created. */
  ghost function NewIds(segments: seq<Trace>, ids: seq<Id>, n: nat, source: map<Id, Subnet>, net: Network): map<Id, Id>
    requires n <= |ids| && |segments| >= n && forall s :: s in ids ==> s in source
  {
    if n == 0 then map[] else
    var before := NewIds(segments, ids, n - 1, source, net);
    if Done(segments[n - 1], SubnetCalls(ids, n - 1, source, net)) then before[ids[n - 1] := segments[n - 1][0].answer.value]
    else before
  }

  /** A subnet that was created with its tags is known by the id it got. */
  lemma {:induction false} NewIdsMean(segments: seq<Trace>, ids: seq<Id>, n: nat, source: map<Id, Subnet>, net: Network, i: nat)
    requires i < n <= |ids| && |segments| >= n && forall s :: s in ids ==> s in source
    requires forall j :: 0 <= j < n && j != i ==> ids[j] != ids[i]
    ensures var known := NewIds(segments, ids, n, source, net);
            && (ids[i] in known <==> Done(segments[i], SubnetCalls(ids, i, source, net)))
            && (ids[i] in known ==> known[ids[i]] == segments[i][0].answer.value)
  {
    hide SubnetCalls;
    if i < n - 1 {
      NewIdsMean(segments, ids, n - 1, source, net, i);
    } else {
      NewIdsFrom(segments, ids, n - 1, source, net);
    }
  }

  lemma {:induction false} NewIdsFrom(segments: seq<Trace>, ids: seq<Id>, n: nat, source: map<Id, Subnet>, net: Network)
    requires n <= |ids| && |segments| >= n && forall s :: s in ids ==> s in source
    ensures forall id :: id in NewIds(segments, ids, n, source, net) ==> exists j :: 0 <= j < n && ids[j] == id
  {
    hide SubnetCalls;
    if n > 0 { NewIdsFrom(segments, ids, n - 1, source, net); }
  }

  lemma {:induction false} SubnetPrefix(ids: seq<Id>, id: Id, i: nat, source: map<Id, Subnet>, net: Network)
    requires i < |ids| && id in source && forall s :: s in ids ==> s in source
    ensures Deferred(ids + [id], i, source, net.external) <==> Deferred(ids, i, source, net.external)
    ensures SubnetCalls(ids + [id], i, source, net) == SubnetCalls(ids, i, source, net)
  {
    assert (ids + [id])[..i] == ids[..i];
  }

  /** Later subnets do not concern the lists of the earlier ones. */
  lemma {:induction false} ListsFrame(segments: seq<Trace>, more: Trace, ids: seq<Id>, id: Id, n: nat, source: map<Id, Subnet>, net: Network)
    requires n <= |ids| && |segments| >= n && id in source && forall s :: s in ids ==> s in source
    ensures Listed(segments + [more], ids + [id], n, source, net) == Listed(segments, ids, n, source, net)
    ensures NewIds(segments + [more], ids + [id], n, source, net) == NewIds(segments, ids, n, source, net)
  {
    if n > 0 {
      ListsFrame(segments, more, ids, id, n - 1, source, net);
      SubnetPrefix(ids, id, n - 1, source, net);
    }
  }

  /** The loop over the subnets, up to here: what was asked for, the new ids and
      the list for DHCP. */
  ghost predicate SoFar(segments: seq<Trace>, ids: seq<Id>, source: map<Id, Subnet>, net: Network,
                        newIds: map<Id, Id>, dhcp: seq<(Id, seq<Route>)>)
    requires forall s :: s in ids ==> s in source
  {
    && SubnetsDone(segments, ids, source, net)
    && newIds == NewIds(segments, ids, |ids|, source, net) && dhcp == Listed(segments, ids, |ids|, source, net)
  }

  /** One subnet more. */
  lemma {:induction false} SubnetStep(segments: seq<Trace>, more: Trace, ids: seq<Id>, id: Id, source: map<Id, Subnet>, net: Network,
                                      newIds: map<Id, Id>, dhcp: seq<(Id, seq<Route>)>, created: Option<Id>)
    requires id in source && (forall s :: s in ids ==> s in source) && SoFar(segments, ids, source, net, newIds, dhcp)
    requires var calls := SubnetCalls(ids + [id], |ids|, source, net);
             if created.Some? then Done(more, calls) && more[0].answer.value == created.value else Refused(more, calls)
    ensures var enabled := created.Some? && Deferred(ids + [id], |ids|, source, net.external);
            SoFar(segments + [more], ids + [id], source, net, if created.Some? then newIds[id := created.value] else newIds,
                  if enabled then dhcp + [(created.value, source[id].hostRoutes)] else dhcp)
  {
    ListsFrame(segments, more, ids, id, |ids|, source, net);
    NotBoth(more, SubnetCalls(ids + [id], |ids|, source, net));
    forall i | 0 <= i < |ids| + 1 ensures Tried((segments + [more])[i], SubnetCalls(ids + [id], i, source, net)) {
      if i < |ids| { SubnetPrefix(ids, id, i, source, net); }
    }
  }

  lemma {:induction false} MissingStep(ids: seq<Id>, i: nat, existing: set<Id>)
    requires i <= |ids|
    ensures Missing(ids[..0], existing) == [] && Missing(ids[..|ids|], existing) == Missing(ids, existing)
    ensures i < |ids| ==>
              Missing(ids[..i + 1], existing) == Missing(ids[..i], existing) + if ids[i] in existing then [] else [ids[i]]
  {
    assert ids[..|ids|] == ids;
    if i < |ids| { assert ids[..i + 1][..i] == ids[..i]; }
  }

  /** Counting the subnets with DHCP tells whether the next one is deferred. */
  lemma {:induction false} NextSubnet(ids: seq<Id>, id: Id, source: map<Id, Subnet>, net: Network, enable: bool)
    requires id in source && forall s :: s in ids ==> s in source
    requires enable == (source[id].dhcp && DhcpCount(ids, source) == 0 && !net.external)
    ensures DhcpCount(ids + [id], source) == DhcpCount(ids, source) + if source[id].dhcp then 1 else 0
    ensures enable == Deferred(ids + [id], |ids|, source, net.external)
    ensures SubnetCalls(ids + [id], |ids|, source, net) ==
            [SubnetCreate(id, net.id, false, if enable then [] else source[id].hostRoutes)] + TagCalls(Subnets, id, source[id].tags)
  {
    assert (ids + [id])[..|ids|] == ids;
  }

  lemma {:induction false} MissingPrefix(ids: seq<Id>, i: nat, existing: set<Id>) returns (more: seq<Id>)
    requires i <= |ids|
    ensures Missing(ids, existing) == Missing(ids[..i], existing) + more
    decreases |ids| - i
  {
    hide Missing;
    MissingStep(ids, i, existing);
    more := [];
    if i < |ids| {
      var rest := MissingPrefix(ids, i + 1, existing);
      more := (if ids[i] in existing then [] else [ids[i]]) + rest;
    }
  }

  /** What was asked for does not depend on the subnets still to come. */
  lemma {:induction false} SubnetsToCome(segments: seq<Trace>, ids: seq<Id>, n: nat, existing: set<Id>, source: map<Id, Subnet>, net: Network,
                                         newIds: map<Id, Id>, dhcp: seq<(Id, seq<Route>)>)
    requires n <= |ids| && (forall s :: s in ids ==> s in source)
    requires SoFar(segments, Missing(ids[..n], existing), source, net, newIds, dhcp)
    ensures SubnetsTried(segments, Missing(ids, existing), source, net)
    ensures n == |ids| ==> SoFar(segments, Missing(ids, existing), source, net, newIds, dhcp)
    ensures forall e :: e in Flatten(segments) ==> IsSubnetCall(e.call)
  {
    OnlySubnetCalls(segments, Missing(ids[..n], existing), source, net);
    var before := Missing(ids[..n], existing);
    var more := MissingPrefix(ids, n, existing);
    assert forall s :: s in before ==> s in ids[..n];
    assert n == |ids| ==> ids[..n] == ids;
    forall i: nat | i < |segments| ensures SubnetCalls(before + more, i, source, net) == SubnetCalls(before, i, source, net) {
      assert (before + more)[..i] == before[..i];
    }
  }

  /** At most one subnet is listed, and one is exactly if the deferred subnet
      was created with its tags. */
  lemma {:induction false} ListedExactly(segments: seq<Trace>, ids: seq<Id>, n: nat, source: map<Id, Subnet>, net: Network)
    requires n <= |ids| && |segments| >= n && forall s :: s in ids ==> s in source
    ensures |Listed(segments, ids, n, source, net)| <= 1
    ensures net.external ==> Listed(segments, ids, n, source, net) == []
    ensures forall i :: 0 <= i < n && Deferred(ids, i, source, net.external) ==>
              Listed(segments, ids, n, source, net) ==
              if Done(segments[i], SubnetCalls(ids, i, source, net)) then [(segments[i][0].answer.value, source[ids[i]].hostRoutes)] else []
    ensures (forall i :: 0 <= i < n ==> !Deferred(ids, i, source, net.external)) ==> Listed(segments, ids, n, source, net) == []
  {
    hide SubnetCalls, Deferred;
    if n > 0 {
      ListedExactly(segments, ids, n - 1, source, net);
      if Deferred(ids, n - 1, source, net.external) {
        NotExternal(ids, n - 1, source, net.external);
        forall i | 0 <= i < n && Deferred(ids, i, source, net.external) ensures i == n - 1 {
          OneDeferred(ids, i, n - 1, source, net.external);
        }
      }
    }
  }

  lemma {:induction false} NotExternal(ids: seq<Id>, i: nat, source: map<Id, Subnet>, external: bool)
    requires i < |ids| && (forall s :: s in ids ==> s in source) && Deferred(ids, i, source, external)
    ensures !external
  {
  }

  // --------------------------------------------------------------- ports

  /** Ports that somebody else recreates, or that are there already. */
  predicate Skipped(p: Port, existing: set<Id>) {
    p.internal || p.id in existing || p.owner == LbV || p.owner == Dhcp || p.owner == FloatingIp
  }

  predicate IsInterface(p: Port, newIds: map<Id, Id>) {
    p.owner == RouterInterface && p.subnet.Some? && p.subnet.value in newIds
  }

  /** The calls for a port, which became `created`. */
  function PortCalls(p: Port, newIds: map<Id, Id>, created: Id): seq<Call> {
    [PortCreate(p.id, p.network)] + TagCalls(Ports, p.id, p.tags)
    + if IsInterface(p, newIds) then [InterfaceAdd(p.device, created)] else []
  }

  /** What one port of the source leads to while network `net` is migrated. */
  ghost predicate PortDone(events: Trace, p: Port, net: Id, existing: set<Id>, newIds: map<Id, Id>) {
    if p.network != net || Skipped(p, existing) then events == []
    else if p.owner == RouterGateway then Tried(events, [RouterUplink(p.device, net)])
    else events != [] &&
         Tried(events, PortCalls(p, newIds, if events[0].answer.Created? then events[0].answer.value else ""))
  }

  /** The calls for a port: its creation on its network, its tags, and for an
      interface on a subnet created now its attachment to the router. */
  lemma {:induction false} PortCallsAre(p: Port, newIds: map<Id, Id>, created: Id)
    ensures var calls := PortCalls(p, newIds, created);
            var attached := p.owner == RouterInterface && p.subnet.Some? && p.subnet.value in newIds;
            && |calls| == 1 + |p.tags| + (if attached then 1 else 0) && calls[0] == PortCreate(p.id, p.network)
            && (forall k :: 0 <= k < |p.tags| ==> calls[k + 1] == TagAdd(Ports, p.id, p.tags[k]))
            && (attached ==> calls[1 + |p.tags|] == InterfaceAdd(p.device, created))
  {
  }

  ghost predicate PortsTried(segments: seq<Trace>, ports: seq<Port>, net: Id, existing: set<Id>, newIds: map<Id, Id>) {
    |segments| <= |ports| && forall i :: 0 <= i < |segments| ==> PortDone(segments[i], ports[i], net, existing, newIds)
  }

  ghost predicate PortsDone(segments: seq<Trace>, ports: seq<Port>, net: Id, existing: set<Id>, newIds: map<Id, Id>) {
    |segments| == |ports| && PortsTried(segments, ports, net, existing, newIds)
  }

  // ------------------------------------------------------------ segments

  function NetworkCalls(net: Network): seq<Call> {
    [NetworkCreate(net.id)] + TagCalls(Networks, net.id, net.tags)
  }

  /** A port that was asked for: first itself, then its tags and, once it has all
      of them, its attachment to the router of an interface. */
  ghost predicate PortMade(events: Trace, p: Port, net: Id, newIds: map<Id, Id>) {
    var attached := p.owner == RouterInterface && p.subnet.Some? && p.subnet.value in newIds;
    && events != [] && |events| <= 1 + |p.tags| + (if attached then 1 else 0) && events[0].call == PortCreate(p.id, net)
    && (forall k :: 0 <= k < |p.tags| && k + 1 < |events| ==> events[k + 1].call == TagAdd(Ports, p.id, p.tags[k]))
    && (|events| == 2 + |p.tags| ==> events[0].answer.Created? && events[1 + |p.tags|].call == InterfaceAdd(p.device, events[0].answer.value))
    && (forall k :: 0 <= k < |events| - 1 ==> events[k].answer.Created?)
    && (events[|events| - 1].answer.Created? ==> |events| == 1 + |p.tags| + if attached then 1 else 0)
  }

  lemma {:induction false} PortTried(events: Trace, p: Port, newIds: map<Id, Id>)
    requires events != [] && Tried(events, PortCalls(p, newIds, if events[0].answer.Created? then events[0].answer.value else ""))
    ensures PortMade(events, p, p.network, newIds)
    ensures var calls := PortCalls(p, newIds, if events[0].answer.Created? then events[0].answer.value else "");
            Done(events, calls) <==> events[|events| - 1].answer.Created?
  {
    var calls := PortCalls(p, newIds, if events[0].answer.Created? then events[0].answer.value else "");
    PortCallsAre(p, newIds, if events[0].answer.Created? then events[0].answer.value else "");
    TriedCalls(events, calls);
    hide Done, Refused, PortCalls;
  }

  lemma {:induction false} NetworkCallsAre(net: Network)
    ensures |NetworkCalls(net)| == 1 + |net.tags| && NetworkCalls(net)[0] == NetworkCreate(net.id)
    ensures forall k :: 0 <= k < |net.tags| ==> NetworkCalls(net)[k + 1] == TagAdd(Networks, net.id, net.tags[k])
  {
  }

  ghost predicate DhcpDone(events: Trace, dhcp: seq<(Id, seq<Route>)>) {
    |events| == |dhcp| && forall i :: 0 <= i < |dhcp| ==> events[i].call == SubnetEnableDhcp(dhcp[i].0, dhcp[i].1)
  }

  /** What the destination had, what the source has, and how errors are dealt
      with. */
  datatype Setting = Setting(networks: set<Id>, subnets: set<Id>, existing: set<Id>, source: map<Id, Subnet>, ports: seq<Port>,
                             ignoreErrors: bool)

  predicate Known(net: Network, w: Setting) {
    forall x :: x in net.subnets ==> x in w.source
  }

  /** What does not end the run: success, and with errors ignored any refusal,
      except that of a subnet or its tags only if it is a bad request. */
  function Survived(ignoreErrors: bool): Event<Call, Id> -> bool {
    (e: Event<Call, Id>) => e.answer.Created? || (ignoreErrors && (IsSubnetCall(e.call) ==> e.answer.BadRequest?))
  }

  /** What is counted as an error: a refusal that is survived. */
  function Noted(ignoreErrors: bool): Event<Call, Id> -> bool {
    (e: Event<Call, Id>) => !e.answer.Created? && ignoreErrors && (IsSubnetCall(e.call) ==> e.answer.BadRequest?)
  }

  /** The contents of a network: all subnets, then all ports, then DHCP, and no
      refusal that ends the run. */
  ghost predicate ContentsDone(s: Segment, net: Network, w: Setting)
    requires Known(net, w)
  {
    var ids, ok := Missing(net.subnets, w.subnets), Survived(w.ignoreErrors);
    && SubnetsDone(s.subnets, ids, w.source, net) && Survives(Flatten(s.subnets), ok)
    && PortsDone(s.ports, w.ports, net.id, w.existing, NewIds(s.subnets, ids, |ids|, w.source, net)) && Survives(Flatten(s.ports), ok)
    && DhcpDone(s.dhcp, Listed(s.subnets, ids, |ids|, w.source, net)) && Survives(s.dhcp, ok)
  }

  /** The contents up to the refusal that ended the run, which was of a subnet,
      of a port or of the call that switches DHCP on. */
  ghost predicate ContentsCut(s: Segment, net: Network, w: Setting)
    requires Known(net, w)
  {
    var ids, ok := Missing(net.subnets, w.subnets), Survived(w.ignoreErrors);
    && SubnetsTried(s.subnets, ids, w.source, net)
    && if Ends(Flatten(s.subnets), ok) then s.ports == [] && s.dhcp == []
       else
         && |s.subnets| == |ids| && Survives(Flatten(s.subnets), ok)
         && PortsTried(s.ports, w.ports, net.id, w.existing, NewIds(s.subnets, ids, |ids|, w.source, net))
         && if Ends(Flatten(s.ports), ok) then s.dhcp == []
            else
              && |s.ports| == |w.ports| && Survives(Flatten(s.ports), ok)
              && DhcpDone(s.dhcp, Listed(s.subnets, ids, |ids|, w.source, net)) && Ends(s.dhcp, ok)
  }

  /** A finished network: present already, refused, or complete. */
  ghost predicate Finished(s: Segment, net: Network, w: Setting)
    requires Known(net, w)
  {
    if net.id in w.networks then s == Segment([], [], [], [])
    else if Refused(s.network, NetworkCalls(net)) then w.ignoreErrors && s == Segment(s.network, [], [], [])
    else Done(s.network, NetworkCalls(net)) && ContentsDone(s, net, w)
  }

  /** A network whose migration ended the run: its last event is a refusal that
      is not survived, and everything before is as it should be. */
  ghost predicate CutShort(s: Segment, net: Network, w: Setting)
    requires Known(net, w)
  {
    && net.id !in w.networks
    && if Refused(s.network, NetworkCalls(net)) then !w.ignoreErrors && s == Segment(s.network, [], [], [])
       else Done(s.network, NetworkCalls(net)) && ContentsCut(s, net, w)
  }

  predicate IsSubnetCall(c: Call) {
    (c.SubnetCreate? && !c.enableDhcp) || (c.TagAdd? && c.resource == Subnets)
  }

  lemma {:induction false} TriedSubnet(events: Trace, ids: seq<Id>, i: nat, source: map<Id, Subnet>, net: Network)
    requires i < |ids| && (forall s :: s in ids ==> s in source) && Tried(events, SubnetCalls(ids, i, source, net))
    ensures forall e :: e in events ==> IsSubnetCall(e.call)
  {
    TriedCalls(events, SubnetCalls(ids, i, source, net));
    hide Done, Refused;
  }

  lemma {:induction false} OnlySubnetCalls(segments: seq<Trace>, ids: seq<Id>, source: map<Id, Subnet>, net: Network)
    requires (forall s :: s in ids ==> s in source) && SubnetsTried(segments, ids, source, net)
    ensures forall e :: e in Flatten(segments) ==> IsSubnetCall(e.call)
  {
    hide SubnetCalls, Done, Refused;
    if segments != [] {
      OnlySubnetCalls(segments[..|segments| - 1], ids, source, net);
      TriedSubnet(segments[|segments| - 1], ids, |segments| - 1, source, net);
    }
  }

  predicate IsPortCall(c: Call) {
    c.PortCreate? || c.RouterUplink? || c.InterfaceAdd? || (c.TagAdd? && c.resource == Ports)
  }

  /** Success is survived and no error; a refusal is an error if it is survived,
      which takes that errors are ignored, and of a subnet or one of its tags
      that it is a bad request. */
  lemma {:induction false} SurvivedMeans(e: Event<Call, Id>, ignoreErrors: bool)
    ensures e.answer.Created? ==> Survived(ignoreErrors)(e) && !Noted(ignoreErrors)(e)
    ensures !e.answer.Created? ==> (Noted(ignoreErrors)(e) <==> Survived(ignoreErrors)(e))
    ensures !e.answer.Created? && (e.call.SubnetCreate? || (e.call.TagAdd? && e.call.resource == Subnets)) && !(e.call.SubnetCreate? && e.call.enableDhcp) ==>
              (Survived(ignoreErrors)(e) <==> ignoreErrors && e.answer == BadRequest)
    ensures !e.answer.Created? && !e.call.SubnetCreate? && !(e.call.TagAdd? && e.call.resource == Subnets) ==>
              (Survived(ignoreErrors)(e) <==> ignoreErrors)
  {
  }

  /** A refusal of anything but a subnet ends the run unless errors are ignored. */
  lemma {:induction false} OtherRefusal(events: Trace, calls: seq<Call>, ignoreErrors: bool)
    requires forall e :: e in events ==> !IsSubnetCall(e.call)
    ensures Done(events, calls) ==> Survives(events, Survived(ignoreErrors))
    ensures Refused(events, calls) ==> Ended(events, ignoreErrors, Survived(ignoreErrors))
  {
    TriedEnds(events, calls, Survived(ignoreErrors));
  }

  lemma {:induction false} OtherNoted(events: Trace, calls: seq<Call>, ignoreErrors: bool)
    requires Tried(events, calls) && forall e :: e in events ==> !IsSubnetCall(e.call)
    ensures Done(events, calls) ==> Count(events, Noted(ignoreErrors)) == 0
    ensures Refused(events, calls) ==> Count(events, Noted(ignoreErrors)) == if ignoreErrors then 1 else 0
  {
    CountTried(events, calls, Noted(ignoreErrors));
    NotBoth(events, calls);
    TriedCalls(events, calls);
  }

  predicate IsNetworkCall(c: Call) {
    c.NetworkCreate? || (c.TagAdd? && c.resource == Networks)
  }

  /** What holds of a network's events, finished or not: no subnet gets DHCP
      when created, and one at most gets it after all port calls, none of an
      external network. */
  ghost predicate Safe(s: Segment, net: Network) {
    && (forall e :: e in s.network ==> IsNetworkCall(e.call))
    && (forall e :: e in Flatten(s.subnets) ==> IsSubnetCall(e.call))
    && (forall e :: e in Flatten(s.ports) ==> IsPortCall(e.call))
    && |s.dhcp| <= 1 && (net.external ==> s.dhcp == []) && (s.dhcp != [] ==> s.dhcp[0].call.SubnetEnableDhcp?)
  }

  /** Read off a finished network: which subnet gets DHCP, if any. */
  lemma {:induction false} DhcpExactly(s: Segment, net: Network, w: Setting, i: nat)
    requires Known(net, w) && net.id !in w.networks && Finished(s, net, w) && !Refused(s.network, NetworkCalls(net))
    requires i < |Missing(net.subnets, w.subnets)| && Deferred(Missing(net.subnets, w.subnets), i, w.source, net.external)
    ensures var ids := Missing(net.subnets, w.subnets);
            && |s.subnets| == |ids| && Tried(s.subnets[i], SubnetCalls(ids, i, w.source, net))
            && SubnetCalls(ids, i, w.source, net)[0] == SubnetCreate(ids[i], net.id, false, [])
            && if Done(s.subnets[i], SubnetCalls(ids, i, w.source, net)) then
                 |s.dhcp| == 1 && s.dhcp[0].call == SubnetEnableDhcp(s.subnets[i][0].answer.value, w.source[ids[i]].hostRoutes)
               else s.dhcp == []
  {
    var ids := Missing(net.subnets, w.subnets);
    ListedExactly(s.subnets, ids, |ids|, w.source, net);
  }

  lemma {:induction false} WholeMore(segments: seq<Segment>, s: Segment)
    ensures Whole([]) == [] && Whole(segments + [s]) == Whole(segments) + All(s)
  {
    assert (segments + [s])[..|segments|] == segments;
  }

  lemma {:induction false} Nothing(net: Network, source: map<Id, Subnet>)
    ensures All(Segment([], [], [], [])) == [] && Safe(Segment([], [], [], []), net)
    ensures SubnetsDone([], [], source, net) && SoFar([], [], source, net, map[], [])
    ensures Flatten<Event<Call, Id>>([]) == []
  {
  }

  // ------------------------------------------------------------- replay

  class Migration {
    const ignoreErrors: bool
    /** How the destination answers each call of the run, by its place. */
    const reply: nat -> Answer<Id>
    /** What the destination has already. */
    const existingNetworks: set<Id>
    const existingSubnets: set<Id>
    const existingPorts: set<Id>
    /** The source's subnets and ports. */
    const source: map<Id, Subnet>
    const ports: seq<Port>
    var trace: Trace
    var errors: nat

    constructor (ignoreErrors: bool, networks: set<Id>, subnets: set<Id>, existingPorts: set<Id>,
                 source: map<Id, Subnet>, ports: seq<Port>, reply: nat -> Answer<Id>)
      ensures this.ignoreErrors == ignoreErrors && existingNetworks == networks && existingSubnets == subnets
      ensures this.existingPorts == existingPorts && this.source == source && this.ports == ports
      ensures trace == [] && this.reply == reply && errors == 0 && Honest()
    {
      this.ignoreErrors, existingNetworks, existingSubnets, this.existingPorts := ignoreErrors, networks, subnets, existingPorts;
      this.source, this.ports, trace, this.reply, errors := source, ports, [], reply, 0;
    }

    ghost function World(): Setting {
      Setting(existingNetworks, existingSubnets, existingPorts, source, ports, ignoreErrors)
    }

    /** Each answer in the trace is the one that was given. */
    ghost predicate Honest()
      reads this`trace
    {
      forall i :: 0 <= i < |trace| ==> trace[i].answer == reply(i)
    }

    /** One request. */
    method Send(c: Call) returns (e: Event<Call, Id>)
      requires Honest()
      modifies `trace
      ensures Honest()
      ensures e.call == c && trace == old(trace) + [e]
    {
      e := Event(c, reply(|trace|));
      trace := trace + [e];
    }

    /** An error is counted, or ends the program. */
    method AddError() returns (goOn: bool)
      modifies `errors
      ensures goOn == ignoreErrors && errors == old(errors) + if ignoreErrors then 1 else 0
    {
      if ignoreErrors { errors := errors + 1; }
      goOn := ignoreErrors;
    }

    /** Creates an object and adds its tags one by one, up to the first call that
        is refused. */
    method Create(c: Call, resource: Resource, id: Id, tags: seq<string>)
      returns (failure: Option<Answer<Id>>, created: Id, ghost events: Trace)
      requires Honest()
      modifies `trace
      ensures Honest()
      ensures trace == old(trace) + events
      ensures events != [] && forall e :: e in events ==> e.call == c || (e.call.TagAdd? && e.call.resource == resource)
      ensures failure.None? ==> Done(events, [c] + TagCalls(resource, id, tags)) && events[0].answer == Created(created)
      ensures failure.Some? ==>
                && Refused(events, [c] + TagCalls(resource, id, tags))
                && failure.value == events[|events| - 1].answer && !failure.value.Created?
      ensures created == if events[0].answer.Created? then events[0].answer.value else ""
      ensures events[0].call == c && |events| <= 1 + |tags|
      ensures forall k :: 0 <= k < |tags| && k + 1 < |events| ==> events[k + 1].call == TagAdd(resource, id, tags[k])
      ensures forall k :: 0 <= k < |events| - 1 ==> events[k].answer.Created?
      ensures failure.None? <==> |events| == 1 + |tags| && events[|events| - 1].answer.Created?
    {
      hide Done, Refused, Honest, TagCalls;
      ghost var calls := [c] + TagCalls(resource, id, tags);
      MakingCalls(c, resource, id, tags);
      NothingTried<Call, Id>(calls);
      var e := Send(c);
      TryNext([], calls, 0, e);
      assert [] + [e] == [e];
      events, created := [e], "";
      if !e.answer.Created? {
        MakingTried(events, c, resource, id, tags);
        return Some(e.answer), created, events;
      }
      created := e.answer.value;
      for i := 0 to |tags|
        invariant Honest() && trace == old(trace) + events && events != [] && events[0] == e && Done(events, calls[..i + 1])
      {
        var t := Send(TagAdd(resource, id, tags[i]));
        TryNext(events, calls, i + 1, t);
        events := events + [t];
        if !t.answer.Created? {
          MakingTried(events, c, resource, id, tags);
          return Some(t.answer), created, events;
        }
      }
      MakingTried(events, c, resource, id, tags);
      failure := None;
    }

    /** One subnet: created without DHCP, and without its host routes if DHCP
        is to follow. A refusal is survived if it is a bad request and errors are
        ignored. */
    method CreateSubnet(net: Network, id: Id, s: Subnet, withhold: bool)
      returns (r: Option<Id>, goOn: bool, ghost events: Trace)
      requires Honest()
      modifies `trace, `errors
      ensures Honest()
      ensures trace == old(trace) + events && forall e :: e in events ==> IsSubnetCall(e.call)
      ensures var calls := [SubnetCreate(id, net.id, false, if withhold then [] else s.hostRoutes)] + TagCalls(Subnets, id, s.tags);
              if r.Some? then Done(events, calls) && events[0].answer.value == r.value else Refused(events, calls)
      ensures Ended(events, goOn, Survived(ignoreErrors))
      ensures events != [] && events[0].call == SubnetCreate(id, net.id, false, if withhold then [] else s.hostRoutes)
      ensures forall k :: 0 <= k < |s.tags| && k + 1 < |events| ==> events[k + 1].call == TagAdd(Subnets, id, s.tags[k])
      ensures r.Some? <==> |events| == 1 + |s.tags| && events[|events| - 1].answer.Created?
      ensures goOn <==> r.Some? || (ignoreErrors && events[|events| - 1].answer == BadRequest)
      ensures errors == old(errors) + Count(events, Noted(ignoreErrors))
    {
      var failure, created;
      failure, created, events :=
        Create(SubnetCreate(id, net.id, false, if withhold then [] else s.hostRoutes), Subnets, id, s.tags);
      ghost var calls := [SubnetCreate(id, net.id, false, if withhold then [] else s.hostRoutes)] + TagCalls(Subnets, id, s.tags);
      TriedEnds(events, calls, Survived(ignoreErrors));
      CountTried(events, calls, Noted(ignoreErrors));
      NotBoth(events, calls);
      if failure.None? { return Some(created), true, events; }
      r, goOn := None, false;
      if failure.value == BadRequest { goOn := AddError(); }
    }

    /** One round of the loop over the subnets: `id` is missing. */
    method NextMissing(net: Network, id: Id, countDhcp: nat, known: map<Id, Id>, listed: seq<(Id, seq<Route>)>,
                       ghost segments: seq<Trace>, ghost ids: seq<Id>)
      returns (goOn: bool, count: nat, subnetsMap: map<Id, Id>, dhcp: seq<(Id, seq<Route>)>, ghost more: Trace)
      requires Honest() && id in source && forall s :: s in ids ==> s in source
      requires countDhcp == DhcpCount(ids, source) && SoFar(segments, ids, source, net, known, listed)
      modifies this
      ensures Honest() && trace == old(trace) + more && Ended(more, goOn, Survived(ignoreErrors))
      ensures errors == old(errors) + Count(more, Noted(ignoreErrors))
      ensures count == DhcpCount(ids + [id], source) && SoFar(segments + [more], ids + [id], source, net, subnetsMap, dhcp)
    {
      hide SoFar, Flatten, IsSubnetCall, TagCalls, Done, Refused, Survives, Ends, Survived, Noted, DhcpCount, Deferred, SubnetCalls, Honest;
      count, subnetsMap, dhcp := countDhcp, known, listed;
      var subnet := source[id];
      if subnet.dhcp { count := count + 1; }
      var enable := subnet.dhcp && count == 1 && !net.external;
      NextSubnet(ids, id, source, net, enable);
      var created;
      created, goOn, more := CreateSubnet(net, id, subnet, enable);
      SubnetStep(segments, more, ids, id, source, net, subnetsMap, dhcp, created);
      if created.Some? {
        subnetsMap := subnetsMap[id := created.value];
        if enable { dhcp := dhcp + [(created.value, subnet.hostRoutes)]; }
      }
    }

    /** The subnets of a new network; returns the new ids and what DHCP is to
        be switched on for. */
    method CreateSubnets(net: Network)
      returns (goOn: bool, subnetsMap: map<Id, Id>, dhcp: seq<(Id, seq<Route>)>, ghost segments: seq<Trace>)
      requires forall x :: x in net.subnets ==> x in source
      requires Honest()
      modifies this
      ensures Honest()
      ensures trace == old(trace) + Flatten(segments) && forall e :: e in Flatten(segments) ==> IsSubnetCall(e.call)
      ensures SubnetsTried(segments, Missing(net.subnets, existingSubnets), source, net)
      ensures Ended(Flatten(segments), goOn, Survived(ignoreErrors))
      ensures errors == old(errors) + Count(Flatten(segments), Noted(ignoreErrors))
      ensures goOn ==> SoFar(segments, Missing(net.subnets, existingSubnets), source, net, subnetsMap, dhcp)
    {
      hide SoFar, SubnetsTried, Flatten, IsSubnetCall, Survives, Ends, Ended, Survived, Noted, Missing, DhcpCount, Honest;
      NoneEnds(Survived(ignoreErrors));
      MissingStep(net.subnets, 0, existingSubnets);
      NoneCounted(source);
      goOn, subnetsMap, dhcp, segments := true, map[], [], [];
      var countDhcp := 0;
      NoSubnets(net, source);
      ghost var ids := [];
      for i := 0 to |net.subnets|
        invariant ids == Missing(net.subnets[..i], existingSubnets) && countDhcp == DhcpCount(ids, source)
        invariant errors == old(errors) + Count(Flatten(segments), Noted(ignoreErrors))
        invariant Honest() && trace == old(trace) + Flatten(segments)
        invariant SoFar(segments, ids, source, net, subnetsMap, dhcp) && Ended(Flatten(segments), true, Survived(ignoreErrors)) && goOn
      {
        var id := net.subnets[i];
        MissingStep(net.subnets, i, existingSubnets);
        if id !in existingSubnets {
          ghost var more;
          goOn, countDhcp, subnetsMap, dhcp, more := NextMissing(net, id, countDhcp, subnetsMap, dhcp, segments, ids);
          CountRound(segments, more, Noted(ignoreErrors));
          RoundMore(old(trace), segments, more, goOn, Survived(ignoreErrors));
          segments, ids := segments + [more], ids + [id];
          if !goOn {
            SubnetsToCome(segments, net.subnets, i + 1, existingSubnets, source, net, subnetsMap, dhcp);
            return;
          }
        }
      }
      SubnetsToCome(segments, net.subnets, |net.subnets|, existingSubnets, source, net, subnetsMap, dhcp);
    }

    /** What one port leads to. A refusal is an error, not more. */
    method MigratePort(p: Port, net: Network, subnetsMap: map<Id, Id>) returns (goOn: bool, ghost events: Trace)
      requires Honest()
      modifies this
      ensures Honest()
      ensures trace == old(trace) + events && forall e :: e in events ==> IsPortCall(e.call)
      ensures PortDone(events, p, net.id, existingPorts, subnetsMap)
      ensures Ended(events, goOn, Survived(ignoreErrors))
      ensures p.network != net.id || p.internal || p.id in existingPorts ==> events == []
      ensures p.network == net.id && !p.internal && p.id !in existingPorts ==>
                match p.owner
                case RouterGateway => |events| == 1 && events[0].call == RouterUplink(p.device, net.id)
                case LbV => events == []
                case Dhcp => events == []
                case FloatingIp => events == []
                case _ => PortMade(events, p, net.id, subnetsMap)
      ensures goOn <==> ignoreErrors || events == [] || events[|events| - 1].answer.Created?
      ensures errors == old(errors) + Count(events, Noted(ignoreErrors))
    {
      hide Done, Refused, TagCalls, Honest, Ends, Survived, Noted, PortMade;
      CountNone<Event<Call, Id>>([], Noted(ignoreErrors));
      NotBothWays([], Survived(ignoreErrors));
      goOn, events := true, [];
      if p.network != net.id { return; }
      if p.internal || p.id in existingPorts { return; }
      if p.owner == RouterGateway {
        var e := Send(RouterUplink(p.device, net.id));
        Once(e);
        events := [e];
        OtherRefusal(events, [e.call], ignoreErrors);
        OtherNoted(events, [e.call], ignoreErrors);
        if !e.answer.Created? { goOn := AddError(); }
        return;
      }
      if p.owner == LbV || p.owner == Dhcp || p.owner == FloatingIp { return; }
      var failed;
      failed, events := CreatePort(p, net, subnetsMap);
      ghost var calls := PortCalls(p, subnetsMap, if events[0].answer.Created? then events[0].answer.value else "");
      OtherRefusal(events, calls, ignoreErrors);
      OtherNoted(events, calls, ignoreErrors);
      NotBoth(events, calls);
      PortTried(events, p, subnetsMap);
      if failed { goOn := AddError(); }
    }

    /** The port itself, with its tags, and its attachment to a router. */
    method CreatePort(p: Port, net: Network, subnetsMap: map<Id, Id>) returns (failed: bool, ghost events: Trace)
      requires Honest() && p.network == net.id
      modifies `trace
      ensures Honest()
      ensures trace == old(trace) + events && events != [] && forall e :: e in events ==> IsPortCall(e.call)
      ensures var calls := PortCalls(p, subnetsMap, if events[0].answer.Created? then events[0].answer.value else "");
              if failed then Refused(events, calls) else Done(events, calls)
    {
      hide Done, Refused, TagCalls, Honest;
      var failure, created;
      ghost var calls := [PortCreate(p.id, net.id)] + TagCalls(Ports, p.id, p.tags);
      failure, created, events := Create(PortCreate(p.id, net.id), Ports, p.id, p.tags);
      failed := failure.Some?;
      if !failed && p.owner == RouterInterface && p.subnet.Some? && p.subnet.value in subnetsMap {
        var added := Send(InterfaceAdd(p.device, created));
        Once(added);
        TriedThen(events, calls, [added], [added.call]);
        events := events + [added];
        failed := !added.answer.Created?;
      } else if failed {
        RefusedEarly(events, calls, if IsInterface(p, subnetsMap) then [InterfaceAdd(p.device, created)] else []);
      } else {
        assert calls + [] == calls;
      }
    }

    method MigratePorts(net: Network, subnetsMap: map<Id, Id>) returns (goOn: bool, ghost segments: seq<Trace>)
      requires Honest()
      modifies this
      ensures Honest()
      ensures trace == old(trace) + Flatten(segments) && forall e :: e in Flatten(segments) ==> IsPortCall(e.call)
      ensures PortsTried(segments, ports, net.id, existingPorts, subnetsMap)
      ensures Ended(Flatten(segments), goOn, Survived(ignoreErrors))
      ensures errors == old(errors) + Count(Flatten(segments), Noted(ignoreErrors))
      ensures goOn ==> |segments| == |ports|
    {
      hide PortDone, PortMade, IsPortCall, Flatten, Ended, Survived, Noted, Honest;
      goOn, segments := true, [];
      NoneEnds(Survived(ignoreErrors));
      for i := 0 to |ports|
        invariant Honest() && trace == old(trace) + Flatten(segments) && forall e :: e in Flatten(segments) ==> IsPortCall(e.call)
        invariant PortsTried(segments, ports, net.id, existingPorts, subnetsMap) && |segments| == i
        invariant errors == old(errors) + Count(Flatten(segments), Noted(ignoreErrors))
        invariant Ended(Flatten(segments), true, Survived(ignoreErrors)) && goOn
      {
        ghost var more;
        goOn, more := MigratePort(ports[i], net, subnetsMap);
        FlattenMore(segments, more);
        CountRound(segments, more, Noted(ignoreErrors));
        RoundMore(old(trace), segments, more, goOn, Survived(ignoreErrors));
        segments := segments + [more];
        if !goOn { return; }
      }
    }

    method EnableDhcp(dhcp: seq<(Id, seq<Route>)>) returns (goOn: bool, ghost events: Trace)
      requires |dhcp| <= 1
      requires Honest()
      modifies this
      ensures Honest()
      ensures trace == old(trace) + events && DhcpDone(events, dhcp)
      ensures Ended(events, goOn, Survived(ignoreErrors))
      ensures |events| == |dhcp| && forall i :: 0 <= i < |dhcp| ==> events[i].call == SubnetEnableDhcp(dhcp[i].0, dhcp[i].1)
      ensures goOn <==> ignoreErrors || events == [] || events[|events| - 1].answer.Created?
      ensures errors == old(errors) + Count(events, Noted(ignoreErrors))
    {
      goOn, events := true, [];
      for i := 0 to |dhcp|
        invariant errors == old(errors) + Count(events, Noted(ignoreErrors))
        invariant goOn <==> ignoreErrors || events == [] || events[|events| - 1].answer.Created?
        invariant goOn || i == |dhcp|
        invariant Honest() && trace == old(trace) + events && DhcpDone(events, dhcp[..i]) && Ended(events, goOn, Survived(ignoreErrors))
      {
        var e := Send(SubnetEnableDhcp(dhcp[i].0, dhcp[i].1));
        events := events + [e];
        if !e.answer.Created? { goOn := AddError(); }
      }
      assert dhcp[..|dhcp|] == dhcp;
    }

    method MigrateNetwork(net: Network) returns (goOn: bool, ghost s: Segment)
      requires forall x :: x in net.subnets ==> x in source
      requires Honest()
      modifies this
      ensures Honest()
      ensures trace == old(trace) + All(s) && Safe(s, net)
      ensures if goOn then Finished(s, net, World()) else CutShort(s, net, World())
      ensures net.id in existingNetworks ==> goOn && trace == old(trace)
      ensures net.id !in existingNetworks ==>
                && s.network != [] && |s.network| <= 1 + |net.tags| && s.network[0].call == NetworkCreate(net.id)
                && (forall k :: 0 <= k < |net.tags| && k + 1 < |s.network| ==> s.network[k + 1].call == TagAdd(Networks, net.id, net.tags[k]))
                && (!s.network[|s.network| - 1].answer.Created? ==> s == Segment(s.network, [], [], []) && goOn == ignoreErrors)
                && (s.network[|s.network| - 1].answer.Created? ==> |s.network| == 1 + |net.tags|)
      ensures Ended(All(s), goOn, Survived(ignoreErrors))
      ensures errors == old(errors) + Count(All(s), Noted(ignoreErrors))
    {
      hide ContentsDone, ContentsCut, Missing, Flatten, IsPortCall, Done, Refused, TagCalls, Survives, Ends, Survived, Noted, Count, Honest, All;
      CountNone<Event<Call, Id>>([], Noted(ignoreErrors));
      NotBothWays([], Survived(ignoreErrors));
      Nothing(net, source);
      s := Segment([], [], [], []);
      if net.id in existingNetworks { return true, s; }
      var failure, created;
      ghost var events;
      failure, created, events := Create(NetworkCreate(net.id), Networks, net.id, net.tags);
      NotBoth(events, NetworkCalls(net));
      OtherRefusal(events, NetworkCalls(net), ignoreErrors);
      OtherNoted(events, NetworkCalls(net), ignoreErrors);
      if failure.Some? {
        goOn := AddError();
        s := Segment(events, [], [], []);
        AllParts(old(trace), s);
        return;
      }
      ghost var subnets, portEvents, dhcp;
      goOn, subnets, portEvents, dhcp := MigrateContents(net);
      s := Segment(events, subnets, portEvents, dhcp);
      EndedThen(events, Flatten(subnets) + Flatten(portEvents) + dhcp, goOn, Survived(ignoreErrors));
      AllParts(old(trace), s);
      CountThen(events, Flatten(subnets) + Flatten(portEvents) + dhcp, Noted(ignoreErrors));
      ContentsOnly(s, net, World());
    }

    /** The subnets and ports of a network that was created, and its DHCP. */
    method MigrateContents(net: Network)
      returns (goOn: bool, ghost subnets: seq<Trace>, ghost portEvents: seq<Trace>, ghost enabled: Trace)
      requires forall x :: x in net.subnets ==> x in source
      requires Honest()
      modifies this
      ensures Honest()
      ensures trace == old(trace) + (Flatten(subnets) + Flatten(portEvents) + enabled)
      ensures Safe(Segment([], subnets, portEvents, enabled), net)
      ensures var s := Segment([], subnets, portEvents, enabled);
              if goOn then ContentsDone(s, net, World()) else ContentsCut(s, net, World())
      ensures Ended(Flatten(subnets) + Flatten(portEvents) + enabled, goOn, Survived(ignoreErrors))
      ensures errors == old(errors) + Count(Flatten(subnets) + Flatten(portEvents) + enabled, Noted(ignoreErrors))
    {
      hide SubnetsTried, PortsTried, Listed, NewIds, Missing, Flatten, IsSubnetCall, IsPortCall, Survives, Ends, Survived, Noted, Count, DhcpDone, Honest;
      ghost var ok := Survived(ignoreErrors);
      Nothing(net, source);
      subnets, portEvents, enabled := [], [], [];
      var subnetsMap, dhcp;
      goOn, subnetsMap, dhcp, subnets := CreateSubnets(net);
      NotBothWays(Flatten(subnets), ok);
      if !goOn {
        Parts(old(trace), Flatten(subnets), [], []);
        return;
      }
      ghost var ids := Missing(net.subnets, existingSubnets);
      ListedExactly(subnets, ids, |ids|, source, net);
      goOn, portEvents := MigratePorts(net, subnetsMap);
      CountThen(Flatten(subnets), Flatten(portEvents), Noted(ignoreErrors));
      NotBothWays(Flatten(portEvents), ok);
      EndedThen(Flatten(subnets), Flatten(portEvents), goOn, ok);
      if !goOn {
        Parts(old(trace), Flatten(subnets), Flatten(portEvents), []);
        return;
      }
      goOn, enabled := EnableDhcp(dhcp);
      EndedThen(Flatten(subnets) + Flatten(portEvents), enabled, goOn, ok);
      CountThen(Flatten(subnets) + Flatten(portEvents), enabled, Noted(ignoreErrors));
      Parts(old(trace), Flatten(subnets), Flatten(portEvents), enabled);
    }

    /** The two lists the source is split into. */
    method Reorder(nets: seq<Network>) returns (ordered: seq<Network>)
      ensures ordered == Ordered(nets)
    {
      var external, internal := [], [];
      for i := 0 to |nets|
        invariant external == Select(nets[..i], true) && internal == Select(nets[..i], false)
      {
        assert nets[..i + 1][..i] == nets[..i];
        if nets[i].external {
          external := external + [nets[i]];
        } else {
          internal := internal + [nets[i]];
        }
      }
      assert nets[..|nets|] == nets;
      ordered := external + internal;
    }

    /** The whole trace, network by network; only the last segment of a run that
        was cut short may be unfinished. */
    method MigrateNetworks(nets: seq<Network>) returns (finished: bool, ghost segments: seq<Segment>)
      requires forall n, x :: n in nets && x in n.subnets ==> x in source
      requires Honest()
      modifies this
      ensures Honest()
      ensures trace == old(trace) + Whole(segments) && |segments| <= |nets|
      ensures forall i :: 0 <= i < |segments| ==> Safe(segments[i], Ordered(nets)[i])
      ensures forall i :: 0 <= i < |segments| && (finished || i < |segments| - 1) ==> Finished(segments[i], Ordered(nets)[i], World())
      ensures if finished then |segments| == |nets|
              else segments != [] && CutShort(segments[|segments| - 1], Ordered(nets)[|segments| - 1], World())
      ensures Ended(Whole(segments), finished, Survived(ignoreErrors))
      ensures errors == old(errors) + Count(Whole(segments), Noted(ignoreErrors))
    {
      hide Safe, Finished, CutShort, Ordered, Whole, All, Survived, Survives, Noted, Honest;
      CountNone<Event<Call, Id>>([], Noted(ignoreErrors));
      NotBothWays([], Survived(ignoreErrors));
      WholeMore([], Segment([], [], [], []));
      var ordered := Reorder(nets);
      segments := [];
      for i := 0 to |ordered|
        invariant Honest() && |segments| == i && trace == old(trace) + Whole(segments)
        invariant forall j :: 0 <= j < i ==> Safe(segments[j], ordered[j])
        invariant forall j :: 0 <= j < i ==> Finished(segments[j], ordered[j], World())
        invariant Survives(Whole(segments), Survived(ignoreErrors))
        invariant errors == old(errors) + Count(Whole(segments), Noted(ignoreErrors))
      {
        ghost var s;
        finished, s := MigrateNetwork(ordered[i]);
        EndedThen(Whole(segments), All(s), finished, Survived(ignoreErrors));
        CountThen(Whole(segments), All(s), Noted(ignoreErrors));
        WholeMore(segments, s);
        segments := segments + [s];
        if !finished { return; }
      }
      finished := true;
    }
  }

  lemma {:induction false} NoneCounted(source: map<Id, Subnet>)
    ensures DhcpCount([], source) == 0
  {
  }

  lemma {:induction false} NoSubnets(net: Network, source: map<Id, Subnet>)
    ensures SoFar([], [], source, net, map[], [])
  {
  }

  lemma {:induction false} AllParts(before: Trace, s: Segment)
    ensures All(s) == s.network + (Flatten(s.subnets) + Flatten(s.ports) + s.dhcp)
    ensures (before + s.network) + (Flatten(s.subnets) + Flatten(s.ports) + s.dhcp) == before + All(s)
    ensures s == Segment(s.network, [], [], []) ==> All(s) == s.network
  {
  }

  lemma {:induction false} Parts(before: Trace, a: Trace, b: Trace, c: Trace)
    ensures ((before + a) + b) + c == before + (a + b + c)
    ensures c == [] ==> a + b + c == a + b && (b == [] ==> a + b == a)
  {
  }

  lemma {:induction false} MakingCalls(c: Call, resource: Resource, id: Id, tags: seq<string>)
    ensures var calls := [c] + TagCalls(resource, id, tags);
            && |calls| == 1 + |tags| && calls[0] == c
            && (forall x :: x in calls ==> x == c || (x.TagAdd? && x.resource == resource))
            && forall k :: 0 <= k < |tags| ==> calls[k + 1] == TagAdd(resource, id, tags[k])
  {
  }

  /** The events that make an object: its creation and its tags, up to a refusal. */
  lemma {:induction false} MakingTried(events: Trace, c: Call, resource: Resource, id: Id, tags: seq<string>)
    requires events != [] && Tried(events, [c] + TagCalls(resource, id, tags))
    ensures events[0].call == c && |events| <= 1 + |tags|
    ensures forall e :: e in events ==> e.call == c || (e.call.TagAdd? && e.call.resource == resource)
    ensures forall k :: 0 <= k < |tags| && k + 1 < |events| ==> events[k + 1].call == TagAdd(resource, id, tags[k])
    ensures forall k :: 0 <= k < |events| - 1 ==> events[k].answer.Created?
    ensures Done(events, [c] + TagCalls(resource, id, tags)) <==> |events| == 1 + |tags| && events[|events| - 1].answer.Created?
    ensures Refused(events, [c] + TagCalls(resource, id, tags)) ==> !events[|events| - 1].answer.Created?
  {
    hide Done, Refused, TagCalls;
    MakingCalls(c, resource, id, tags);
    TriedCalls(events, [c] + TagCalls(resource, id, tags));
  }

  lemma {:induction false} NotBoth(events: Trace, calls: seq<Call>)
    ensures !(Done(events, calls) && Refused(events, calls))
  {
  }

  /** The predicates about contents do not look at the network's own events. */
  lemma {:induction false} ContentsOnly(s: Segment, net: Network, w: Setting)
    requires Known(net, w)
    ensures var t := s.(network := []); ContentsDone(t, net, w) == ContentsDone(s, net, w) && ContentsCut(t, net, w) == ContentsCut(s, net, w)
  {
  }
}
