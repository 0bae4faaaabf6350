/**
 * Migration of Octavia load balancers: one remote call per resource, and a
 * cascade delete of what was created when a call is refused.
 */
module OctaviaReplay {
  import opened Options

  type Id = string

  datatype Member = Member(id: Id, subnet: Option<Id>)
  datatype Pool = Pool(listener: Option<Id>, members: seq<Member>, healthMonitor: Option<Id>)
  datatype LoadBalancer = LoadBalancer(id: Id, vipSubnet: Id, listeners: seq<Id>, pools: seq<Id>)

  /** The source's listeners, pools and policies, by id. */
  datatype Source = Source(policies: map<Id, seq<Id>>, pools: map<Id, Pool>, rules: map<Id, seq<Id>>)

  datatype PoolEntry = PoolEntry(id: Id, healthMonitor: Option<Id>)

  datatype Call =
    | LoadBalancerCreate(loadBalancer: Id)
    | ListenerCreate(listener: Id)
    | PoolCreate(pool: Id, poolListener: Option<Id>, known: bool)
    | MemberCreate(member: Id, memberPool: Id, subnet: Id)
    | HealthMonitorCreate(healthMonitor: Id, monitoredPool: Id)
    | L7PolicyCreate(policy: Id, rules: seq<Id>)
    | DeleteCascade(deleted: Id, listeners: seq<Id>, pools: seq<PoolEntry>)

  /** A call and whether it was answered with success. */
  datatype Event = Event(call: Call, ok: bool)

  // ------------------------------------------------------- what is meant

  ghost predicate Complete(lb: LoadBalancer, src: Source) {
    && (forall l :: l in lb.listeners ==> l in src.policies && forall q :: q in src.policies[l] ==> q in src.rules)
    && (forall p :: p in lb.pools ==> p in src.pools)
  }

  function ListenerCalls(ids: seq<Id>): seq<Call> {
    if ids == [] then [] else [ListenerCreate(ids[0])] + ListenerCalls(ids[1..])
  }

  function MemberCalls(members: seq<Member>, pool: Id, vipSubnet: Id): seq<Call> {
    if members == [] then [] else
    var m := members[0];
    [MemberCreate(m.id, pool, if m.subnet.Some? then m.subnet.value else vipSubnet)] + MemberCalls(members[1..], pool, vipSubnet)
  }

  function MonitorCalls(p: Pool, id: Id): seq<Call> {
    if p.healthMonitor.Some? then [HealthMonitorCreate(p.healthMonitor.value, id)] else []
  }

  function PoolCalls(ids: seq<Id>, src: Source, lb: LoadBalancer): seq<Call>
    requires forall p :: p in ids ==> p in src.pools
  {
    if ids == [] then [] else
    var p := src.pools[ids[0]];
    [PoolCreate(ids[0], p.listener, p.listener.Some? && p.listener.value in lb.listeners)]
    + (MemberCalls(p.members, ids[0], lb.vipSubnet) + (MonitorCalls(p, ids[0]) + PoolCalls(ids[1..], src, lb)))
  }

  function PolicyCalls(ids: seq<Id>, src: Source): seq<Call>
    requires forall q :: q in ids ==> q in src.rules
  {
    if ids == [] then [] else [L7PolicyCreate(ids[0], src.rules[ids[0]])] + PolicyCalls(ids[1..], src)
  }

  function AllPolicyCalls(listeners: seq<Id>, src: Source): seq<Call>
    requires forall l :: l in listeners ==> l in src.policies && forall q :: q in src.policies[l] ==> q in src.rules
  {
    if listeners == [] then [] else PolicyCalls(src.policies[listeners[0]], src) + AllPolicyCalls(listeners[1..], src)
  }

  /** The keys of a dictionary filled in this order. */
  function Keys(ids: seq<Id>): (r: seq<Id>)
    ensures forall i :: i in r <==> i in ids
  {
    if ids == [] then [] else
    var rest, last := ids[..|ids| - 1], ids[|ids| - 1];
    assert ids == rest + [last];
    if last in rest then Keys(rest) else Keys(rest) + [last]
  }

  /** All calls of a load balancer, in order. */
  function Plan(lb: LoadBalancer, src: Source): seq<Call>
    requires Complete(lb, src)
  {
    [LoadBalancerCreate(lb.id)]
    + (ListenerCalls(lb.listeners) + (PoolCalls(lb.pools, src, lb) + AllPolicyCalls(Keys(lb.listeners), src)))
  }

  // ------------------------------------------------ what that amounts to

  function Joined(blocks: seq<seq<Call>>): seq<Call> {
    if blocks == [] then [] else blocks[0] + Joined(blocks[1..])
  }

  /** The calls of a load balancer, by what they are for. */
  datatype Parts = Parts(listeners: seq<Call>, pools: seq<seq<Call>>, policies: seq<seq<Call>>)

  /** A pool is created with its listener, if it has one, then each of its members,
      on the member's own subnet or else on that of the VIP, then its health
      monitor, if it has one. */
  ghost predicate IsPoolBlock(calls: seq<Call>, id: Id, p: Pool, lb: LoadBalancer) {
    && |calls| == 1 + |p.members| + (if p.healthMonitor.Some? then 1 else 0)
    && calls[0] == PoolCreate(id, p.listener, p.listener.Some? && p.listener.value in lb.listeners)
    && (forall j :: 0 <= j < |p.members| ==>
          calls[j + 1] == MemberCreate(p.members[j].id, id, match p.members[j].subnet case Some(own) => own case None => lb.vipSubnet))
    && (p.healthMonitor.Some? ==> calls[1 + |p.members|] == HealthMonitorCreate(p.healthMonitor.value, id))
  }

  /** One call per policy of the listener, with the policy's rules. */
  ghost predicate IsPolicyBlock(calls: seq<Call>, l: Id, src: Source)
    requires l in src.policies && forall q :: q in src.policies[l] ==> q in src.rules
  {
    && |calls| == |src.policies[l]|
    && forall j :: 0 <= j < |calls| ==> calls[j] == L7PolicyCreate(src.policies[l][j], src.rules[src.policies[l][j]])
  }

  ghost predicate Fits(parts: Parts, lb: LoadBalancer, src: Source)
    requires Complete(lb, src)
  {
    var keys := Keys(lb.listeners);
    && |parts.listeners| == |lb.listeners| && (forall i :: 0 <= i < |lb.listeners| ==> parts.listeners[i] == ListenerCreate(lb.listeners[i]))
    && |parts.pools| == |lb.pools|
    && (forall i :: 0 <= i < |lb.pools| ==> IsPoolBlock(parts.pools[i], lb.pools[i], src.pools[lb.pools[i]], lb))
    && |parts.policies| == |keys| && (forall i :: 0 <= i < |keys| ==> IsPolicyBlock(parts.policies[i], keys[i], src))
  }

  /** Each key once; and where the listeners are distinct they are the keys. */
  lemma {:induction false} KeysAre(ids: seq<Id>)
    ensures forall i, j :: 0 <= i < j < |Keys(ids)| ==> Keys(ids)[i] != Keys(ids)[j]
    ensures (forall i, j :: 0 <= i < j < |ids| ==> ids[i] != ids[j]) ==> Keys(ids) == ids
  {
    if ids != [] {
      var rest, last := ids[..|ids| - 1], ids[|ids| - 1];
      KeysAre(rest);
      assert ids == rest + [last];
    }
  }

  lemma {:induction false} ListenerCallsAre(ids: seq<Id>)
    ensures |ListenerCalls(ids)| == |ids| && forall i :: 0 <= i < |ids| ==> ListenerCalls(ids)[i] == ListenerCreate(ids[i])
  {
    if ids != [] { ListenerCallsAre(ids[1..]); }
  }

  lemma {:induction false} MemberCallsAre(members: seq<Member>, pool: Id, vipSubnet: Id)
    ensures |MemberCalls(members, pool, vipSubnet)| == |members|
    ensures forall i :: 0 <= i < |members| ==>
              MemberCalls(members, pool, vipSubnet)[i] ==
              MemberCreate(members[i].id, pool, match members[i].subnet case Some(own) => own case None => vipSubnet)
  {
    if members != [] { MemberCallsAre(members[1..], pool, vipSubnet); }
  }

  lemma {:induction false} PolicyCallsAre(ids: seq<Id>, src: Source)
    requires forall q :: q in ids ==> q in src.rules
    ensures |PolicyCalls(ids, src)| == |ids|
    ensures forall i :: 0 <= i < |ids| ==> PolicyCalls(ids, src)[i] == L7PolicyCreate(ids[i], src.rules[ids[i]])
  {
    if ids != [] { PolicyCallsAre(ids[1..], src); }
  }

  lemma {:induction false} PoolCallsAre(ids: seq<Id>, src: Source, lb: LoadBalancer) returns (blocks: seq<seq<Call>>)
    requires forall p :: p in ids ==> p in src.pools
    ensures PoolCalls(ids, src, lb) == Joined(blocks) && |blocks| == |ids|
    ensures forall i :: 0 <= i < |ids| ==> IsPoolBlock(blocks[i], ids[i], src.pools[ids[i]], lb)
  {
    if ids == [] {
      blocks := [];
    } else {
      var rest := PoolCallsAre(ids[1..], src, lb);
      var first := FirstBlock(ids, src, lb);
      hide IsPoolBlock, MemberCalls, PoolCalls;
      blocks := [first] + rest;
    }
  }

  lemma {:induction false} FirstBlock(ids: seq<Id>, src: Source, lb: LoadBalancer) returns (block: seq<Call>)
    requires ids != [] && forall p :: p in ids ==> p in src.pools
    ensures PoolCalls(ids, src, lb) == block + PoolCalls(ids[1..], src, lb)
    ensures IsPoolBlock(block, ids[0], src.pools[ids[0]], lb)
  {
    var p := src.pools[ids[0]];
    var c := PoolCreate(ids[0], p.listener, p.listener.Some? && p.listener.value in lb.listeners);
    var members, monitor := MemberCalls(p.members, ids[0], lb.vipSubnet), MonitorCalls(p, ids[0]);
    block := [c] + members + monitor;
    BlockIs(c, members, monitor, ids[0], p, lb);
    hide IsPoolBlock, MemberCalls, MonitorCalls;
    Grouped([c], members, monitor, PoolCalls(ids[1..], src, lb));
  }

  lemma {:induction false} Grouped(a: seq<Call>, b: seq<Call>, c: seq<Call>, d: seq<Call>)
    ensures a + (b + (c + d)) == (a + b + c) + d
  {
  }

  lemma {:induction false} BlockIs(c: Call, members: seq<Call>, monitor: seq<Call>, id: Id, p: Pool, lb: LoadBalancer)
    requires c == PoolCreate(id, p.listener, p.listener.Some? && p.listener.value in lb.listeners)
    requires members == MemberCalls(p.members, id, lb.vipSubnet) && monitor == MonitorCalls(p, id)
    ensures IsPoolBlock([c] + members + monitor, id, p, lb)
  {
    MemberCallsAre(p.members, id, lb.vipSubnet);
    hide MemberCalls;
  }

  lemma {:induction false} AllPolicyCallsAre(listeners: seq<Id>, src: Source) returns (blocks: seq<seq<Call>>)
    requires forall l :: l in listeners ==> l in src.policies && forall q :: q in src.policies[l] ==> q in src.rules
    ensures AllPolicyCalls(listeners, src) == Joined(blocks) && |blocks| == |listeners|
    ensures forall i :: 0 <= i < |listeners| ==> IsPolicyBlock(blocks[i], listeners[i], src)
  {
    if listeners == [] {
      blocks := [];
    } else {
      var rest := AllPolicyCallsAre(listeners[1..], src);
      PolicyCallsAre(src.policies[listeners[0]], src);
      blocks := [PolicyCalls(src.policies[listeners[0]], src)] + rest;
    }
  }

  /** The plan, told without the functions it is made of. */
  lemma {:induction false} PlanIs(lb: LoadBalancer, src: Source) returns (parts: Parts)
    requires Complete(lb, src)
    ensures Fits(parts, lb, src)
    ensures Plan(lb, src) == [LoadBalancerCreate(lb.id)] + (parts.listeners + (Joined(parts.pools) + Joined(parts.policies)))
  {
    ListenerCallsAre(lb.listeners);
    var pools := PoolCallsAre(lb.pools, src, lb);
    var policies := AllPolicyCallsAre(Keys(lb.listeners), src);
    hide IsPoolBlock, IsPolicyBlock, Joined, Keys, PoolCalls, ListenerCalls, AllPolicyCalls;
    parts := Parts(ListenerCalls(lb.listeners), pools, policies);
  }

  function ListenersOf(calls: seq<Call>): seq<Id> {
    if calls == [] then [] else
    var rest, last := ListenersOf(calls[..|calls| - 1]), calls[|calls| - 1];
    if last.ListenerCreate? then rest + [last.listener] else rest
  }

  /** The pools created, each with its health monitor once that was created. */
  function PoolsOf(calls: seq<Call>): seq<PoolEntry> {
    if calls == [] then [] else
    var rest, last := PoolsOf(calls[..|calls| - 1]), calls[|calls| - 1];
    match last
    case PoolCreate(p, _, _) => rest + [PoolEntry(p, None)]
    case HealthMonitorCreate(h, _) =>
      if rest == [] then rest else rest[|rest| - 1 := rest[|rest| - 1].(healthMonitor := Some(h))]
    case _ => rest
  }

  function Succeeded(calls: seq<Call>): seq<Event> {
    seq(|calls|, i requires 0 <= i < |calls| => Event(calls[i], true))
  }

  /** The events when call `k` of the plan is the first to be refused. */
  function Refused(plan: seq<Call>, k: nat, lb: Id, ignoreErrors: bool): seq<Event>
    requires k < |plan|
  {
    Succeeded(plan[..k]) + [Event(plan[k], false)]
    + if ignoreErrors then [Event(DeleteCascade(lb, ListenersOf(plan[..k]), PoolsOf(plan[..k])), true)] else []
  }

  ghost predicate RolledBack(before: seq<Event>, trace: seq<Event>, plan: seq<Call>, lb: Id, ignoreErrors: bool) {
    exists k: nat :: k < |plan| && trace == before + Refused(plan, k, lb, ignoreErrors)
  }

  lemma {:induction false} ListsStep(done: seq<Call>, c: Call)
    ensures ListenersOf(done + [c]) == if c.ListenerCreate? then ListenersOf(done) + [c.listener] else ListenersOf(done)
    ensures PoolsOf(done + [c]) ==
            match c
            case PoolCreate(p, _, _) => PoolsOf(done) + [PoolEntry(p, None)]
            case HealthMonitorCreate(h, _) =>
              var rest := PoolsOf(done);
              if rest == [] then rest else rest[|rest| - 1 := rest[|rest| - 1].(healthMonitor := Some(h))]
            case _ => PoolsOf(done)
  {
    assert (done + [c])[..|done|] == done;
  }

  /** The listeners that a sequence of events created. */
  function CreatedListeners(events: seq<Event>): seq<Id> {
    if events == [] then [] else
    var first := events[0];
    (if first.ok && first.call.ListenerCreate? then [first.call.listener] else []) + CreatedListeners(events[1..])
  }

  /** The health monitor goes to the last pool of that id. */
  function Attach(entries: seq<PoolEntry>, pool: Id, monitor: Id): seq<PoolEntry> {
    if entries == [] then [] else
    var rest, last := entries[..|entries| - 1], entries[|entries| - 1];
    if last.id == pool then rest + [last.(healthMonitor := Some(monitor))] else Attach(rest, pool, monitor) + [last]
  }

  /** The pools that a sequence of events created, each with the health monitor
      created for it. */
  function CreatedPools(events: seq<Event>): seq<PoolEntry> {
    if events == [] then [] else
    var rest, last := CreatedPools(events[..|events| - 1]), events[|events| - 1];
    if last.ok && last.call.PoolCreate? then rest + [PoolEntry(last.call.pool, None)]
    else if last.ok && last.call.HealthMonitorCreate? then Attach(rest, last.call.monitoredPool, last.call.healthMonitor)
    else rest
  }

  ghost predicate PoolMade(events: seq<Event>, p: Id) {
    exists e :: e in events && e.ok && e.call.PoolCreate? && e.call.pool == p
  }

  /** The monitor is the only thing that changes, and only of such a pool. */
  lemma {:induction false} AttachIs(entries: seq<PoolEntry>, pool: Id, monitor: Id)
    ensures var r := Attach(entries, pool, monitor);
            && |r| == |entries|
            && forall i :: 0 <= i < |r| ==> r[i] == entries[i] || (entries[i].id == pool && r[i] == PoolEntry(pool, Some(monitor)))
  {
    if entries != [] { AttachIs(entries[..|entries| - 1], pool, monitor); }
  }

  lemma {:induction false} CreatedListenersAre(events: seq<Event>)
    ensures forall l :: l in CreatedListeners(events) <==> Event(ListenerCreate(l), true) in events
  {
    if events != [] {
      assert events == [events[0]] + events[1..];
      CreatedListenersAre(events[1..]);
    }
  }

  ghost predicate HasPool(entries: seq<PoolEntry>, p: Id) {
    exists i :: 0 <= i < |entries| && entries[i].id == p
  }

  ghost predicate IsEntry(x: PoolEntry, events: seq<Event>) {
    PoolMade(events, x.id) && (x.healthMonitor.Some? ==> Event(HealthMonitorCreate(x.healthMonitor.value, x.id), true) in events)
  }

  /** Exactly the pools whose creation succeeded are listed, and one with a
      monitor only if that was created for it. */
  lemma {:induction false} CreatedPoolsAre(events: seq<Event>)
    ensures forall p :: HasPool(CreatedPools(events), p) <==> PoolMade(events, p)
    ensures forall i :: 0 <= i < |CreatedPools(events)| ==> IsEntry(CreatedPools(events)[i], events)
  {
    if events != [] {
      var rest, last := events[..|events| - 1], events[|events| - 1];
      assert events == rest + [last];
      var was, now := CreatedPools(rest), CreatedPools(events);
      CreatedPoolsAre(rest);
      CreatedMore(rest, last);
      MoreMade(rest, last);
      if last.call.HealthMonitorCreate? { AttachIs(was, last.call.monitoredPool, last.call.healthMonitor); }
      hide CreatedPools, Attach, PoolMade, HasPool;
      forall i | 0 <= i < |now| ensures IsEntry(now[i], events) {
        if i < |was| {
          assert IsEntry(was[i], rest);
        }
      }
      SamePools(was, now);
    }
  }

  lemma {:induction false} SamePools(was: seq<PoolEntry>, now: seq<PoolEntry>)
    requires |was| <= |now| && forall i :: 0 <= i < |was| ==> now[i].id == was[i].id
    ensures |now| == |was| ==> forall p :: HasPool(now, p) <==> HasPool(was, p)
    ensures |now| == |was| + 1 ==> forall p :: HasPool(now, p) <==> HasPool(was, p) || p == now[|was|].id
  {
    forall p | HasPool(now, p) ensures HasPool(was, p) || exists i :: |was| <= i < |now| && now[i].id == p {
      var i :| 0 <= i < |now| && now[i].id == p;
      if i < |was| { assert was[i].id == p; }
    }
    forall p | HasPool(was, p) ensures HasPool(now, p) {
      var i :| 0 <= i < |was| && was[i].id == p;
      assert now[i].id == p;
    }
  }

  lemma {:induction false} MoreMade(events: seq<Event>, e: Event)
    ensures forall p :: PoolMade(events + [e], p) <==> PoolMade(events, p) || (e.ok && e.call.PoolCreate? && e.call.pool == p)
  {
    assert e in events + [e];
  }

  lemma {:induction false} CreatedMore(events: seq<Event>, e: Event)
    ensures CreatedListeners(events + [e]) ==
            CreatedListeners(events) + if e.ok && e.call.ListenerCreate? then [e.call.listener] else []
    ensures CreatedPools(events + [e]) ==
            if e.ok && e.call.PoolCreate? then CreatedPools(events) + [PoolEntry(e.call.pool, None)]
            else if e.ok && e.call.HealthMonitorCreate? then Attach(CreatedPools(events), e.call.monitoredPool, e.call.healthMonitor)
            else CreatedPools(events)
  {
    assert (events + [e])[..|events|] == events;
    if events == [] {
      assert events + [e] == [e];
    } else {
      assert (events + [e])[1..] == events[1..] + [e];
      CreatedMore(events[1..], e);
    }
  }

  /** Each health monitor is for the pool created last. */
  ghost predicate Tidy(calls: seq<Call>) {
    calls == [] ||
    var rest, last := calls[..|calls| - 1], calls[|calls| - 1];
    && Tidy(rest)
    && (last.HealthMonitorCreate? ==> PoolsOf(rest) != [] && PoolsOf(rest)[|PoolsOf(rest)| - 1].id == last.monitoredPool)
  }

  lemma {:induction false} TidyPrefix(calls: seq<Call>, k: nat)
    requires k <= |calls| && Tidy(calls)
    ensures Tidy(calls[..k])
  {
    if k == |calls| {
      assert calls[..k] == calls;
    } else {
      TidyPrefix(calls[..|calls| - 1], k);
      assert calls[..|calls| - 1][..k] == calls[..k];
    }
  }

  lemma {:induction false} TidyMore(calls: seq<Call>, c: Call)
    requires Tidy(calls)
    requires c.HealthMonitorCreate? ==> PoolsOf(calls) != [] && PoolsOf(calls)[|PoolsOf(calls)| - 1].id == c.monitoredPool
    ensures Tidy(calls + [c])
  {
    assert (calls + [c])[..|calls|] == calls;
  }

  ghost predicate Plain(calls: seq<Call>) {
    forall c :: c in calls ==> !c.PoolCreate? && !c.HealthMonitorCreate?
  }

  /** Calls for neither pools nor health monitors do not matter. */
  lemma {:induction false} TidyPlain(calls: seq<Call>, more: seq<Call>)
    requires Tidy(calls) && Plain(more)
    ensures Tidy(calls + more) && PoolsOf(calls + more) == PoolsOf(calls)
  {
    if more == [] {
      assert calls + more == calls;
    } else {
      var rest, last := more[..|more| - 1], more[|more| - 1];
      TidyPlain(calls, rest);
      TidyMore(calls + rest, last);
      ListsStep(calls + rest, last);
      assert calls + more == (calls + rest) + [last];
    }
  }

  lemma {:induction false} PlainMembers(members: seq<Member>, pool: Id, vipSubnet: Id)
    ensures Plain(MemberCalls(members, pool, vipSubnet))
  {
    if members != [] { PlainMembers(members[1..], pool, vipSubnet); }
  }

  lemma {:induction false} PlainListeners(ids: seq<Id>)
    ensures Plain(ListenerCalls(ids))
  {
    if ids != [] { PlainListeners(ids[1..]); }
  }

  lemma {:induction false} PlainPolicies(ids: seq<Id>, src: Source)
    requires forall q :: q in ids ==> q in src.rules
    ensures Plain(PolicyCalls(ids, src))
  {
    if ids != [] { PlainPolicies(ids[1..], src); }
  }

  lemma {:induction false} PlainAllPolicies(listeners: seq<Id>, src: Source)
    requires forall l :: l in listeners ==> l in src.policies && forall q :: q in src.policies[l] ==> q in src.rules
    ensures Plain(AllPolicyCalls(listeners, src))
  {
    if listeners != [] {
      PlainPolicies(src.policies[listeners[0]], src);
      PlainAllPolicies(listeners[1..], src);
    }
  }

  /** One pool with its members and health monitor. */
  lemma {:induction false} TidyPool(done: seq<Call>, c: Call, members: seq<Call>, monitor: seq<Call>)
    requires Tidy(done) && c.PoolCreate? && Plain(members)
    requires monitor == [] || (|monitor| == 1 && monitor[0].HealthMonitorCreate? && monitor[0].monitoredPool == c.pool)
    ensures Tidy(done + [c] + members + monitor)
  {
    hide Tidy, PoolsOf, Plain;
    TidyMore(done, c);
    ListsStep(done, c);
    TidyPlain(done + [c], members);
    var so := done + [c] + members;
    if monitor == [] {
      assert so + monitor == so;
    } else {
      TidyMore(so, monitor[0]);
      assert monitor == [monitor[0]];
    }
  }

  lemma {:induction false} TidyPools(done: seq<Call>, ids: seq<Id>, src: Source, lb: LoadBalancer)
    requires Tidy(done) && forall p :: p in ids ==> p in src.pools
    ensures Tidy(done + PoolCalls(ids, src, lb))
    decreases |ids|
  {
    hide Tidy, MemberCalls, Plain;
    if ids == [] {
      assert done + PoolCalls(ids, src, lb) == done;
    } else {
      var p := src.pools[ids[0]];
      var c := PoolCreate(ids[0], p.listener, p.listener.Some? && p.listener.value in lb.listeners);
      var members, monitor, rest := MemberCalls(p.members, ids[0], lb.vipSubnet), MonitorCalls(p, ids[0]), PoolCalls(ids[1..], src, lb);
      PlainMembers(p.members, ids[0], lb.vipSubnet);
      TidyPool(done, c, members, monitor);
      TidyPools(done + [c] + members + monitor, ids[1..], src, lb);
      assert done + ([c] + (members + (monitor + rest))) == done + [c] + members + monitor + rest;
    }
  }

  lemma {:induction false} TidyParts(listeners: seq<Call>, lb: LoadBalancer, src: Source, policies: seq<Call>)
    requires (forall p :: p in lb.pools ==> p in src.pools) && Plain(listeners) && Plain(policies)
    ensures Tidy([LoadBalancerCreate(lb.id)] + listeners + PoolCalls(lb.pools, src, lb) + policies)
  {
    hide Tidy, PoolCalls, PoolsOf;
    var first := [LoadBalancerCreate(lb.id)];
    NoneTidy();
    TidyMore([], first[0]);
    assert [] + first == first;
    TidyPlain(first, listeners);
    TidyPools(first + listeners, lb.pools, src, lb);
    TidyPlain(first + listeners + PoolCalls(lb.pools, src, lb), policies);
  }

  lemma {:induction false} NoneTidy()
    ensures Tidy([])
  {
  }

  lemma {:induction false} TidyPlan(lb: LoadBalancer, src: Source)
    requires Complete(lb, src)
    ensures Tidy(Plan(lb, src))
  {
    hide Tidy, ListenerCalls, PoolCalls, AllPolicyCalls, Keys, Plain;
    var listeners, pools, policies := ListenerCalls(lb.listeners), PoolCalls(lb.pools, src, lb), AllPolicyCalls(Keys(lb.listeners), src);
    PlainListeners(lb.listeners);
    PlainAllPolicies(Keys(lb.listeners), src);
    TidyParts(listeners, lb, src, policies);
    Regroup([LoadBalancerCreate(lb.id)], listeners, pools, policies, []);
    assert Plan(lb, src) == [LoadBalancerCreate(lb.id)] + listeners + pools + policies;
  }

  lemma {:induction false} ListsAreCreated(calls: seq<Call>)
    requires Tidy(calls)
    ensures ListenersOf(calls) == CreatedListeners(Succeeded(calls))
    ensures PoolsOf(calls) == CreatedPools(Succeeded(calls))
  {
    if calls == [] {
    } else {
      var rest, last := calls[..|calls| - 1], calls[|calls| - 1];
      assert calls == rest + [last];
      ListsAreCreated(rest);
      ListsStep(rest, last);
      assert Succeeded(calls) == Succeeded(rest) + [Event(last, true)];
      CreatedMore(Succeeded(rest), Event(last, true));
    }
  }

  /** After a refusal the last event is the cascade delete, and its body lists,
      in order, the listeners and pools whose creation succeeded, each pool with
      its health monitor if that was created. */
  lemma {:induction false} RefusedEndsInDelete(lb: LoadBalancer, src: Source, k: nat)
    requires Complete(lb, src) && k < |Plan(lb, src)|
    ensures var plan, t := Plan(lb, src), Refused(Plan(lb, src), k, lb.id, true);
            && |t| == k + 2 && t[k] == Event(plan[k], false)
            && (forall i :: 0 <= i < k ==> t[i] == Event(plan[i], true))
            && t[k + 1].call == DeleteCascade(lb.id, CreatedListeners(t), CreatedPools(t))
            && Refused(plan, k, lb.id, false) == t[..k + 1]
  {
    var plan := Plan(lb, src);
    var t, done := Refused(plan, k, lb.id, true), plan[..k];
    TidyPlan(lb, src);
    TidyPrefix(plan, k);
    ListsAreCreated(done);
    assert t == (Succeeded(done) + [Event(plan[k], false)]) + [t[k + 1]];
    CreatedMore(Succeeded(done), Event(plan[k], false));
    CreatedMore(Succeeded(done) + [Event(plan[k], false)], t[k + 1]);
  }

  lemma {:induction false} KeysStep(ids: seq<Id>, i: nat)
    requires i <= |ids|
    ensures Keys(ids[..0]) == []
    ensures i < |ids| ==>
              Keys(ids[..i + 1]) == if ids[i] in Keys(ids[..i]) then Keys(ids[..i]) else Keys(ids[..i]) + [ids[i]]
  {
    if i < |ids| {
      assert ids[..i + 1][..i] == ids[..i];
    }
  }

  lemma {:induction false} NoListeners(ids: seq<Id>, rest: seq<Call>)
    ensures ids[0..] == ids && ListenerCalls(ids[|ids|..]) + rest == rest
  {
  }

  lemma {:induction false} NextListener(plan: seq<Call>, done: seq<Call>, ids: seq<Id>, i: nat, rest: seq<Call>)
    requires i < |ids| && plan == done + (ListenerCalls(ids[i..]) + rest)
    ensures var c, todo := ListenerCreate(ids[i]), ListenerCalls(ids[i + 1..]) + rest;
            plan == done + ([c] + todo) && plan == (done + [c]) + todo
  {
    assert ids[i..][1..] == ids[i + 1..];
  }

  /** Listeners and pools of a body, as its dictionary lists them. */
  class Body {
    const id: Id
    var listeners: seq<Id>
    var pools: seq<PoolEntry>

    constructor (id: Id)
      ensures this.id == id && listeners == [] && pools == []
    {
      this.id, listeners, pools := id, [], [];
    }

    ghost predicate Lists(calls: seq<Call>)
      reads this
    {
      listeners == ListenersOf(calls) && pools == PoolsOf(calls)
    }
  }

  class Migration {
    const ignoreErrors: bool
    /** How the driver answers each call of the run, by its place. */
    const reply: nat -> bool
    var trace: seq<Event>
    var errors: nat

    constructor (ignoreErrors: bool, reply: nat -> bool)
      ensures this.ignoreErrors == ignoreErrors && trace == [] && this.reply == reply && errors == 0 && Honest()
    {
      this.ignoreErrors, trace, this.reply, errors := ignoreErrors, [], reply, 0;
    }

    /** Each answer in the trace is the one that was given; that to a cascade
        delete is not looked at. */
    ghost predicate Honest()
      reads this`trace
    {
      forall i :: 0 <= i < |trace| && !trace[i].call.DeleteCascade? ==> trace[i].ok == reply(i)
    }

    /** One remote call. */
    method Rpc(c: Call) returns (ok: bool)
      requires Honest()
      modifies `trace
      ensures Honest()
      ensures trace == old(trace) + [Event(c, ok)]
    {
      ok := reply(|trace|);
      trace := trace + [Event(c, ok)];
    }

    /** A create call. If it is refused the error is recorded, which ends the
        program unless errors are ignored, and the load balancer is deleted
        with what `deletion` lists. */
    method Create(c: Call, deletion: Body, ghost before: seq<Event>, ghost plan: seq<Call>, ghost done: seq<Call>, ghost todo: seq<Call>)
      returns (ok: bool)
      requires trace == before + Succeeded(done) && plan == done + ([c] + todo) && deletion.Lists(done)
      requires Honest()
      modifies this
      ensures Honest()
      ensures ok ==> trace == before + Succeeded(done + [c])
      ensures !ok ==> RolledBack(before, trace, plan, deletion.id, ignoreErrors)
      ensures errors == old(errors) + if !ok && ignoreErrors then 1 else 0
    {
      assert plan[|done|] == c && plan[..|done|] == done;
      ok := Rpc(c);
      if ok {
        assert Succeeded(done + [c]) == Succeeded(done) + [Event(c, true)];
      } else {
        if ignoreErrors {
          errors := errors + 1;
          trace := trace + [Event(DeleteCascade(deletion.id, deletion.listeners, deletion.pools), true)];
        }
        assert trace == before + Refused(plan, |done|, deletion.id, ignoreErrors);
      }
    }

    /** The body helpers of the other resources reset the shared body. */
    method Prepare(body: Body)
      modifies body
      ensures body.listeners == []
    {
      body.listeners := [];
    }

    method MigrateListener(id: Id, body: Body, deletion: Body,
                           ghost before: seq<Event>, ghost plan: seq<Call>, ghost done: seq<Call>, ghost todo: seq<Call>)
      returns (ok: bool)
      requires body != deletion && trace == before + Succeeded(done) && deletion.Lists(done)
      requires plan == done + ([ListenerCreate(id)] + todo)
      requires Honest()
      modifies this, body, deletion
      ensures Honest()
      ensures ok ==> trace == before + Succeeded(done + [ListenerCreate(id)]) && deletion.Lists(done + [ListenerCreate(id)])
      ensures !ok ==> RolledBack(before, trace, plan, deletion.id, ignoreErrors)
      ensures errors == old(errors) + if !ok && ignoreErrors then 1 else 0
    {
      hide ListenersOf, PoolsOf, Succeeded, Refused, RolledBack;
      Prepare(body);
      ok := Create(ListenerCreate(id), deletion, before, plan, done, todo);
      if ok {
        ListsStep(done, ListenerCreate(id));
        deletion.listeners := deletion.listeners + [id];
      }
    }

    method MigrateListeners(lb: LoadBalancer, body: Body, deletion: Body,
                            ghost before: seq<Event>, ghost plan: seq<Call>, ghost done0: seq<Call>, ghost rest: seq<Call>)
      returns (ok: bool, listenersMap: seq<Id>, ghost done: seq<Call>)
      requires body != deletion && trace == before + Succeeded(done0) && deletion.Lists(done0)
      requires plan == done0 + (ListenerCalls(lb.listeners) + rest)
      requires Honest()
      modifies this, body, deletion
      ensures Honest()
      ensures ok ==> trace == before + Succeeded(done) && plan == done + rest && deletion.Lists(done)
      ensures ok ==> listenersMap == Keys(lb.listeners)
      ensures !ok ==> RolledBack(before, trace, plan, deletion.id, ignoreErrors)
      ensures errors == old(errors) + if !ok && ignoreErrors then 1 else 0
    {
      hide ListenersOf, PoolsOf, Succeeded, Refused, RolledBack, Keys, ListenerCalls;
      KeysStep(lb.listeners, 0);
      done, listenersMap := done0, [];
      NoListeners(lb.listeners, rest);
      for i := 0 to |lb.listeners|
        invariant errors == old(errors)
        invariant Honest() && trace == before + Succeeded(done) && deletion.Lists(done)
        invariant plan == done + (ListenerCalls(lb.listeners[i..]) + rest)
        invariant listenersMap == Keys(lb.listeners[..i])
      {
        var id := lb.listeners[i];
        ghost var todo := ListenerCalls(lb.listeners[i + 1..]) + rest;
        NextListener(plan, done, lb.listeners, i, rest);
        ok := MigrateListener(id, body, deletion, before, plan, done, todo);
        if !ok { return; }
        done := done + [ListenerCreate(id)];
        KeysStep(lb.listeners, i);
        listenersMap := if id in listenersMap then listenersMap else listenersMap + [id];
      }
      assert lb.listeners[..|lb.listeners|] == lb.listeners;
      ok := true;
    }

    method MigrateMembers(members: seq<Member>, pool: Id, vipSubnet: Id, body: Body, deletion: Body,
                          ghost before: seq<Event>, ghost plan: seq<Call>, ghost done0: seq<Call>, ghost rest: seq<Call>)
      returns (ok: bool, ghost done: seq<Call>)
      requires body != deletion && trace == before + Succeeded(done0) && deletion.Lists(done0)
      requires plan == done0 + (MemberCalls(members, pool, vipSubnet) + rest)
      requires Honest()
      modifies this, body
      ensures Honest()
      ensures ok ==> trace == before + Succeeded(done) && plan == done + rest && PoolsOf(done) == PoolsOf(done0) && deletion.Lists(done)
      ensures !ok ==> RolledBack(before, trace, plan, deletion.id, ignoreErrors)
      ensures errors == old(errors) + if !ok && ignoreErrors then 1 else 0
    {
      hide ListenersOf, PoolsOf, Succeeded, Refused, RolledBack;
      done := done0;
      assert members[0..] == members;
      for i := 0 to |members|
        invariant errors == old(errors)
        invariant Honest() && trace == before + Succeeded(done) && deletion.Lists(done) && PoolsOf(done) == PoolsOf(done0)
        invariant plan == done + (MemberCalls(members[i..], pool, vipSubnet) + rest)
      {
        var m := members[i];
        Prepare(body);
        var subnet := if m.subnet.Some? then m.subnet.value else vipSubnet;
        ghost var todo := MemberCalls(members[i + 1..], pool, vipSubnet) + rest;
        assert members[i..][1..] == members[i + 1..];
        assert plan == done + ([MemberCreate(m.id, pool, subnet)] + todo);
        ok := Create(MemberCreate(m.id, pool, subnet), deletion, before, plan, done, todo);
        if !ok { return; }
        ListsStep(done, MemberCreate(m.id, pool, subnet));
        done := done + [MemberCreate(m.id, pool, subnet)];
      }
      ok := true;
    }

    /** The pool itself; its entry for deletion has no monitor yet. */
    method CreatePool(c: Call, body: Body, deletion: Body,
                      ghost before: seq<Event>, ghost plan: seq<Call>, ghost done: seq<Call>, ghost todo: seq<Call>)
      returns (ok: bool)
      requires c.PoolCreate? && body != deletion && trace == before + Succeeded(done) && deletion.Lists(done)
      requires plan == done + ([c] + todo)
      requires Honest()
      modifies this, body, deletion
      ensures Honest()
      ensures ok ==> trace == before + Succeeded(done + [c]) && deletion.Lists(done + [c])
      ensures ok ==> deletion.pools == old(deletion.pools) + [PoolEntry(c.pool, None)]
      ensures !ok ==> RolledBack(before, trace, plan, deletion.id, ignoreErrors)
      ensures errors == old(errors) + if !ok && ignoreErrors then 1 else 0
    {
      hide ListenersOf, PoolsOf, Succeeded, Refused, RolledBack;
      Prepare(body);
      ok := Create(c, deletion, before, plan, done, todo);
      if ok {
        ListsStep(done, c);
        deletion.pools := deletion.pools + [PoolEntry(c.pool, None)];
      }
    }

    /** The health monitor, noted with the last pool. */
    method CreateMonitor(c: Call, deletion: Body,
                         ghost before: seq<Event>, ghost plan: seq<Call>, ghost done: seq<Call>, ghost todo: seq<Call>)
      returns (ok: bool)
      requires c.HealthMonitorCreate? && deletion.pools != [] && trace == before + Succeeded(done) && deletion.Lists(done)
      requires plan == done + ([c] + todo)
      requires Honest()
      modifies this, deletion
      ensures Honest()
      ensures ok ==> trace == before + Succeeded(done + [c]) && deletion.Lists(done + [c])
      ensures !ok ==> RolledBack(before, trace, plan, deletion.id, ignoreErrors)
      ensures errors == old(errors) + if !ok && ignoreErrors then 1 else 0
    {
      hide ListenersOf, PoolsOf, Succeeded, Refused, RolledBack;
      ok := Create(c, deletion, before, plan, done, todo);
      if ok {
        ListsStep(done, c);
        var last := |deletion.pools| - 1;
        deletion.pools := deletion.pools[last := deletion.pools[last].(healthMonitor := Some(c.healthMonitor))];
      }
    }

    method MigratePool(id: Id, pool: Pool, lb: LoadBalancer, listenersMap: seq<Id>, body: Body, deletion: Body,
                       ghost before: seq<Event>, ghost plan: seq<Call>, ghost done0: seq<Call>, ghost rest: seq<Call>)
      returns (ok: bool, ghost done: seq<Call>)
      requires body != deletion && trace == before + Succeeded(done0) && deletion.Lists(done0)
      requires forall l :: l in listenersMap <==> l in lb.listeners
      requires plan == done0 + ([PoolCreate(id, pool.listener, pool.listener.Some? && pool.listener.value in lb.listeners)]
                                + (MemberCalls(pool.members, id, lb.vipSubnet) + (MonitorCalls(pool, id) + rest)))
      requires Honest()
      modifies this, body, deletion
      ensures Honest()
      ensures ok ==> trace == before + Succeeded(done) && plan == done + rest && deletion.Lists(done)
      ensures !ok ==> RolledBack(before, trace, plan, deletion.id, ignoreErrors)
      ensures errors == old(errors) + if !ok && ignoreErrors then 1 else 0
    {
      hide ListenersOf, PoolsOf, Succeeded, Refused, RolledBack, MemberCalls;
      var c := PoolCreate(id, pool.listener, pool.listener.Some? && pool.listener.value in listenersMap);
      ghost var monitor := MonitorCalls(pool, id) + rest;
      done := done0;
      ok := CreatePool(c, body, deletion, before, plan, done, MemberCalls(pool.members, id, lb.vipSubnet) + monitor);
      if !ok { return; }
      done := done + [c];
      ok, done := MigrateMembers(pool.members, id, lb.vipSubnet, body, deletion, before, plan, done, monitor);
      if !ok { return; }
      if pool.healthMonitor.Some? {
        var h := HealthMonitorCreate(pool.healthMonitor.value, id);
        ok := CreateMonitor(h, deletion, before, plan, done, rest);
        if !ok { return; }
        done := done + [h];
      }
    }

    method MigratePools(lb: LoadBalancer, src: Source, listenersMap: seq<Id>, body: Body, deletion: Body,
                        ghost before: seq<Event>, ghost plan: seq<Call>, ghost done0: seq<Call>, ghost rest: seq<Call>)
      returns (ok: bool, ghost done: seq<Call>)
      requires body != deletion && trace == before + Succeeded(done0) && deletion.Lists(done0)
      requires forall p :: p in lb.pools ==> p in src.pools
      requires forall l :: l in listenersMap <==> l in lb.listeners
      requires plan == done0 + (PoolCalls(lb.pools, src, lb) + rest)
      requires Honest()
      modifies this, body, deletion
      ensures Honest()
      ensures ok ==> trace == before + Succeeded(done) && plan == done + rest && deletion.Lists(done)
      ensures !ok ==> RolledBack(before, trace, plan, deletion.id, ignoreErrors)
      ensures errors == old(errors) + if !ok && ignoreErrors then 1 else 0
    {
      hide ListenersOf, PoolsOf, Succeeded, Refused, RolledBack;
      done := done0;
      assert lb.pools[0..] == lb.pools;
      for i := 0 to |lb.pools|
        invariant errors == old(errors)
        invariant Honest() && trace == before + Succeeded(done) && deletion.Lists(done)
        invariant plan == done + (PoolCalls(lb.pools[i..], src, lb) + rest)
      {
        var id := lb.pools[i];
        ghost var todo := PoolCalls(lb.pools[i + 1..], src, lb) + rest;
        assert lb.pools[i..][1..] == lb.pools[i + 1..];
        UnfoldPool(lb.pools[i..], src, lb, done, rest, plan);
        ok, done := MigratePool(id, src.pools[id], lb, listenersMap, body, deletion, before, plan, done, todo);
        if !ok { return; }
      }
      ok := true;
    }

    method MigrateListenerPolicies(policies: seq<Id>, src: Source, deletion: Body,
                                   ghost before: seq<Event>, ghost plan: seq<Call>, ghost done0: seq<Call>, ghost rest: seq<Call>)
      returns (ok: bool, ghost done: seq<Call>)
      requires trace == before + Succeeded(done0) && deletion.Lists(done0)
      requires forall q :: q in policies ==> q in src.rules
      requires plan == done0 + (PolicyCalls(policies, src) + rest)
      requires Honest()
      modifies this
      ensures Honest()
      ensures ok ==> trace == before + Succeeded(done) && plan == done + rest && deletion.Lists(done)
      ensures !ok ==> RolledBack(before, trace, plan, deletion.id, ignoreErrors)
      ensures errors == old(errors) + if !ok && ignoreErrors then 1 else 0
    {
      hide ListenersOf, PoolsOf, Succeeded, Refused, RolledBack;
      done := done0;
      assert policies[0..] == policies;
      for j := 0 to |policies|
        invariant errors == old(errors)
        invariant Honest() && trace == before + Succeeded(done) && deletion.Lists(done)
        invariant plan == done + (PolicyCalls(policies[j..], src) + rest)
      {
        var c := L7PolicyCreate(policies[j], src.rules[policies[j]]);
        ghost var todo := PolicyCalls(policies[j + 1..], src) + rest;
        assert policies[j..][1..] == policies[j + 1..];
        assert plan == done + ([c] + todo);
        ok := Create(c, deletion, before, plan, done, todo);
        if !ok { return; }
        ListsStep(done, c);
        done := done + [c];
      }
      ok := true;
    }

    method MigratePolicies(listenersMap: seq<Id>, src: Source, deletion: Body,
                           ghost before: seq<Event>, ghost plan: seq<Call>, ghost done0: seq<Call>)
      returns (ok: bool)
      requires trace == before + Succeeded(done0) && deletion.Lists(done0)
      requires forall l :: l in listenersMap ==> l in src.policies && forall q :: q in src.policies[l] ==> q in src.rules
      requires plan == done0 + AllPolicyCalls(listenersMap, src)
      requires Honest()
      modifies this
      ensures Honest()
      ensures ok ==> trace == before + Succeeded(plan)
      ensures !ok ==> RolledBack(before, trace, plan, deletion.id, ignoreErrors)
      ensures errors == old(errors) + if !ok && ignoreErrors then 1 else 0
    {
      hide ListenersOf, PoolsOf, Succeeded, Refused, RolledBack;
      ghost var done := done0;
      assert listenersMap[0..] == listenersMap;
      for i := 0 to |listenersMap|
        invariant errors == old(errors)
        invariant Honest() && trace == before + Succeeded(done) && deletion.Lists(done)
        invariant plan == done + AllPolicyCalls(listenersMap[i..], src)
      {
        ghost var rest := AllPolicyCalls(listenersMap[i + 1..], src);
        assert listenersMap[i..][1..] == listenersMap[i + 1..];
        ok, done := MigrateListenerPolicies(src.policies[listenersMap[i]], src, deletion, before, plan, done, rest);
        if !ok { return; }
      }
      assert plan == done;
      ok := true;
    }

    /** Either every call of the plan was made and succeeded, or they were up to
        the first refusal and, errors being ignored, a cascade delete ends the
        sequence, listing what had been created. */
    method MigrateLoadBalancer(lb: LoadBalancer, src: Source) returns (ok: bool)
      requires Complete(lb, src)
      requires Honest()
      modifies this
      ensures Honest()
      ensures ok ==> trace == old(trace) + Succeeded(Plan(lb, src))
      ensures ok ==>
                exists parts ::
                  && Fits(parts, lb, src)
                  && trace == old(trace) + Succeeded([LoadBalancerCreate(lb.id)] + (parts.listeners + (Joined(parts.pools) + Joined(parts.policies))))
      ensures !ok ==> RolledBack(old(trace), trace, Plan(lb, src), lb.id, ignoreErrors)
      ensures errors == old(errors) + if !ok && ignoreErrors then 1 else 0
    {
      ghost var parts := PlanIs(lb, src);
      hide Fits, Joined;
      ghost var before, plan := trace, Plan(lb, src);
      ghost var policies := AllPolicyCalls(Keys(lb.listeners), src);
      ghost var pools := PoolCalls(lb.pools, src, lb) + policies;
      var body := new Body(lb.id);
      assert plan == [] + ([LoadBalancerCreate(lb.id)] + (ListenerCalls(lb.listeners) + pools));
      assert before + Succeeded([]) == before;
      ok := Create(LoadBalancerCreate(lb.id), body, before, plan, [], ListenerCalls(lb.listeners) + pools);
      if !ok { return; }
      ListsStep([], LoadBalancerCreate(lb.id));
      var deletion := new Body(lb.id);
      var listenersMap;
      ghost var done;
      ok, listenersMap, done := MigrateListeners(lb, body, deletion, before, plan, [LoadBalancerCreate(lb.id)], pools);
      if !ok { return; }
      ok, done := MigratePools(lb, src, listenersMap, body, deletion, before, plan, done, policies);
      if !ok { return; }
      ok := MigratePolicies(listenersMap, src, deletion, before, plan, done);
    }
  }

  lemma {:induction false} UnfoldPool(ids: seq<Id>, src: Source, lb: LoadBalancer, done: seq<Call>, rest: seq<Call>, plan: seq<Call>)
    requires ids != [] && forall p :: p in ids ==> p in src.pools
    requires plan == done + (PoolCalls(ids, src, lb) + rest)
    ensures var p := src.pools[ids[0]];
            plan == done + ([PoolCreate(ids[0], p.listener, p.listener.Some? && p.listener.value in lb.listeners)]
                            + (MemberCalls(p.members, ids[0], lb.vipSubnet)
                               + (MonitorCalls(p, ids[0]) + (PoolCalls(ids[1..], src, lb) + rest))))
  {
    var p := src.pools[ids[0]];
    var c := [PoolCreate(ids[0], p.listener, p.listener.Some? && p.listener.value in lb.listeners)];
    Regroup(c, MemberCalls(p.members, ids[0], lb.vipSubnet), MonitorCalls(p, ids[0]), PoolCalls(ids[1..], src, lb), rest);
  }

  lemma {:induction false} Regroup(a: seq<Call>, b: seq<Call>, c: seq<Call>, d: seq<Call>, e: seq<Call>)
    ensures (a + (b + (c + d))) + e == a + (b + (c + (d + e)))
  {
  }
}
