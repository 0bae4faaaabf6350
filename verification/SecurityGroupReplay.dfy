/**
 * Migration of security groups: groups first, then the rules of the groups
 * that were created, in bulk, one request per group and tenant.
 */
module SecurityGroupReplay {
  import opened Filters
  import opened Options
  import opened ReplayTraces

  type Id = string
  type Tenant = string

  datatype Rule = Rule(id: Id, direction: string, ethertype: string, remoteGroup: Option<Id>, protocol: Option<string>, tenant: Option<Tenant>)
  datatype Group = Group(id: Id, tags: seq<string>, rules: seq<Rule>)

  /** The rules saved for one tenant of one group. */
  datatype Entry = Entry(tenant: Tenant, rules: seq<Rule>)
  datatype Saved = Saved(group: Id, entries: seq<Entry>)

  datatype Call =
    | RuleCreate(of: Id, rule: Rule)
    | GroupCreate(group: Id)
    | TagAdd(tagged: Id, tag: string)
    | BulkCreate(bulk: Id, tenant: Tenant, rules: seq<Rule>)

  /** What a created group comes with: default rules. */
  type Reply = Answer<seq<Rule>>
  type Trace = seq<Event<Call, seq<Rule>>>

  // --------------------------------------------------------------- rules

  function TenantOf(r: Rule): Tenant {
    if r.tenant.Some? then r.tenant.value else "default"
  }

  /** A default rule of the destination stands for this one. */
  predicate Matches(d: Rule, r: Rule) {
    && d.direction == r.direction && d.ethertype == r.ethertype && d.remoteGroup == r.remoteGroup
    && (d.protocol.None? || d.protocol.value == "")
  }

  predicate ByDefault(defaults: seq<Rule>, r: Rule) {
    exists d :: d in defaults && Matches(d, r)
  }

  /** The rules no default rule stands for, in source order. */
  function Kept(rules: seq<Rule>, defaults: seq<Rule>): seq<Rule> {
    if rules == [] then [] else
    var rest, last := Kept(rules[..|rules| - 1], defaults), rules[|rules| - 1];
    if ByDefault(defaults, last) then rest else rest + [last]
  }

  /** The rules of one tenant, in order. */
  function OfTenant(rules: seq<Rule>, t: Tenant): seq<Rule> {
    if rules == [] then [] else
    var rest, last := OfTenant(rules[..|rules| - 1], t), rules[|rules| - 1];
    if TenantOf(last) == t then rest + [last] else rest
  }

  /** Appends to the tenant's list, or starts one at the end. */
  function Add(entries: seq<Entry>, r: Rule): seq<Entry> {
    if entries == [] then [Entry(TenantOf(r), [r])]
    else if entries[0].tenant == TenantOf(r) then [Entry(TenantOf(r), entries[0].rules + [r])] + entries[1..]
    else [entries[0]] + Add(entries[1..], r)
  }

  function Grouped(rules: seq<Rule>): seq<Entry> {
    if rules == [] then [] else Add(Grouped(rules[..|rules| - 1]), rules[|rules| - 1])
  }

  function RulesIn(entries: seq<Entry>): multiset<Rule> {
    if entries == [] then multiset{} else multiset(entries[0].rules) + RulesIn(entries[1..])
  }

  /** The dictionary's entry for a tenant. */
  function Lookup(entries: seq<Entry>, t: Tenant): seq<Rule> {
    if entries == [] then [] else if entries[0].tenant == t then entries[0].rules else Lookup(entries[1..], t)
  }

  ghost predicate Distinct(entries: seq<Entry>) {
    forall i, j :: 0 <= i < j < |entries| ==> entries[i].tenant != entries[j].tenant
  }

  lemma {:induction false} AddLookup(entries: seq<Entry>, r: Rule, t: Tenant)
    ensures Lookup(Add(entries, r), t) == if TenantOf(r) == t then Lookup(entries, t) + [r] else Lookup(entries, t)
  {
    if entries != [] && entries[0].tenant != TenantOf(r) {
      AddLookup(entries[1..], r, t);
    }
  }

  lemma {:induction false} AddDistinct(entries: seq<Entry>, r: Rule)
    requires Distinct(entries)
    ensures Distinct(Add(entries, r))
    ensures forall e: Entry :: e in Add(entries, r) ==> e.tenant == TenantOf(r) || exists f :: f in entries && f.tenant == e.tenant
  {
    if entries != [] && entries[0].tenant != TenantOf(r) {
      AddDistinct(entries[1..], r);
      forall e: Entry | e in Add(entries[1..], r) ensures e.tenant != entries[0].tenant {
        if f :| f in entries[1..] && f.tenant == e.tenant {}
      }
    }
  }

  lemma {:induction false} AddConserves(entries: seq<Entry>, r: Rule)
    ensures RulesIn(Add(entries, r)) == RulesIn(entries) + multiset{r}
  {
    if entries != [] && entries[0].tenant != TenantOf(r) {
      AddConserves(entries[1..], r);
    }
  }

  lemma {:induction false} SnocMultiset(rules: seq<Rule>)
    requires rules != []
    ensures multiset(rules) == multiset(rules[..|rules| - 1]) + multiset{rules[|rules| - 1]}
  {
    assert rules == rules[..|rules| - 1] + [rules[|rules| - 1]];
  }

  /** Grouping loses and repeats no rule; each tenant has one entry at most,
      with exactly its own rules, in source order. */
  lemma {:induction false} GroupedPartitions(rules: seq<Rule>)
    ensures Distinct(Grouped(rules)) && RulesIn(Grouped(rules)) == multiset(rules)
    ensures forall t :: Lookup(Grouped(rules), t) == OfTenant(rules, t)
  {
    if rules != [] {
      var rest, last := rules[..|rules| - 1], rules[|rules| - 1];
      GroupedPartitions(rest);
      AddDistinct(Grouped(rest), last);
      AddConserves(Grouped(rest), last);
      SnocMultiset(rules);
      forall t ensures Lookup(Grouped(rules), t) == OfTenant(rules, t) {
        AddLookup(Grouped(rest), last, t);
      }
    }
  }

  /** A rule is kept unless a default rule stands for it, as often as it occurs. */
  lemma {:induction false} KeptExactly(rules: seq<Rule>, defaults: seq<Rule>, r: Rule)
    ensures multiset(Kept(rules, defaults))[r] == if ByDefault(defaults, r) then 0 else multiset(rules)[r]
  {
    if rules != [] {
      var rest, last := rules[..|rules| - 1], rules[|rules| - 1];
      KeptExactly(rest, defaults, r);
      SnocMultiset(rules);
      if !ByDefault(defaults, last) {
        var kept := Kept(rules, defaults);
        assert kept == Kept(rest, defaults) + [last];
      }
    }
  }

  lemma {:induction false} OfTenantExactly(rules: seq<Rule>, t: Tenant, r: Rule)
    ensures r in OfTenant(rules, t) <==> r in rules && TenantOf(r) == t
  {
    if rules != [] {
      var rest, last := rules[..|rules| - 1], rules[|rules| - 1];
      OfTenantExactly(rest, t, r);
      assert rules == rest + [last];
    }
  }

  /** A default rule stands for a rule of the same direction, ethertype and
      remote group if it has no protocol; a rule without tenant is saved under
      the name of the default one. */
  lemma {:induction false} MatchMeans(defaults: seq<Rule>, r: Rule)
    ensures ByDefault(defaults, r) <==>
            exists i :: 0 <= i < |defaults| && defaults[i].direction == r.direction && defaults[i].ethertype == r.ethertype &&
              defaults[i].remoteGroup == r.remoteGroup && (defaults[i].protocol == None || defaults[i].protocol == Some(""))
    ensures TenantOf(r) == (match r.tenant case Some(t) => t case None => "default")
  {
    if i :| 0 <= i < |defaults| && defaults[i].direction == r.direction && defaults[i].ethertype == r.ethertype &&
            defaults[i].remoteGroup == r.remoteGroup && (defaults[i].protocol == None || defaults[i].protocol == Some("")) {
      assert defaults[i] in defaults && Matches(defaults[i], r);
    }
    if d :| d in defaults && Matches(d, r) {
      var i :| 0 <= i < |defaults| && defaults[i] == d;
      assert defaults[i].direction == r.direction;
    }
  }

  /** What is kept, and what is saved for a tenant, is in source order. */
  lemma {:induction false} KeptIsFilter(rules: seq<Rule>, defaults: seq<Rule>, keep: Rule -> bool)
    requires forall r :: keep(r) <==> !ByDefault(defaults, r)
    ensures IsFilter(Kept(rules, defaults), rules, keep)
  {
    hide ByDefault, IsFilter;
    if rules == [] {
      FilterNone(keep);
    } else {
      KeptIsFilter(rules[..|rules| - 1], defaults, keep);
      FilterLast(Kept(rules[..|rules| - 1], defaults), Kept(rules, defaults), rules, keep);
    }
  }

  lemma {:induction false} TenantIsFilter(rules: seq<Rule>, t: Tenant, keep: Rule -> bool)
    requires forall r :: keep(r) <==> TenantOf(r) == t
    ensures IsFilter(Lookup(Grouped(rules), t), rules, keep)
  {
    GroupedPartitions(rules);
    OfTenantIsFilter(rules, t, keep);
  }

  lemma {:induction false} OfTenantIsFilter(rules: seq<Rule>, t: Tenant, keep: Rule -> bool)
    requires forall r :: keep(r) <==> TenantOf(r) == t
    ensures IsFilter(OfTenant(rules, t), rules, keep)
  {
    hide TenantOf, IsFilter;
    if rules == [] {
      FilterNone(keep);
    } else {
      OfTenantIsFilter(rules[..|rules| - 1], t, keep);
      FilterLast(OfTenant(rules[..|rules| - 1], t), OfTenant(rules, t), rules, keep);
    }
  }

  /** The tenants of some rules, in the order in which they turn up. */
  function Tenants(rules: seq<Rule>): seq<Tenant> {
    if rules == [] then [] else
    var rest, t := Tenants(rules[..|rules| - 1]), TenantOf(rules[|rules| - 1]);
    if t in rest then rest else rest + [t]
  }

  function TenantsIn(entries: seq<Entry>): seq<Tenant> {
    seq(|entries|, i requires 0 <= i < |entries| => entries[i].tenant)
  }

  lemma {:induction false} AddTenants(entries: seq<Entry>, r: Rule)
    ensures TenantsIn(Add(entries, r)) ==
            if TenantOf(r) in TenantsIn(entries) then TenantsIn(entries) else TenantsIn(entries) + [TenantOf(r)]
  {
    if entries != [] {
      assert TenantsIn(entries) == [entries[0].tenant] + TenantsIn(entries[1..]);
      if entries[0].tenant != TenantOf(r) {
        AddTenants(entries[1..], r);
        assert TenantsIn(Add(entries, r)) == [entries[0].tenant] + TenantsIn(Add(entries[1..], r));
      } else {
        assert TenantsIn(Add(entries, r)) == TenantsIn(entries);
      }
    }
  }

  lemma {:induction false} TenantsInOrder(rules: seq<Rule>)
    ensures TenantsIn(Grouped(rules)) == Tenants(rules)
  {
    if rules != [] {
      TenantsInOrder(rules[..|rules| - 1]);
      AddTenants(Grouped(rules[..|rules| - 1]), rules[|rules| - 1]);
    }
  }

  /** Each rule of a new group is either matched by a default rule or saved as
      often as the source has it, under its own tenant only. */
  lemma {:induction false} SavedOnce(rules: seq<Rule>, defaults: seq<Rule>, r: Rule)
    ensures var entries := Grouped(Kept(rules, defaults));
            && Distinct(entries)
            && RulesIn(entries)[r] == (if ByDefault(defaults, r) then 0 else multiset(rules)[r])
            && (forall t :: r in Lookup(entries, t) <==> r in rules && !ByDefault(defaults, r) && TenantOf(r) == t)
  {
    var kept := Kept(rules, defaults);
    KeptExactly(rules, defaults, r);
    GroupedPartitions(kept);
    assert r in kept <==> multiset(kept)[r] > 0;
    assert r in rules <==> multiset(rules)[r] > 0;
    forall t ensures r in Lookup(Grouped(kept), t) <==> r in rules && !ByDefault(defaults, r) && TenantOf(r) == t {
      OfTenantExactly(kept, t, r);
    }
  }

  // ----------------------------------------------------------- the trace

  /** The groups made so far that have rules to add, in source order. */
  function Queue(groups: seq<Group>, made: map<Id, seq<Rule>>): seq<Saved> {
    if groups == [] then [] else
    var rest, g := Queue(groups[..|groups| - 1], made), groups[|groups| - 1];
    if g.id !in made || Kept(g.rules, made[g.id]) == [] then rest
    else rest + [Saved(g.id, Grouped(Kept(g.rules, made[g.id])))]
  }

  ghost predicate DistinctIds(groups: seq<Group>) {
    forall i, j :: 0 <= i < j < |groups| ==> groups[i].id != groups[j].id
  }

  /** Making a group does not concern the groups before it. */
  lemma {:induction false} QueueFrame(groups: seq<Group>, made: map<Id, seq<Rule>>, id: Id, defaults: seq<Rule>)
    requires forall i :: 0 <= i < |groups| ==> groups[i].id != id
    ensures Queue(groups, made[id := defaults]) == Queue(groups, made)
  {
    if groups != [] {
      QueueFrame(groups[..|groups| - 1], made, id, defaults);
    }
  }

  /** The groups queued are those made that have rules to add, in source order. */
  lemma {:induction false} QueueIs(groups: seq<Group>, made: map<Id, seq<Rule>>, keep: Group -> bool) returns (chosen: seq<Group>)
    requires forall g :: keep(g) <==> g.id in made && exists r :: r in g.rules && !ByDefault(made[g.id], r)
    ensures IsFilter(chosen, groups, keep) && |chosen| == |Queue(groups, made)|
    ensures forall i :: 0 <= i < |chosen| ==>
              chosen[i].id in made && Queue(groups, made)[i] == Saved(chosen[i].id, Grouped(Kept(chosen[i].rules, made[chosen[i].id])))
  {
    hide ByDefault;
    if groups == [] {
      chosen := [];
      FilterNone(keep);
    } else {
      var last := groups[|groups| - 1];
      var before := QueueIs(groups[..|groups| - 1], made, keep);
      hide IsFilter, Kept, Grouped;
      if last.id in made { KeptSome(last.rules, made[last.id]); }
      chosen := if keep(last) then before + [last] else before;
      FilterLast(before, chosen, groups, keep);
    }
  }

  lemma {:induction false} KeptSome(rules: seq<Rule>, defaults: seq<Rule>)
    ensures Kept(rules, defaults) != [] <==> exists r :: r in rules && !ByDefault(defaults, r)
  {
    var keep := (r: Rule) => !ByDefault(defaults, r);
    KeptIsFilter(rules, defaults, keep);
    hide ByDefault, IsFilter, Kept;
    forall r ensures r in Kept(rules, defaults) <==> r in rules && !ByDefault(defaults, r) {
      FilterMembers(Kept(rules, defaults), rules, keep, r);
    }
    if Kept(rules, defaults) != [] { assert Kept(rules, defaults)[0] in Kept(rules, defaults); }
  }

  /** The requests for a saved group: one per tenant. */
  function BulkCalls(saved: Saved): seq<Call> {
    seq(|saved.entries|, i requires 0 <= i < |saved.entries| =>
      BulkCreate(saved.group, saved.entries[i].tenant, saved.entries[i].rules))
  }

  function Sent(events: Trace): multiset<Rule> {
    if events == [] then multiset{} else
    (if events[0].call.BulkCreate? then multiset(events[0].call.rules) else multiset{}) + Sent(events[1..])
  }

  /** If none of a group's requests fails, they carry every saved rule once. */
  lemma {:induction false} AllSent(events: Trace, saved: Saved)
    requires Done(events, BulkCalls(saved))
    ensures Sent(events) == RulesIn(saved.entries)
    decreases |events|
  {
    if events != [] {
      var rest := Saved(saved.group, saved.entries[1..]);
      assert BulkCalls(rest) == BulkCalls(saved)[1..];
      AllSent(events[1..], rest);
    }
  }

  function TagCalls(id: Id, tags: seq<string>): seq<Call> {
    seq(|tags|, i requires 0 <= i < |tags| => TagAdd(id, tags[i]))
  }

  function GroupCalls(g: Group): seq<Call> {
    [GroupCreate(g.id)] + TagCalls(g.id, g.tags)
  }

  /** The rules an existing group lacks. */
  function MissingCalls(group: Id, rules: seq<Rule>, present: set<Id>): seq<Call> {
    if rules == [] then [] else
    var rest, last := MissingCalls(group, rules[..|rules| - 1], present), rules[|rules| - 1];
    if last.id in present then rest else rest + [RuleCreate(group, last)]
  }

  /** The requests for a group that exists are one for each rule whose id it has
      not, in source order. */
  lemma {:induction false} MissingCallsAre(group: Id, rules: seq<Rule>, present: set<Id>, keep: Rule -> bool) returns (missing: seq<Rule>)
    requires forall r :: keep(r) <==> r.id !in present
    ensures IsFilter(missing, rules, keep) && AsksFor(MissingCalls(group, rules, present), group, missing)
  {
    if rules == [] {
      missing := [];
      FilterNone(keep);
    } else {
      var rest, last := rules[..|rules| - 1], rules[|rules| - 1];
      var before := MissingCallsAre(group, rest, present, keep);
      hide IsFilter;
      missing := if keep(last) then before + [last] else before;
      FilterLast(before, missing, rules, keep);
    }
  }

  lemma {:induction false} MissingMembers(group: Id, rules: seq<Rule>, present: set<Id>)
    ensures forall r :: RuleCreate(group, r) in MissingCalls(group, rules, present) <==> r in rules && r.id !in present
  {
    if rules != [] {
      var rest, last := rules[..|rules| - 1], rules[|rules| - 1];
      MissingMembers(group, rest, present);
      assert rules == rest + [last];
    }
  }

  ghost predicate AsksFor(calls: seq<Call>, group: Id, rules: seq<Rule>) {
    |calls| == |rules| && forall i :: 0 <= i < |rules| ==> calls[i] == RuleCreate(group, rules[i])
  }

  /** What does not end the run: success, a conflict over a missing rule, and any
      refusal of anything else if errors are ignored. */
  function Survived(ignoreErrors: bool): Event<Call, seq<Rule>> -> bool {
    (e: Event<Call, seq<Rule>>) => e.answer.Created? || (if e.call.RuleCreate? then e.answer.Conflict? else ignoreErrors)
  }

  /** What is counted as an error: with errors ignored, any refusal but that of a
      missing rule. */
  function Noted(ignoreErrors: bool): Event<Call, seq<Rule>> -> bool {
    (e: Event<Call, seq<Rule>>) => ignoreErrors && !e.answer.Created? && !e.call.RuleCreate?
  }

  function Lacking(present: set<Id>): Rule -> bool {
    (r: Rule) => r.id !in present
  }

  /** Success is survived and no error; a refusal is an error if it is survived,
      but a conflict over a missing rule is survived without being one. */
  lemma {:induction false} SurvivedMeans(e: Event<Call, seq<Rule>>, ignoreErrors: bool)
    ensures e.answer.Created? ==> Survived(ignoreErrors)(e) && !Noted(ignoreErrors)(e)
    ensures !e.answer.Created? && e.call.RuleCreate? ==> !Noted(ignoreErrors)(e) && (Survived(ignoreErrors)(e) <==> e.answer.Conflict?)
    ensures !e.answer.Created? && !e.call.RuleCreate? ==>
              (Noted(ignoreErrors)(e) <==> ignoreErrors) && (Survived(ignoreErrors)(e) <==> ignoreErrors)
  {
  }

  /** The first of these calls were made, in order. */
  ghost predicate Asked(events: Trace, calls: seq<Call>) {
    |events| <= |calls| && forall i :: 0 <= i < |events| ==> events[i].call == calls[i]
  }

  /** Every call was made, each creating its object or meeting a conflict. */
  ghost predicate Passed(events: Trace, calls: seq<Call>) {
    && |events| == |calls| && Asked(events, calls)
    && forall i :: 0 <= i < |events| ==> events[i].answer.Created? || events[i].answer.Conflict?
  }

  /** What became of one group: its missing rules were asked for, or it was made
      with all its tags and came with these default rules, or it was refused. */
  ghost predicate GroupDone(events: Trace, g: Group, existing: map<Id, set<Id>>, made: map<Id, seq<Rule>>) {
    if g.id in existing then g.id !in made && Passed(events, MissingCalls(g.id, g.rules, existing[g.id]))
    else if g.id in made then Done(events, GroupCalls(g)) && made[g.id] == events[0].answer.value
    else Refused(events, GroupCalls(g))
  }

  /** What was asked for a group whose refusal ended the run. */
  ghost predicate GroupCut(events: Trace, g: Group, existing: map<Id, set<Id>>) {
    if g.id in existing then Asked(events, MissingCalls(g.id, g.rules, existing[g.id]))
    else Refused(events, GroupCalls(g))
  }

  predicate HasId(groups: seq<Group>, id: Id) {
    exists g :: g in groups && g.id == id
  }

  ghost predicate GroupPhase(segments: seq<Trace>, groups: seq<Group>, existing: map<Id, set<Id>>, made: map<Id, seq<Rule>>) {
    && |segments| == |groups| && (forall i :: 0 <= i < |groups| ==> GroupDone(segments[i], groups[i], existing, made))
    && (forall id :: id in made ==> HasId(groups, id))
  }

  /** The bulk requests: group by group, in the order of the queue, of a group
      up to the first that fails. */
  ghost predicate BulkBegun(runs: seq<Trace>, queue: seq<Saved>) {
    |runs| <= |queue| && forall i :: 0 <= i < |runs| ==> Tried(runs[i], BulkCalls(queue[i]))
  }

  ghost predicate BulkPhase(runs: seq<Trace>, queue: seq<Saved>) {
    |runs| == |queue| && BulkBegun(runs, queue)
  }

  /** Where a run that did not finish was cut short: at a group, with no bulk
      request made, or at a bulk request, with all groups dealt with. */
  ghost predicate CutShort(segments: seq<Trace>, runs: seq<Trace>, groups: seq<Group>, existing: map<Id, set<Id>>,
                           made: map<Id, seq<Rule>>, ignoreErrors: bool) {
    if Ends(Flatten(segments), Survived(ignoreErrors)) then
      && runs == [] && 0 < |segments| <= |groups|
      && GroupPhase(segments[..|segments| - 1], groups[..|segments| - 1], existing, made)
      && GroupCut(segments[|segments| - 1], groups[|segments| - 1], existing)
    else GroupPhase(segments, groups, existing, made) && BulkBegun(runs, Queue(groups, made))
  }

  ghost predicate NoBulk(events: Trace) {
    forall e :: e in events ==> !e.call.BulkCreate?
  }

  ghost predicate OnlyBulk(events: Trace) {
    forall e :: e in events ==> e.call.BulkCreate?
  }

  lemma {:induction false} TriedIsBulk(events: Trace, saved: Saved)
    requires Tried(events, BulkCalls(saved))
    ensures OnlyBulk(events)
  {
    forall i | 0 <= i < |events| ensures events[i].call.BulkCreate? {
      if i < |events| - 1 && !Done(events, BulkCalls(saved)) {
        assert events[i] == events[..|events| - 1][i];
      }
    }
  }

  lemma {:induction false} QueueStart(queue: seq<Saved>)
    ensures BulkBegun([], queue[..0]) && OnlyBulk(Flatten([])) && Flatten<Event<Call, seq<Rule>>>([]) == []
  {
  }

  /** One saved group more. */
  lemma {:induction false} BulkMore(runs: seq<Trace>, more: Trace, queue: seq<Saved>, i: nat)
    requires i < |queue| && BulkPhase(runs, queue[..i]) && OnlyBulk(Flatten(runs)) && Tried(more, BulkCalls(queue[i]))
    ensures BulkPhase(runs + [more], queue[..i + 1]) && BulkBegun(runs + [more], queue)
    ensures OnlyBulk(Flatten(runs + [more]))
  {
    hide Tried, BulkCalls;
    TriedIsBulk(more, queue[i]);
    FlattenMore(runs, more);
    forall j | 0 <= j <= i ensures Tried((runs + [more])[j], BulkCalls(queue[j])) {
      if j < i { assert Tried(runs[j], BulkCalls(queue[..i][j])); }
    }
  }

  lemma {:induction false} GroupedEmpty(rules: seq<Rule>)
    ensures Grouped(rules) == [] <==> rules == []
  {
  }

  /** One group more, which is not among those made so far. */
  lemma {:induction false} PhaseStep(segments: seq<Trace>, groups: seq<Group>, i: nat, existing: map<Id, set<Id>>,
                                     made: map<Id, seq<Rule>>, more: Trace, defaults: Option<seq<Rule>>)
    requires DistinctIds(groups) && i < |groups| && GroupPhase(segments, groups[..i], existing, made)
    requires GroupDone(more, groups[i], existing, if defaults.Some? then map[groups[i].id := defaults.value] else map[])
    ensures var made' := if defaults.Some? then made[groups[i].id := defaults.value] else made;
            GroupPhase(segments + [more], groups[..i + 1], existing, made')
  {
    var g, made' := groups[i], if defaults.Some? then made[groups[i].id := defaults.value] else made;
    assert g.id !in made;
    forall j | 0 <= j <= i ensures GroupDone((segments + [more])[j], groups[j], existing, made') {
      if j < i { assert GroupDone(segments[j], groups[..i][j], existing, made); }
    }
    forall id | id in made' ensures HasId(groups[..i + 1], id) {
      if id in made {
        var h :| h in groups[..i] && h.id == id;
        assert h in groups[..i + 1];
      } else {
        assert groups[..i + 1][i] == g;
      }
    }
  }

  /** The queue grows only by a group made now. */
  lemma {:induction false} QueueStep(segments: seq<Trace>, groups: seq<Group>, i: nat, existing: map<Id, set<Id>>,
                                     made: map<Id, seq<Rule>>, defaults: seq<Rule>)
    requires DistinctIds(groups) && i < |groups| && GroupPhase(segments, groups[..i], existing, made)
    ensures Queue(groups[..i + 1], made) == Queue(groups[..i], made)
    ensures var kept := Kept(groups[i].rules, defaults);
            Queue(groups[..i + 1], made[groups[i].id := defaults]) ==
            Queue(groups[..i], made) + if kept == [] then [] else [Saved(groups[i].id, Grouped(kept))]
  {
    assert groups[..i + 1][..i] == groups[..i];
    QueueFrame(groups[..i], made, groups[i].id, defaults);
  }

  /** What was asked for does not depend on the rules still to come. */
  lemma {:induction false} AskedEarly(events: Trace, g: Group, n: nat, present: set<Id>)
    requires n <= |g.rules| && Asked(events, MissingCalls(g.id, g.rules[..n], present))
    ensures Asked(events, MissingCalls(g.id, g.rules, present))
    decreases |g.rules| - n
  {
    if n == |g.rules| {
      assert g.rules[..n] == g.rules;
    } else {
      assert g.rules[..n + 1][..n] == g.rules[..n];
      AskedEarly(events, g, n + 1, present);
    }
  }

  lemma {:induction false} MissingStart(g: Group, present: set<Id>)
    ensures Passed([], MissingCalls(g.id, g.rules[..0], present))
  {
  }

  lemma {:induction false} MissingStep(events: Trace, g: Group, i: nat, present: set<Id>)
    requires i < |g.rules| && Passed(events, MissingCalls(g.id, g.rules[..i], present))
    ensures g.rules[i].id in present ==> Passed(events, MissingCalls(g.id, g.rules[..i + 1], present))
  {
    assert g.rules[..i + 1][..i] == g.rules[..i];
  }

  /** One request more for a rule that is missing. */
  lemma {:induction false} MissingNext(events: Trace, g: Group, i: nat, present: set<Id>, e: Event<Call, seq<Rule>>, ignoreErrors: bool)
    requires i < |g.rules| && Passed(events, MissingCalls(g.id, g.rules[..i], present)) && Survives(events, Survived(ignoreErrors))
    requires g.rules[i].id !in present && e.call == RuleCreate(g.id, g.rules[i])
    ensures var goOn := e.answer.Created? || e.answer.Conflict?;
            && Ended(events + [e], goOn, Survived(ignoreErrors))
            && (forall j :: 0 <= j < |events| ==> events[j].answer.Created? || events[j].answer.Conflict?)
            && if goOn then Passed(events + [e], MissingCalls(g.id, g.rules[..i + 1], present))
               else Asked(events + [e], MissingCalls(g.id, g.rules, present))
  {
    assert g.rules[..i + 1][..i] == g.rules[..i];
    EndedThen(events, [e], e.answer.Created? || e.answer.Conflict?, Survived(ignoreErrors));
    AskedEarly(events + [e], g, i + 1, present);
  }

  /** If all were asked for, there is one request for each missing rule. */
  lemma {:induction false} MissingAsked(events: Trace, g: Group, present: set<Id>)
    requires Passed(events, MissingCalls(g.id, g.rules, present))
    ensures Asked(events, MissingCalls(g.id, g.rules, present))
    ensures forall i :: 0 <= i < |events| ==> events[i].answer.Created? || events[i].answer.Conflict?
    ensures exists missing: seq<Rule> ::
              IsFilter(missing, g.rules, Lacking(present)) && |events| == |missing|
              && forall i :: 0 <= i < |events| ==> events[i].call == RuleCreate(g.id, missing[i])
  {
    hide IsFilter, MissingCalls;
    var missing := MissingCallsAre(g.id, g.rules, present, Lacking(present));
  }

  // -------------------------------------------------------------- replay

  class Migration {
    const ignoreErrors: bool
    /** How the destination answers each call of the run, by its place. */
    const reply: nat -> Reply
    var trace: Trace
    var errors: nat

    constructor (ignoreErrors: bool, reply: nat -> Reply)
      ensures this.ignoreErrors == ignoreErrors && trace == [] && this.reply == reply && errors == 0 && Honest()
    {
      this.ignoreErrors, trace, this.reply, errors := ignoreErrors, [], reply, 0;
    }

    /** Each answer in the trace is the one that was given. */
    ghost predicate Honest()
      reads this`trace
    {
      forall i :: 0 <= i < |trace| ==> trace[i].answer == reply(i)
    }

    /** One request. */
    method Send(c: Call) returns (a: Reply)
      requires Honest()
      modifies `trace
      ensures Honest()
      ensures trace == old(trace) + [Event(c, a)]
    {
      a := reply(|trace|);
      trace := trace + [Event(c, a)];
    }

    /** An error is counted, or ends the program. */
    method AddError() returns (goOn: bool)
      modifies `errors
      ensures goOn == ignoreErrors && errors == old(errors) + if ignoreErrors then 1 else 0
    {
      if ignoreErrors { errors := errors + 1; }
      goOn := ignoreErrors;
    }

    /** The rules missing from a group that exists. A conflict is passed over;
        any other failure ends the migration. */
    method AddMissingRules(g: Group, present: set<Id>) returns (goOn: bool, ghost events: Trace)
      requires Honest()
      modifies `trace
      ensures Honest()
      ensures trace == old(trace) + events && NoBulk(events)
      ensures Asked(events, MissingCalls(g.id, g.rules, present)) && Ended(events, goOn, Survived(ignoreErrors))
      ensures goOn ==> Passed(events, MissingCalls(g.id, g.rules, present))
      ensures goOn ==> exists missing: seq<Rule> ::
                IsFilter(missing, g.rules, Lacking(present)) && |events| == |missing|
                && forall i :: 0 <= i < |events| ==> events[i].call == RuleCreate(g.id, missing[i])
      ensures forall i :: 0 <= i < |events| && (goOn || i < |events| - 1) ==> events[i].answer.Created? || events[i].answer.Conflict?
      ensures !goOn ==> events != [] && !events[|events| - 1].answer.Created? && !events[|events| - 1].answer.Conflict?
      ensures forall e :: e in events ==> e.call.RuleCreate?
    {
      hide IsFilter, MissingCalls, Passed, Asked, Survives, Ends, Survived, Honest;
      events, goOn := [], true;
      NotBothWays([], Survived(ignoreErrors));
      MissingStart(g, present);
      for i := 0 to |g.rules|
        invariant Honest() && trace == old(trace) + events && NoBulk(events)
        invariant Passed(events, MissingCalls(g.id, g.rules[..i], present)) && Survives(events, Survived(ignoreErrors))
        invariant forall e :: e in events ==> e.call.RuleCreate?
      {
        MissingStep(events, g, i, present);
        if g.rules[i].id !in present {
          var a := Send(RuleCreate(g.id, g.rules[i]));
          ghost var e := Event(RuleCreate(g.id, g.rules[i]), a);
          goOn := a.Created? || a.Conflict?;
          MissingNext(events, g, i, present, e, ignoreErrors);
          events := events + [e];
          if !goOn { return; }
        }
      }
      assert g.rules[..|g.rules|] == g.rules;
      MissingAsked(events, g, present);
    }

    /** Creates a group and its tags. */
    method CreateGroup(g: Group) returns (r: Option<seq<Rule>>, ghost events: Trace)
      requires Honest()
      modifies `trace
      ensures Honest()
      ensures trace == old(trace) + events && NoBulk(events)
      ensures if r.Some? then Done(events, GroupCalls(g)) && events[0].answer.value == r.value else Refused(events, GroupCalls(g))
      ensures Ended(events, r.Some? || ignoreErrors, Survived(ignoreErrors))
      ensures events != [] && events[0].call == GroupCreate(g.id) && |events| <= 1 + |g.tags|
      ensures forall i :: 0 <= i < |g.tags| && i + 1 < |events| ==> events[i + 1].call == TagAdd(g.id, g.tags[i])
      ensures forall i :: 0 <= i < |events| - 1 ==> events[i].answer.Created?
      ensures r.Some? <==> |events| == 1 + |g.tags| && events[|events| - 1].answer.Created?
    {
      hide Done, Refused, Honest, Ended, Survived, NoBulk, GroupCalls;
      GroupCallsAre(g);
      NothingTried<Call, seq<Rule>>(GroupCalls(g));
      var a := Send(GroupCreate(g.id));
      ghost var e := Event(GroupCreate(g.id), a);
      TryNext([], GroupCalls(g), 0, e);
      assert [] + [e] == [e];
      events := [e];
      if !a.Created? {
        GroupTried(events, g, ignoreErrors);
        return None, events;
      }
      for i := 0 to |g.tags|
        invariant Honest() && trace == old(trace) + events
        invariant |events| == i + 1 && events[0] == e && Done(events, GroupCalls(g)[..i + 1])
      {
        var t := Send(TagAdd(g.id, g.tags[i]));
        TryNext(events, GroupCalls(g), i + 1, Event(TagAdd(g.id, g.tags[i]), t));
        events := events + [Event(TagAdd(g.id, g.tags[i]), t)];
        if !t.Created? {
          GroupTried(events, g, ignoreErrors);
          return None, events;
        }
      }
      GroupTried(events, g, ignoreErrors);
      r := Some(a.value);
    }

    /** The loop over a new group's rules: what is kept, grouped by tenant. */
    method GroupRules(rules: seq<Rule>, defaults: seq<Rule>) returns (entries: seq<Entry>)
      ensures entries == Grouped(Kept(rules, defaults))
    {
      entries := [];
      for i := 0 to |rules|
        invariant entries == Grouped(Kept(rules[..i], defaults))
      {
        assert rules[..i + 1][..i] == rules[..i];
        var skip := exists d :: d in defaults && Matches(d, rules[i]);
        if !skip {
          var kept := Kept(rules[..i], defaults);
          assert (kept + [rules[i]])[..|kept|] == kept;
          entries := Add(entries, rules[i]);
        }
      }
      assert rules[..|rules|] == rules;
    }

    /** The saved requests of one group. */
    method SendRules(saved: Saved) returns (goOn: bool, ghost events: Trace)
      requires Honest()
      modifies this
      ensures Honest()
      ensures trace == old(trace) + events && Tried(events, BulkCalls(saved))
      ensures Ended(events, goOn, Survived(ignoreErrors))
      ensures |events| <= |saved.entries|
      ensures forall i :: 0 <= i < |events| ==> events[i].call == BulkCreate(saved.group, saved.entries[i].tenant, saved.entries[i].rules)
      ensures forall i :: 0 <= i < |events| - 1 ==> events[i].answer.Created?
      ensures |events| < |saved.entries| ==> events != [] && !events[|events| - 1].answer.Created?
      ensures goOn <==> ignoreErrors || events == [] || events[|events| - 1].answer.Created?
      ensures errors == old(errors) + Count(events, Noted(ignoreErrors))
    {
      events := [];
      ghost var calls := BulkCalls(saved);
      for i := 0 to |saved.entries|
        invariant errors == old(errors)
        invariant Honest() && trace == old(trace) + events && |events| == i && Done(events, calls[..i])
      {
        var c := BulkCreate(saved.group, saved.entries[i].tenant, saved.entries[i].rules);
        var a := Send(c);
        TryNext(events, calls, i, Event(c, a));
        events := events + [Event(c, a)];
        if !a.Created? {
          TriedEnds(events, calls, Survived(ignoreErrors));
          TriedCalls(events, calls);
          CountTried(events, calls, Noted(ignoreErrors));
          goOn := AddError();
          return;
        }
      }
      assert calls[..|calls|] == calls;
      TriedEnds(events, calls, Survived(ignoreErrors));
      TriedCalls(events, calls);
      CountTried(events, calls, Noted(ignoreErrors));
      goOn := true;
    }

    /** Each group is dealt with in turn; all bulk requests come after the last
        request for a group, and are those the groups made call for. */
    method MigrateSecurityGroups(groups: seq<Group>, existing: map<Id, set<Id>>)
      returns (finished: bool, ghost segments: seq<Trace>, ghost made: map<Id, seq<Rule>>, ghost runs: seq<Trace>)
      requires DistinctIds(groups)
      requires Honest()
      modifies this
      ensures Honest()
      ensures trace == old(trace) + Flatten(segments) + Flatten(runs)
      ensures NoBulk(Flatten(segments)) && OnlyBulk(Flatten(runs))
      ensures Ended(Flatten(segments) + Flatten(runs), finished, Survived(ignoreErrors))
      ensures errors == old(errors) + Count(Flatten(segments) + Flatten(runs), Noted(ignoreErrors))
      ensures if finished then GroupPhase(segments, groups, existing, made) && BulkPhase(runs, Queue(groups, made))
              else CutShort(segments, runs, groups, existing, made, ignoreErrors)
    {
      hide Noted, GroupCut, BulkBegun, Asked, Survives, Ends, Survived, GroupPhase, GroupDone, Queue, Kept, Grouped, DistinctIds, Flatten, Done, Refused, Passed;
      segments, made, runs := [], map[], [];
      var queue := [];
      Start(existing);
      NotBothWays([], Survived(ignoreErrors));
      assert groups[..0] == [];
      for i := 0 to |groups|
        invariant Honest() && trace == old(trace) + Flatten(segments) && NoBulk(Flatten(segments))
        invariant GroupPhase(segments, groups[..i], existing, made) && queue == Queue(groups[..i], made)
        invariant |segments| == i && Survives(Flatten(segments), Survived(ignoreErrors))
        invariant errors == old(errors) + Count(Flatten(segments), Noted(ignoreErrors))
      {
        var goOn, defaults;
        ghost var more;
        goOn, defaults, more := MigrateGroup(groups[i], existing);
        FlattenMore(segments, more);
        CountRound(segments, more, Noted(ignoreErrors));
        EndedThen(Flatten(segments), more, goOn, Survived(ignoreErrors));
        if !goOn {
          assert (segments + [more])[..i] == segments;
          segments := segments + [more];
          assert Flatten(segments) + Flatten(runs) == Flatten(segments);
          return false, segments, made, runs;
        }
        PhaseStep(segments, groups, i, existing, made, more, defaults);
        QueueStep(segments, groups, i, existing, made, if defaults.Some? then defaults.value else []);
        if defaults.Some? {
          made := made[groups[i].id := defaults.value];
          var entries := GroupRules(groups[i].rules, defaults.value);
          GroupedEmpty(Kept(groups[i].rules, defaults.value));
          if entries != [] { queue := queue + [Saved(groups[i].id, entries)]; }
        }
        segments := segments + [more];
      }
      assert groups[..|groups|] == groups;
      NotBothWays(Flatten(segments), Survived(ignoreErrors));
      finished, runs := SendQueue(queue);
      EndedThen(Flatten(segments), Flatten(runs), finished, Survived(ignoreErrors));
      CountThen(Flatten(segments), Flatten(runs), Noted(ignoreErrors));
    }

    /** One group: `goOn` is false if its failure ends the program. */
    method MigrateGroup(g: Group, existing: map<Id, set<Id>>) returns (goOn: bool, defaults: Option<seq<Rule>>, ghost events: Trace)
      requires Honest()
      modifies this
      ensures Honest()
      ensures trace == old(trace) + events && NoBulk(events)
      ensures if goOn then GroupDone(events, g, existing, if defaults.Some? then map[g.id := defaults.value] else map[])
              else GroupCut(events, g, existing)
      ensures g.id in existing ==> defaults == None && forall e :: e in events ==> e.call.RuleCreate?
      ensures g.id !in existing ==>
                && events != [] && events[0].call == GroupCreate(g.id)
                && (defaults.Some? <==> |events| == 1 + |g.tags| && events[|events| - 1].answer.Created?)
                && (goOn <==> defaults.Some? || ignoreErrors)
      ensures Ended(events, goOn, Survived(ignoreErrors))
      ensures errors == old(errors) + Count(events, Noted(ignoreErrors))
    {
      goOn, defaults := true, None;
      if g.id in existing {
        goOn, events := AddMissingRules(g, existing[g.id]);
        CountNone(events, Noted(ignoreErrors));
      } else {
        defaults, events := CreateGroup(g);
        CountTried(events, GroupCalls(g), Noted(ignoreErrors));
        GroupRefused(events, g);
        if defaults.None? { goOn := AddError(); }
      }
    }

    /** The second loop: each saved group in turn. */
    method SendQueue(queue: seq<Saved>) returns (finished: bool, ghost runs: seq<Trace>)
      requires Honest()
      modifies this
      ensures Honest()
      ensures trace == old(trace) + Flatten(runs) && OnlyBulk(Flatten(runs))
      ensures BulkBegun(runs, queue) && (finished ==> |runs| == |queue|)
      ensures Ended(Flatten(runs), finished, Survived(ignoreErrors))
      ensures errors == old(errors) + Count(Flatten(runs), Noted(ignoreErrors))
    {
      hide Tried, BulkCalls, BulkBegun, OnlyBulk, Flatten, Survives, Ends, Survived, Noted, Honest;
      NotBothWays([], Survived(ignoreErrors));
      runs := [];
      QueueStart(queue);
      for i := 0 to |queue|
        invariant Honest() && trace == old(trace) + Flatten(runs) && OnlyBulk(Flatten(runs)) && BulkPhase(runs, queue[..i])
        invariant Survives(Flatten(runs), Survived(ignoreErrors))
        invariant errors == old(errors) + Count(Flatten(runs), Noted(ignoreErrors))
      {
        ghost var more;
        finished, more := SendRules(queue[i]);
        BulkMore(runs, more, queue, i);
        CountRound(runs, more, Noted(ignoreErrors));
        RoundMore(old(trace), runs, more, finished, Survived(ignoreErrors));
        runs := runs + [more];
        if !finished { return; }
      }
      assert queue[..|queue|] == queue;
      finished := true;
    }
  }

  lemma {:induction false} GroupCallsAre(g: Group)
    ensures |GroupCalls(g)| == 1 + |g.tags| && GroupCalls(g)[0] == GroupCreate(g.id)
    ensures forall i :: 0 <= i < |g.tags| ==> GroupCalls(g)[i + 1] == TagAdd(g.id, g.tags[i])
    ensures forall c :: c in GroupCalls(g) ==> c.GroupCreate? || c.TagAdd?
  {
  }

  /** A group's own events: its creation and its tags, up to a refusal. */
  lemma {:induction false} GroupTried(events: Trace, g: Group, ignoreErrors: bool)
    requires Tried(events, GroupCalls(g))
    ensures NoBulk(events) && |events| <= 1 + |g.tags| && (events != [] ==> events[0].call == GroupCreate(g.id))
    ensures forall i :: 0 <= i < |g.tags| && i + 1 < |events| ==> events[i + 1].call == TagAdd(g.id, g.tags[i])
    ensures forall i :: 0 <= i < |events| - 1 ==> events[i].answer.Created?
    ensures Done(events, GroupCalls(g)) <==> |events| == 1 + |g.tags| && events[|events| - 1].answer.Created?
    ensures Done(events, GroupCalls(g)) ==> Ended(events, true, Survived(ignoreErrors))
    ensures Refused(events, GroupCalls(g)) ==> events != [] && !events[|events| - 1].answer.Created?
    ensures Refused(events, GroupCalls(g)) ==> Ended(events, ignoreErrors, Survived(ignoreErrors))
  {
    hide Done, Refused, Ends, Survives, GroupCalls;
    GroupCallsAre(g);
    TriedCalls(events, GroupCalls(g));
    GroupEnded(events, g, ignoreErrors);
  }

  lemma {:induction false} GroupEnded(events: Trace, g: Group, ignoreErrors: bool)
    ensures Done(events, GroupCalls(g)) ==> Ended(events, true, Survived(ignoreErrors))
    ensures Refused(events, GroupCalls(g)) ==> Ended(events, ignoreErrors, Survived(ignoreErrors))
  {
    TriedEnds(events, GroupCalls(g), Survived(ignoreErrors));
    GroupRefused(events, g);
    hide Done, Refused, GroupCalls, Ended;
  }

  lemma {:induction false} GroupRefused(events: Trace, g: Group)
    ensures Refused(events, GroupCalls(g)) ==> !events[|events| - 1].answer.Created? && !events[|events| - 1].call.RuleCreate?
    ensures !(Refused(events, GroupCalls(g)) && Done(events, GroupCalls(g)))
  {
  }

  lemma {:induction false} Start(existing: map<Id, set<Id>>)
    ensures GroupPhase([], [], existing, map[]) && Queue([], map[]) == [] && Flatten<Event<Call, seq<Rule>>>([]) == []
  {
  }
}
