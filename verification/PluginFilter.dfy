/**
 * Filtering of listed objects by the plugin of the requester's project: the
 * list is reduced in place while a copy of it is walked.
 */
module PluginFilter {
  import opened Filters
  import opened Options

  type Project = string
  type Plugin = string

  /** A listed object; `data` stands for its other fields. */
  datatype Entry = Entry(tenant: Option<Project>, data: int)
  datatype Result = Done | ObjectNotFound(id: Project)

  predicate HasTenant(e: Entry) {
    e.tenant.Some? && e.tenant.value != ""
  }

  /** Objects of no tenant, and of tenants whose project uses the plugin. */
  predicate Visible(e: Entry, mapping: map<Project, Plugin>, plugin: Plugin) {
    HasTenant(e) ==> e.tenant.value in mapping && mapping[e.tenant.value] == plugin
  }

  /** The order-preserving filter. */
  function Filter(entries: seq<Entry>, mapping: map<Project, Plugin>, plugin: Plugin): seq<Entry> {
    if entries == [] then [] else
    (if Visible(entries[0], mapping, plugin) then [entries[0]] else []) + Filter(entries[1..], mapping, plugin)
  }

  /** What is left is what was listed of no tenant and of the plugin's tenants, in
      that order. */
  lemma {:induction false} FilterKeeps(entries: seq<Entry>, mapping: map<Project, Plugin>, plugin: Plugin, keep: Entry -> bool)
    requires forall e :: keep(e) <==> e.tenant == None || e.tenant == Some("") || (e.tenant.value in mapping && mapping[e.tenant.value] == plugin)
    ensures IsFilter(Filter(entries, mapping, plugin), entries, keep)
  {
    hide IsFilter, Filter;
    if entries == [] {
      FilterNone(keep);
      NoneFiltered(mapping, plugin);
    } else {
      var rest, last := entries[..|entries| - 1], entries[|entries| - 1];
      FilterKeeps(rest, mapping, plugin, keep);
      FilterMore(rest, last, mapping, plugin);
      assert entries == rest + [last] && keep(last) == Visible(last, mapping, plugin);
      assert Filter(rest, mapping, plugin) + [] == Filter(rest, mapping, plugin);
      FilterLast(Filter(rest, mapping, plugin), Filter(entries, mapping, plugin), entries, keep);
    }
  }

  lemma {:induction false} NoneFiltered(mapping: map<Project, Plugin>, plugin: Plugin)
    ensures Filter([], mapping, plugin) == []
  {
  }

  /** Removal of the first element that equals `e`. */
  function RemoveFirst(entries: seq<Entry>, e: Entry): seq<Entry>
    requires e in entries
  {
    if entries[0] == e then entries[1..] else [entries[0]] + RemoveFirst(entries[1..], e)
  }

  lemma {:induction false} RemoveFirstAt(a: seq<Entry>, e: Entry, b: seq<Entry>)
    requires e !in a
    ensures RemoveFirst(a + [e] + b, e) == a + b
  {
    if a == [] {
      assert a + [e] + b == [e] + b;
    } else {
      assert (a + [e] + b)[1..] == a[1..] + [e] + b;
      RemoveFirstAt(a[1..], e, b);
    }
  }

  lemma {:induction false} FilterMore(entries: seq<Entry>, e: Entry, mapping: map<Project, Plugin>, plugin: Plugin)
    ensures Filter(entries + [e], mapping, plugin) ==
            Filter(entries, mapping, plugin) + if Visible(e, mapping, plugin) then [e] else []
  {
    if entries != [] {
      assert (entries + [e])[1..] == entries[1..] + [e];
      FilterMore(entries[1..], e, mapping, plugin);
    }
  }

  /** The filter holds visible entries only, each as often as the list does. */
  lemma {:induction false} FilterCounts(entries: seq<Entry>, e: Entry, mapping: map<Project, Plugin>, plugin: Plugin)
    ensures multiset(Filter(entries, mapping, plugin))[e] == if Visible(e, mapping, plugin) then multiset(entries)[e] else 0
  {
    if entries != [] {
      var rest, first := entries[1..], entries[0];
      FilterCounts(rest, e, mapping, plugin);
      assert entries == [first] + rest;
      if Visible(first, mapping, plugin) {
        assert Filter(entries, mapping, plugin) == [first] + Filter(rest, mapping, plugin);
      } else {
        assert Filter(entries, mapping, plugin) == Filter(rest, mapping, plugin);
      }
    }
  }

  /** Walking past one entry: it stays, or its first equal is the one removed. */
  lemma {:induction false} FilterStep(snapshot: seq<Entry>, i: nat, mapping: map<Project, Plugin>, plugin: Plugin)
    requires i < |snapshot|
    ensures var now := Filter(snapshot[..i], mapping, plugin) + snapshot[i..];
            var next := Filter(snapshot[..i + 1], mapping, plugin) + snapshot[i + 1..];
            snapshot[i] in now && next == if Visible(snapshot[i], mapping, plugin) then now else RemoveFirst(now, snapshot[i])
  {
    var entry, kept, rest := snapshot[i], Filter(snapshot[..i], mapping, plugin), snapshot[i + 1..];
    assert snapshot[..i + 1] == snapshot[..i] + [entry];
    FilterMore(snapshot[..i], entry, mapping, plugin);
    assert kept + snapshot[i..] == kept + [entry] + rest;
    if !Visible(entry, mapping, plugin) {
      FilterCounts(snapshot[..i], entry, mapping, plugin);
      assert entry !in kept by { assert entry in kept <==> multiset(kept)[entry] > 0; }
      RemoveFirstAt(kept, entry, rest);
    }
  }

  lemma {:induction false} FilterEnds(snapshot: seq<Entry>, mapping: map<Project, Plugin>, plugin: Plugin)
    ensures Filter(snapshot[..0], mapping, plugin) + snapshot[0..] == snapshot
    ensures Filter(snapshot[..|snapshot|], mapping, plugin) + snapshot[|snapshot|..] == Filter(snapshot, mapping, plugin)
  {
    assert snapshot[..|snapshot|] == snapshot;
  }

  class EntryList {
    var entries: seq<Entry>

    constructor (entries: seq<Entry>)
      ensures this.entries == entries
    {
      this.entries := entries;
    }

    method Remove(e: Entry)
      requires e in entries
      modifies this
      ensures entries == RemoveFirst(old(entries), e)
    {
      var i := 0;
      while entries[i] != e
        invariant i < |entries| && e in entries[i..] && e !in entries[..i]
        decreases |entries| - i
      {
        i := i + 1;
      }
      RemoveFirstAt(entries[..i], e, entries[i + 1..]);
      assert entries == entries[..i] + [e] + entries[i + 1..];
      entries := entries[..i] + entries[i + 1..];
    }

    /** Without a project, or with nothing listed, the list stays; if the
        requester's project has no plugin it stays as well and the call fails. */
    method FilterResultsByPlugin(project: Option<Project>, mapping: map<Project, Plugin>) returns (r: Result)
      modifies this
      ensures project.None? || project.value == "" || old(entries) == [] ==> r == Done && entries == old(entries)
      ensures project.Some? && project.value != "" && old(entries) != [] ==>
                if project.value in mapping then r == Done && entries == Filter(old(entries), mapping, mapping[project.value])
                else r == ObjectNotFound(project.value) && entries == old(entries)
    {
      if project.None? || project.value == "" || entries == [] {
        return Done;
      }
      if project.value !in mapping {
        return ObjectNotFound(project.value);
      }
      var plugin := mapping[project.value];
      var snapshot := entries;
      hide Filter, RemoveFirst;
      FilterEnds(snapshot, mapping, plugin);
      for i := 0 to |snapshot|
        invariant entries == Filter(snapshot[..i], mapping, plugin) + snapshot[i..]
      {
        var entry := snapshot[i];
        FilterStep(snapshot, i, mapping, plugin);
        if HasTenant(entry) {
          if entry.tenant.value !in mapping || mapping[entry.tenant.value] != plugin {
            Remove(entry);
          }
        }
      }
      r := Done;
    }
  }
}
