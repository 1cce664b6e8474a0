/** Model of internal/controller/config: durable capability intent, kept as a list
    that is spliced, sorted, checked and written as a whole. */
module ConfigManager {
  import opened Ordering
  import opened Capability

  type Durable = map<string, Configuration>

  // ----- The list as a map

  predicate DistinctIds(s: seq<Configuration>) {
    forall i, j :: 0 <= i < j < |s| ==> s[i].id != s[j].id
  }

  function AsMap(s: seq<Configuration>): Durable {
    if |s| == 0 then map[] else AsMap(s[..|s| - 1])[s[|s| - 1].id := s[|s| - 1]]
  }

  /** The map holds exactly the listed configurations, each under its own id. */
  ghost predicate Lists(s: seq<Configuration>, m: Durable) {
    && (forall c :: c in s ==> c.id in m && m[c.id] == c)
    && (forall id :: id in m ==> m[id].id == id && m[id] in s)
  }

  lemma {:induction false} AsMapLists(s: seq<Configuration>)
    requires DistinctIds(s)
    ensures Lists(s, AsMap(s))
  {
    if |s| != 0 {
      var n := |s| - 1;
      AsMapLists(s[..n]);
      assert s == s[..n] + [s[n]];
      forall c | c in s[..n] ensures c.id != s[n].id { var i :| 0 <= i < n && s[i] == c; }
    }
  }

  lemma ListedMapIsUnique(s: seq<Configuration>, m: Durable)
    requires DistinctIds(s) && Lists(s, m)
    ensures AsMap(s) == m
  {
    AsMapLists(s);
    assert AsMap(s).Keys == m.Keys;
  }

  function IdOf(c: Configuration): string { c.id }

  // ----- Replacing one entry

  datatype Replaced = Replaced(durable: Durable, previous: Option<Configuration>, changed: bool, ok: bool)

  function Lookup(d: Durable, id: string): Option<Configuration> {
    if id in d then Some(d[id]) else None
  }

  /** What `ReplaceCapability` does to durable intent; `writes` says whether the
      atomic file replacement would succeed. */
  function Replace(reg: Registry, d: Durable, id: string, next: Option<Configuration>, writes: bool): Replaced {
    if next.Some? && (next.value.id != id || !ValidConfiguration(reg, next.value)) then Replaced(d, None, false, false)
    else if next == Lookup(d, id) then Replaced(d, next, false, true)
    else if !writes then Replaced(d, Lookup(d, id), false, false)
    else Replaced(if next.Some? then d[id := next.value] else d - {id}, Lookup(d, id), true, true)
  }

  /** Replacing keeps every other entry, and a success makes the entry what was
      asked for. */
  lemma ReplaceMeaning(reg: Registry, d: Durable, id: string, next: Option<Configuration>, writes: bool)
    ensures var r := Replace(reg, d, id, next, writes);
            && (r.ok ==> Lookup(r.durable, id) == next)
            && (!r.ok ==> r.durable == d)
            && (forall other :: other != id ==> Lookup(r.durable, other) == Lookup(d, other))
            && (ValidConfigured(reg, d) ==> ValidConfigured(reg, r.durable))
  {
  }

  /** Replacing succeeds exactly when the entry is valid for its id and either nothing
      would change or the file can be written; it reports a change exactly when there was
      one, and what was there before. */
  lemma ReplaceSucceedsExactly(reg: Registry, d: Durable, id: string, next: Option<Configuration>, writes: bool)
    ensures var r := Replace(reg, d, id, next, writes);
            && (r.ok <==>
                && (next.Some? ==> next.value.id == id && ValidConfiguration(reg, next.value))
                && (next == Lookup(d, id) || writes))
            && (r.changed <==> r.durable != d) && (r.ok ==> r.previous == Lookup(d, id))
  {
    ReplaceMeaning(reg, d, id, next, writes);
  }

  // ----- Splicing and sorting the list

  /** The list without, with another, or with one more entry. */
  function Splice(s: seq<Configuration>, index: int, next: Option<Configuration>): seq<Configuration>
    requires -1 <= index < |s| && (index == -1 ==> next.Some?)
  {
    if next.None? then s[..index] + s[index + 1..]
    else if index >= 0 then s[index := next.value]
    else s + [next.value]
  }

  lemma RemoveLists(s: seq<Configuration>, index: int, m: Durable)
    requires DistinctIds(s) && Lists(s, m) && 0 <= index < |s|
    ensures var t := s[..index] + s[index + 1..]; DistinctIds(t) && Lists(t, m - {s[index].id})
  {
    var t := s[..index] + s[index + 1..];
    forall c | c in t ensures c in s && c.id != s[index].id {
      var i :| 0 <= i < |t| && t[i] == c;
      assert c == if i < index then s[i] else s[i + 1];
    }
    forall c | c in s && c.id != s[index].id ensures c in t {
      var i :| 0 <= i < |s| && s[i] == c;
      assert c == if i < index then t[i] else t[i - 1];
    }
  }

  lemma UpdateLists(s: seq<Configuration>, index: int, c: Configuration, m: Durable)
    requires DistinctIds(s) && Lists(s, m) && 0 <= index < |s| && s[index].id == c.id
    ensures DistinctIds(s[index := c]) && Lists(s[index := c], m[c.id := c])
  {
    var t := s[index := c];
    forall x | x in t ensures x == c || (x in s && x.id != c.id) {
      var i :| 0 <= i < |t| && t[i] == x;
    }
    forall x | x in s && x.id != c.id ensures x in t {
      var i :| 0 <= i < |s| && s[i] == x;
      assert t[i] == x;
    }
    assert t[index] == c;
  }

  lemma AppendLists(s: seq<Configuration>, c: Configuration, m: Durable)
    requires DistinctIds(s) && Lists(s, m) && forall i :: 0 <= i < |s| ==> s[i].id != c.id
    ensures DistinctIds(s + [c]) && Lists(s + [c], m[c.id := c])
  {
    assert (s + [c])[|s|] == c;
    forall x | x in s ensures x.id != c.id && x in s + [c] {
      var i :| 0 <= i < |s| && s[i] == x;
      assert (s + [c])[i] == x;
    }
  }

  function Target(m: Durable, id: string, next: Option<Configuration>): Durable {
    if next.Some? then m[id := next.value] else m - {id}
  }

  lemma SpliceLists(s: seq<Configuration>, index: int, id: string, next: Option<Configuration>, m: Durable)
    requires DistinctIds(s) && Lists(s, m)
    requires -1 <= index < |s| && (index == -1 ==> next.Some?)
    requires if index == -1 then forall i :: 0 <= i < |s| ==> s[i].id != id else s[index].id == id
    requires next.Some? ==> next.value.id == id
    ensures DistinctIds(Splice(s, index, next)) && Lists(Splice(s, index, next), Target(m, id, next))
  {
    if next.None? { RemoveLists(s, index, m); }
    else if index >= 0 { UpdateLists(s, index, next.value, m); }
    else { AppendLists(s, next.value, m); }
  }

  lemma SortLists(s: seq<Configuration>, m: Durable)
    requires DistinctIds(s) && Lists(s, m)
    ensures var t := SortBy(s, IdOf);
            DistinctIds(t) && Lists(t, m) && SortedBy(t, IdOf)
  {
    var t := SortBy(s, IdOf);
    SortBySorts(s, IdOf);
    PermutationKeepsDistinct(s, t);
    assert Distinct(s) by {
      forall i, j | 0 <= i < j < |s| ensures s[i] != s[j] { assert s[i].id != s[j].id; }
    }
    forall i, j | 0 <= i < j < |t| ensures t[i].id != t[j].id {
      assert t[i] != t[j] && t[i] in s && t[j] in s;
      assert m[t[i].id] == t[i] && m[t[j].id] == t[j];
    }
  }

  /** `validate`: no empty id and no id twice. */
  method ValidateList(s: seq<Configuration>) returns (ok: bool)
    ensures ok <==> DistinctIds(s) && forall i :: 0 <= i < |s| ==> s[i].id != ""
  {
    var seen: set<string> := {};
    for i := 0 to |s|
      invariant forall j :: 0 <= j < i ==> s[j].id != ""
      invariant forall j :: 0 <= j < i ==> s[j].id in seen
      invariant forall id :: id in seen ==> exists j :: 0 <= j < i && s[j].id == id
      invariant DistinctIds(s[..i])
    {
      if s[i].id == "" || s[i].id in seen {
        return false;
      }
      seen := seen + {s[i].id};
    }
    assert s[..|s|] == s;
    ok := true;
  }

  class Manager {
    const registry: Registry
    /** The in-memory list, and the list in config.json. */
    var current: seq<Configuration>
    var disk: seq<Configuration>

    ghost predicate Valid()
      reads this
    {
      && ConsistentRegistry(registry) && current == disk && DistinctIds(current)
      && forall i :: 0 <= i < |current| ==> ValidConfiguration(registry, current[i])
    }

    ghost function View(): Durable
      reads this
    { AsMap(current) }

    lemma ViewIsValid()
      requires Valid()
      ensures ValidConfigured(registry, View()) && Lists(current, View())
    {
      AsMapLists(current);
    }

    constructor (reg: Registry, initial: seq<Configuration>)
      requires ConsistentRegistry(reg) && DistinctIds(initial)
      requires forall i :: 0 <= i < |initial| ==> ValidConfiguration(reg, initial[i])
      ensures Valid() && registry == reg && View() == AsMap(initial)
    {
      registry, current, disk := reg, initial, initial;
    }

    method Capability(id: string) returns (r: Option<Configuration>)
      requires Valid()
      ensures r == Lookup(View(), id)
    {
      AsMapLists(current);
      for i := 0 to |current|
        invariant forall j :: 0 <= j < i ==> current[j].id != id
      {
        if current[i].id == id {
          assert current[i] in current;
          return Some(current[i]);
        }
      }
      return None;
    }

    method Find(id: string) returns (index: int)
      ensures -1 <= index < |current|
      ensures if index == -1 then forall i :: 0 <= i < |current| ==> current[i].id != id else current[index].id == id
    {
      for i := 0 to |current|
        invariant forall j :: 0 <= j < i ==> current[j].id != id
      {
        if current[i].id == id { return i; }
      }
      return -1;
    }

    /** The spliced and sorted list. */
    method Proposed(index: int, id: string, next: Option<Configuration>) returns (candidate: seq<Configuration>)
      requires Valid()
      requires -1 <= index < |current| && (index == -1 ==> next.Some?)
      requires if index == -1 then forall i :: 0 <= i < |current| ==> current[i].id != id else current[index].id == id
      requires next.Some? ==> next.value.id == id && ValidConfiguration(registry, next.value)
      ensures SortedBy(candidate, IdOf) && DistinctIds(candidate) && Lists(candidate, Target(View(), id, next))
      ensures forall i :: 0 <= i < |candidate| ==> candidate[i].id != "" && ValidConfiguration(registry, candidate[i])
    {
      AsMapLists(current);
      candidate := Splice(current, index, next);
      SpliceLists(current, index, id, next, View());
      SortLists(candidate, Target(View(), id, next));
      candidate := SortBy(candidate, IdOf);
      ViewIsValid();
      forall i | 0 <= i < |candidate| ensures candidate[i].id != "" && ValidConfiguration(registry, candidate[i]) {
        assert candidate[i] in candidate;
        if candidate[i].id != id { assert candidate[i] == View()[candidate[i].id]; }
      }
    }

    /** Replaces, adds or removes one entry: memory and disk change together or
        not at all, the written list is sorted, and the only possible failures are
        an invalid entry and a failed write. */
    method ReplaceCapability(id: string, next: Option<Configuration>, writes: bool)
      returns (previous: Option<Configuration>, changed: bool, ok: bool)
      requires Valid()
      modifies this
      ensures Valid()
      ensures Replaced(View(), previous, changed, ok) == Replace(registry, old(View()), id, next, writes)
      ensures !changed ==> current == old(current)
      ensures changed ==> SortedBy(current, IdOf)
    {
      if next.Some? && (next.value.id != id || !ValidConfiguration(registry, next.value)) {
        return None, false, false;
      }
      var m := Capability(id);
      var index := Find(id);
      AsMapLists(current);
      previous := m;
      if next == m {
        return previous, false, true;
      }
      assert index == -1 <==> m.None? by {
        if index != -1 { assert current[index] in current; }
      }
      ghost var before := View();
      var candidate := Proposed(index, id, next);
      var accepted := ValidateList(candidate);
      if !accepted {
        assert false;
      }
      if !writes {
        return previous, false, false;
      }
      disk := candidate;
      current := candidate;
      ListedMapIsUnique(current, Target(before, id, next));
      return previous, true, true;
    }
  }
}
