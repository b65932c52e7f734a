/** The layered item catalog: a lookup that walks the chain of layers against a listing that flattens it. */
module Catalogs {
  import opened Prelude

  /** An item with its key fields; the rest of its columns travel with it. */
  datatype Item = Item(id: string, icon: string)

  /** A version's view: its own items and removals over its parent's. */
  datatype Chain = Nil | Layer(items: map<string, Item>, removed: set<string>, parent: Chain)

  /** The lookup: this layer's removals, then its items, then the parent. */
  function Find(c: Chain, id: string): Option<Item> {
    if c.Nil? || id in c.removed then None
    else if id in c.items then Some(c.items[id])
    else Find(c.parent, id)
  }

  // ---- The listing ----

  /** The map the whole chain is flattened into, base layer first. */
  class Accumulator {
    var entries: map<string, Item>

    constructor ()
      ensures entries == map[]
    {
      entries := map[];
    }

    method CollectItems(c: Chain)
      modifies this
      ensures entries == Flatten(c, old(entries))
      decreases c
    {
      if c.Layer? {
        CollectItems(c.parent);
        Delete(c.removed);
        Define(c.items);
      }
    }

    method Delete(removed: set<string>)
      modifies this
      ensures entries == old(entries) - removed
    {
      var todo := removed;
      while todo != {}
        invariant todo <= removed && entries == old(entries) - (removed - todo)
        decreases |todo|
      {
        var id :| id in todo;
        entries := entries - {id};
        todo := todo - {id};
      }
    }

    method Define(items: map<string, Item>)
      modifies this
      ensures entries == old(entries) + items
    {
      var todo := items.Keys;
      while todo != {}
        invariant todo <= items.Keys && entries == old(entries) + (items - todo)
        decreases |todo|
      {
        var id :| id in todo;
        entries := entries[id := items[id]];
        todo := todo - {id};
      }
    }
  }

  /** Each layer removes first and defines after. */
  function Flatten(c: Chain, acc: map<string, Item>): map<string, Item> {
    if c.Nil? then acc else (Flatten(c.parent, acc) - c.removed) + c.items
  }

  function Listed(c: Chain, id: string): Option<Item> {
    var all := Flatten(c, map[]);
    if id in all then Some(all[id]) else None
  }

  // ---- Sorting by id ----

  predicate AtMost(a: string, b: string) { a == b || Less(a, b) }

  predicate SortedById(s: seq<Item>) { forall i, j :: 0 <= i < j < |s| ==> AtMost(s[i].id, s[j].id) }

  predicate StrictlySorted(s: seq<Item>) { forall i, j :: 0 <= i < j < |s| ==> Less(s[i].id, s[j].id) }

  predicate DistinctIds(s: seq<Item>) { forall i, j :: 0 <= i < j < |s| ==> s[i].id != s[j].id }

  lemma AtMostIsTransitive(a: string, b: string, c: string)
    requires AtMost(a, b) && AtMost(b, c)
    ensures AtMost(a, c)
  {
    if Less(a, b) && Less(b, c) { LessIsTransitive(a, b, c); }
  }

  /** Places an item behind every smaller one. */
  method InsertById(s: seq<Item>, it: Item) returns (r: seq<Item>)
    requires SortedById(s)
    ensures SortedById(r) && multiset(r) == multiset(s) + multiset{it}
  {
    var k := 0;
    while k < |s| && Less(s[k].id, it.id)
      invariant 0 <= k <= |s|
      invariant forall j :: 0 <= j < k ==> Less(s[j].id, it.id)
    {
      k := k + 1;
    }
    forall j | k <= j < |s| ensures AtMost(it.id, s[j].id) {
      LessIsTotal(s[k].id, it.id);
      if j > k { AtMostIsTransitive(it.id, s[k].id, s[j].id); }
    }
    r := s[..k] + [it] + s[k..];
    assert s == s[..k] + s[k..];
  }

  method SortById(s: seq<Item>) returns (r: seq<Item>)
    ensures SortedById(r) && multiset(r) == multiset(s)
  {
    r := [];
    for i := 0 to |s|
      invariant SortedById(r) && multiset(r) == multiset(s[..i])
    {
      assert s[..i + 1] == s[..i] + [s[i]];
      r := InsertById(r, s[i]);
    }
    assert s[..|s|] == s;
  }

  /** The flattened chain as a list, sorted by id: of a consistent, keyed chain exactly what the lookup finds. */
  method Items(c: Chain) returns (out: seq<Item>)
    ensures SortedById(out)
    ensures forall it :: it in out <==> exists id :: Listed(c, id) == Some(it)
    ensures Keyed(c) ==> StrictlySorted(out)
    ensures Keyed(c) && Consistent(c) ==> forall it :: it in out <==> Find(c, it.id) == Some(it)
  {
    var acc := new Accumulator();
    acc.CollectItems(c);
    var list := Values(acc.entries);
    out := SortById(list);
    SameMembers(list, out);
    assert forall id :: Listed(c, id) == if id in acc.entries then Some(acc.entries[id]) else None;
    if Keyed(c) {
      forall id | id in acc.entries ensures acc.entries[id].id == id { KeyedFlatten(c, id); }
      SortedAndDistinct(list, out);
      if Consistent(c) { ListsWhatItFinds(c, out); }
    }
  }

  method Values(all: map<string, Item>) returns (list: seq<Item>)
    ensures forall it :: it in list <==> exists id :: id in all && all[id] == it
    ensures (forall id :: id in all ==> all[id].id == id) ==> DistinctIds(list)
  {
    var todo := all.Keys;
    list := [];
    while todo != {}
      invariant todo <= all.Keys
      invariant forall id :: id in all && id !in todo ==> all[id] in list
      invariant forall it :: it in list ==> exists id :: id in all && id !in todo && all[id] == it
      invariant (forall id :: id in all ==> all[id].id == id) ==> DistinctIds(list)
      decreases |todo|
    {
      var id :| id in todo;
      assert forall i :: 0 <= i < |list| ==> list[i] in list;
      list := list + [all[id]];
      todo := todo - {id};
    }
  }

  lemma SameMembers(s: seq<Item>, t: seq<Item>)
    requires multiset(s) == multiset(t)
    ensures forall it :: it in s <==> it in t
  {
    forall it ensures it in s <==> it in t {
      assert it in s <==> it in multiset(s);
      assert it in t <==> it in multiset(t);
    }
  }

  /** Sorting items with distinct ids leaves them strictly ascending. */
  lemma {:induction false} SortedAndDistinct(s: seq<Item>, t: seq<Item>)
    requires multiset(s) == multiset(t) && DistinctIds(s) && SortedById(t)
    ensures StrictlySorted(t)
  {
    forall i, j | 0 <= i < j < |t| ensures Less(t[i].id, t[j].id) {
      if t[i].id == t[j].id {
        SameMembers(s, t);
        assert t[i] in s && t[j] in s;
        OncePerId(s, t[i]);
        TwiceInside(t, i, j);
        assert false;
      }
    }
  }

  lemma {:induction false} OncePerId(s: seq<Item>, it: Item)
    requires DistinctIds(s)
    ensures multiset(s)[it] <= 1
  {
    if s != [] {
      var init := s[..|s| - 1];
      assert s == init + [s[|s| - 1]];
      OncePerId(init, it);
      if it == s[|s| - 1] { assert it !in init; }
    }
  }

  lemma TwiceInside(t: seq<Item>, i: nat, j: nat)
    requires i < j < |t| && t[i] == t[j]
    ensures multiset(t)[t[i]] >= 2
  {
    assert t == t[..j] + t[j..];
    assert t[i] in t[..j] && t[i] in t[j..];
    assert t[..j][i] == t[i] && t[j..][0] == t[j];
  }

  // ---- The two agree ----

  /** Every layer files its items under their own ids. */
  predicate Keyed(c: Chain) {
    c.Nil? || ((forall id :: id in c.items ==> c.items[id].id == id) && Keyed(c.parent))
  }

  lemma {:induction false} KeyedFlatten(c: Chain, id: string)
    requires Keyed(c) && id in Flatten(c, map[])
    ensures Flatten(c, map[])[id].id == id
  {
    if c.Layer? && id !in c.items { KeyedFlatten(c.parent, id); }
  }

  /** The topmost layer that mentions the id both removes and defines it. */
  predicate Contradicts(c: Chain, id: string) {
    c.Layer? &&
    if id in c.removed || id in c.items then id in c.removed && id in c.items else Contradicts(c.parent, id)
  }

  /** For every id the listing and the lookup agree exactly when the topmost layer that mentions it is consistent. */
  lemma {:induction false} AgreeExactly(c: Chain, id: string)
    ensures Listed(c, id) == Find(c, id) <==> !Contradicts(c, id)
  {
    if c.Layer? { AgreeExactly(c.parent, id); }
  }

  /** No layer both removes and defines an id. */
  predicate Consistent(c: Chain) { c.Nil? || (c.removed !! c.items.Keys && Consistent(c.parent)) }

  lemma {:induction false} ConsistentNeverContradicts(c: Chain, id: string)
    requires Consistent(c)
    ensures !Contradicts(c, id)
  {
    if c.Layer? { ConsistentNeverContradicts(c.parent, id); }
  }

  /** A layer that removes and defines the same id would show it in the listing and hide it from the lookup. */
  lemma RemovedAndDefined(it: Item)
    ensures var c := Layer(map[it.id := it], {it.id}, Nil);
      Find(c, it.id) == None && Listed(c, it.id) == Some(it)
  {
  }

  /**
   * Of a consistent, keyed chain of any length the listing is exactly what the lookup finds: every item under its
   * id with the value the lookup gives, ids removed in one layer and defined again in a later one included.
   */
  lemma ListsWhatItFinds(c: Chain, out: seq<Item>)
    requires Consistent(c) && Keyed(c)
    requires forall it :: it in out <==> exists id :: Listed(c, id) == Some(it)
    ensures forall it :: it in out <==> Find(c, it.id) == Some(it)
  {
    forall it ensures it in out <==> Find(c, it.id) == Some(it) {
      ConsistentNeverContradicts(c, it.id);
      AgreeExactly(c, it.id);
      if it in out {
        var id :| Listed(c, id) == Some(it);
        KeyedFlatten(c, id);
      }
    }
  }

  // ---- The generator's layers ----

  type Dataset = map<string, Item>

  function Lookup(data: Dataset, id: string): Option<Item> { if id in data then Some(data[id]) else None }

  predicate KeyedDataset(data: Dataset) { forall id :: id in data ==> data[id].id == id }

  /** The entries that are new or other than the parent's. */
  function Delta(parent: Dataset, eff: Dataset): Dataset {
    map id | id in eff && Lookup(parent, id) != Some(eff[id]) :: eff[id]
  }

  /** What a new version adds to the chain its parent version stands for. */
  function Release(c: Chain, parent: Dataset, eff: Dataset): Chain {
    Layer(Delta(parent, eff), parent.Keys - eff.Keys, c)
  }

  /** Reduces a dataset to its difference from the parent: what changed, and the ids that went, sorted. */
  method DeltaDataset(parent: Dataset, eff: Dataset) returns (items: Dataset, removed: seq<string>)
    ensures items == Delta(parent, eff)
    ensures Ascending(removed)
    ensures forall id :: id in removed <==> id in parent && id !in eff
  {
    items := DeltaItems(parent, eff);
    removed := [];
    var todo := parent.Keys;
    while todo != {}
      invariant todo <= parent.Keys
      invariant forall id :: id in removed <==> id in parent && id !in eff && id !in todo
      decreases |todo|
    {
      var id :| id in todo;
      if id !in eff { removed := removed + [id]; }
      todo := todo - {id};
    }
    removed := SortStrings(removed);
  }

  method DeltaItems(parent: Dataset, eff: Dataset) returns (items: Dataset)
    ensures items == Delta(parent, eff)
  {
    items := map[];
    var todo := eff.Keys;
    while todo != {}
      invariant todo <= eff.Keys && items.Keys <= eff.Keys - todo
      invariant forall id :: id in eff && id !in todo ==> Lookup(items, id) == Lookup(Delta(parent, eff), id)
      decreases |todo|
    {
      var id :| id in todo;
      if id !in parent || parent[id] != eff[id] { items := items[id := eff[id]]; }
      todo := todo - {id};
    }
    forall id | id in Delta(parent, eff) ensures id in items && items[id] == eff[id] {
      assert Lookup(items, id) == Lookup(Delta(parent, eff), id);
    }
    forall id | id in items ensures id in Delta(parent, eff) {
      assert Lookup(items, id) == Lookup(Delta(parent, eff), id);
    }
  }

  /** The chain of a history of datasets: the first version carries all of its own, each later one its difference. */
  function Released(history: seq<Dataset>): Chain {
    if history == [] then Nil
    else
      var n := |history| - 1;
      if n == 0 then Layer(history[0], {}, Nil)
      else Release(Released(history[..n]), history[n - 1], history[n])
  }

  /** The layers the generator emits are consistent, and keyed where the datasets are: what `Items` asks of a chain. */
  lemma {:induction false} ReleasesAreConsistent(history: seq<Dataset>)
    ensures Consistent(Released(history))
    ensures (forall k :: 0 <= k < |history| ==> KeyedDataset(history[k])) ==> Keyed(Released(history))
  {
    if |history| > 1 { ReleasesAreConsistent(history[..|history| - 1]); }
  }

  /** Round trip: laying the differences of any history over each other gives the last dataset back. */
  lemma {:induction false} ReleasesFlattenToTheLast(history: seq<Dataset>)
    requires history != []
    ensures Flatten(Released(history), map[]) == history[|history| - 1]
  {
    var n := |history| - 1;
    if n > 0 {
      var before := history[..n];
      ReleasesFlattenToTheLast(before);
      DeltaRestores(history[n - 1], history[n]);
    }
  }

  lemma DeltaRestores(parent: Dataset, eff: Dataset)
    ensures (parent - (parent.Keys - eff.Keys)) + Delta(parent, eff) == eff
  {
    var all := (parent - (parent.Keys - eff.Keys)) + Delta(parent, eff);
    forall id | id in eff ensures id in all && all[id] == eff[id] {
      if id in parent && parent[id] == eff[id] { assert id !in Delta(parent, eff); }
    }
    assert all.Keys == eff.Keys;
  }

  /** Of every version of every history the lookup finds exactly the items of that version's dataset. */
  lemma EveryVersionFindsItsDataset(history: seq<Dataset>, id: string)
    requires history != []
    ensures Find(Released(history), id) == Lookup(history[|history| - 1], id)
  {
    ReleasesAreConsistent(history);
    ReleasesFlattenToTheLast(history);
    ConsistentNeverContradicts(Released(history), id);
    AgreeExactly(Released(history), id);
  }

  /**
   * A parent generated again under a version already cut from it: the version still finds its own item under an id
   * exactly when the two datasets differed there, so that it carries the id itself, or the parent still agrees.
   */
  lemma ParentOverwritten(c: Chain, parent: Dataset, eff: Dataset, id: string)
    ensures Find(Release(c, parent, eff), id) == Lookup(eff, id)
      <==> Lookup(parent, id) != Lookup(eff, id) || Find(c, id) == Lookup(parent, id)
  {
    if Lookup(parent, id) != Lookup(eff, id) {
      assert id in eff ==> id in Delta(parent, eff);
      assert id !in eff ==> id in parent.Keys - eff.Keys;
    } else {
      assert id !in Delta(parent, eff) && id !in parent.Keys - eff.Keys;
    }
  }

  /** An overwrite that removes nothing is no exception: an item added to the parent shows in the version over it. */
  lemma AdditionShowsThrough(it: Item)
    ensures var parent: Dataset, again, eff := map[], map[it.id := it], map[];
      Find(Release(Released([again]), parent, eff), it.id) == Some(it) && Lookup(eff, it.id) == None
  {
    var parent: Dataset, again, eff := map[], map[it.id := it], map[];
    assert Find(Released([again]), it.id) == Some(it);
    ParentOverwritten(Released([again]), parent, eff, it.id);
    assert Find(Release(Released([again]), parent, eff), it.id) == Find(Released([again]), it.id);
  }
}
