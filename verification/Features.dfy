/** Feature resolution: the transitive closure of a selection, by depth-first search with cycles tolerated. */
module Features {

  /** What each known feature requires. */
  type Catalog = map<string, seq<string>>

  datatype Resolution = Resolved(names: seq<string>) | UnknownFeature(name: string)

  // ---- Reachability ----

  /** A chain of requirements; every link but the last is a known feature. */
  ghost predicate IsPath(g: Catalog, p: seq<string>) {
    p != [] && forall i :: 0 <= i < |p| - 1 ==> Requires(g, p[i], p[i + 1])
  }

  predicate Requires(g: Catalog, n: string, dep: string) { n in g && dep in g[n] }

  ghost predicate Joins(g: Catalog, p: seq<string>, a: string, b: string) {
    IsPath(g, p) && p[0] == a && p[|p| - 1] == b
  }

  /** `b` is `a` or something `a` requires, directly or not. */
  ghost predicate Reaches(g: Catalog, a: string, b: string) { exists p :: Joins(g, p, a, b) }

  /** Reachable from the selection. */
  ghost predicate Pulled(g: Catalog, selected: seq<string>, b: string) {
    exists a :: a in selected && Reaches(g, a, b)
  }

  lemma ReachesSelf(g: Catalog, a: string)
    ensures Reaches(g, a, a)
  {
    assert Joins(g, [a], a, a);
  }

  lemma ReachesOn(g: Catalog, a: string, b: string, c: string)
    requires Reaches(g, a, b) && Requires(g, b, c)
    ensures Reaches(g, a, c)
  {
    var p :| Joins(g, p, a, b);
    assert Joins(g, p + [c], a, c);
  }

  lemma ReachesThrough(g: Catalog, a: string, b: string, c: string)
    requires Requires(g, a, b) && Reaches(g, b, c)
    ensures Reaches(g, a, c)
  {
    var p :| Joins(g, p, b, c);
    forall i | 0 <= i < |[a] + p| - 1 ensures Requires(g, ([a] + p)[i], ([a] + p)[i + 1]) {
      assert i > 0 ==> Requires(g, p[i - 1], p[i - 1 + 1]);
    }
    assert Joins(g, [a] + p, a, c);
  }

  /** A set closed under requirements holds everything its members reach. */
  lemma ClosedHoldsReach(g: Catalog, closed: set<string>, a: string, b: string)
    requires forall n, dep :: n in closed && Requires(g, n, dep) ==> dep in closed
    requires a in closed && Reaches(g, a, b)
    ensures b in closed
  {
    var p :| Joins(g, p, a, b);
    PathStaysClosed(g, closed, p, |p| - 1);
  }

  lemma {:induction false} PathStaysClosed(g: Catalog, closed: set<string>, p: seq<string>, k: nat)
    requires forall n, dep :: n in closed && Requires(g, n, dep) ==> dep in closed
    requires IsPath(g, p) && p[0] in closed && k < |p|
    ensures p[k] in closed
  {
    if k > 0 {
      PathStaysClosed(g, closed, p, k - 1);
      assert Requires(g, p[k - 1], p[k - 1 + 1]);
    }
  }

  /** What a visit reports. */
  datatype Visited = Fine | Unknown(name: string)

  // ---- What a resolution promises ----

  ghost predicate NoRepeats(out: seq<string>) { forall i, j :: 0 <= i < j < |out| ==> out[i] != out[j] }

  /** A requirement stands before what requires it, unless it requires that in turn. */
  ghost predicate InOrderUpToCycles(g: Catalog, out: seq<string>) {
    forall k, dep :: 0 <= k < |out| && Requires(g, out[k], dep) ==> dep in out[..k] || Reaches(g, dep, out[k])
  }

  ghost predicate IsResolution(g: Catalog, selected: seq<string>, r: Resolution) {
    match r
    case UnknownFeature(n) => n !in g && Pulled(g, selected, n)
    case Resolved(out) =>
      && (forall n :: n in out <==> Pulled(g, selected, n))
      && (forall n :: n in out ==> n in g)
      && NoRepeats(out)
      && InOrderUpToCycles(g, out)
  }

  class Resolver {
    const catalog: Catalog
    var seen: set<string>
    var out: seq<string>

    constructor (catalog: Catalog)
      ensures this.catalog == catalog && seen == {} && out == [] && Valid()
    {
      this.catalog, seen, out := catalog, {}, [];
    }

    /** Everything emitted was seen, is known, and has its requirements seen. */
    ghost predicate Valid() reads this {
      && (forall n :: n in out ==> n in seen)
      && (forall n :: n in seen ==> n in catalog)
      && (forall n, dep :: n in out && Requires(catalog, n, dep) ==> dep in seen)
      && NoRepeats(out)
      && InOrderUpToCycles(catalog, out)
    }

    /** Entered and not yet emitted: the chain of features whose requirements are being visited. */
    ghost predicate Entered(n: string) reads this { n in seen && n !in out }

    method Visit(n: string) returns (err: Visited)
      requires Valid() && forall x :: Entered(x) ==> Reaches(catalog, x, n)
      modifies this
      ensures err.Unknown? ==> err.name !in catalog && Reaches(catalog, n, err.name)
      ensures err.Fine? ==>
        && Valid() && n in seen && old(seen) <= seen && old(out) <= out
        && (forall x :: Entered(x) <==> old(Entered(x)))
        && (forall x :: x in seen && x !in old(seen) ==> Reaches(catalog, n, x))
      decreases catalog.Keys - seen
    {
      if n in seen { return Fine; }
      ReachesSelf(catalog, n);
      if n !in catalog { return Unknown(n); }
      seen := seen + {n};
      var requires_ := catalog[n];
      for i := 0 to |requires_|
        invariant Valid() && old(seen) + {n} <= seen && old(out) <= out
        invariant forall x :: Entered(x) <==> old(Entered(x)) || x == n
        invariant forall x :: x in seen && x !in old(seen) ==> Reaches(catalog, n, x)
        invariant forall j :: 0 <= j < i ==> requires_[j] in seen
      {
        var dep := requires_[i];
        assert Requires(catalog, n, dep);
        forall x | Entered(x) ensures Reaches(catalog, x, dep) { ReachesOn(catalog, x, n, dep); }
        label before:
        err := Visit(dep);
        if err.Unknown? {
          ReachesThrough(catalog, n, dep, err.name);
          return;
        }
        forall x | x in seen && x !in old@before(seen) ensures Reaches(catalog, n, x) {
          ReachesThrough(catalog, n, dep, x);
        }
      }
      assert Entered(n);
      AppendKeepsOrder(catalog, out, n);
      out := out + [n];
      err := Fine;
    }

    method Resolve(selected: seq<string>) returns (r: Resolution)
      requires seen == {} && out == []
      modifies this
      ensures IsResolution(catalog, selected, r)
    {
      for i := 0 to |selected|
        invariant Valid() && forall x :: !Entered(x)
        invariant forall j :: 0 <= j < i ==> selected[j] in seen
        invariant forall x :: x in seen ==> Pulled(catalog, selected, x)
      {
        label before:
        var err := Visit(selected[i]);
        if err.Unknown? { return UnknownFeature(err.name); }
        forall x | x in seen ensures Pulled(catalog, selected, x) {
          assert x !in old@before(seen) ==> Reaches(catalog, selected[i], x);
        }
      }
      assert forall n :: n in seen ==> !Entered(n) && n in out;
      forall n | Pulled(catalog, selected, n) ensures n in out {
        var a :| a in selected && Reaches(catalog, a, n);
        ClosedHoldsReach(catalog, seen, a, n);
      }
      r := Resolved(out);
    }
  }

  /** Emitting a feature whose requirements are all emitted already, or still entered and so reach it. */
  lemma AppendKeepsOrder(g: Catalog, out: seq<string>, n: string)
    requires InOrderUpToCycles(g, out) && n in g
    requires forall dep :: dep in g[n] ==> dep in out || Reaches(g, dep, n)
    ensures InOrderUpToCycles(g, out + [n])
  {
    forall k, dep | 0 <= k < |out + [n]| && Requires(g, (out + [n])[k], dep)
      ensures dep in (out + [n])[..k] || Reaches(g, dep, (out + [n])[k])
    {
      assert (out + [n])[..k] == out[..k];
    }
  }

  // ---- What follows for callers ----

  /** No feature is required, directly or not, by one of its own requirements. */
  ghost predicate Acyclic(g: Catalog) { forall n, dep :: Requires(g, n, dep) ==> !Reaches(g, dep, n) }

  /** The resolution fails if and only if the selection pulls in a name nobody knows. */
  lemma FailsOnUnknown(g: Catalog, selected: seq<string>, r: Resolution)
    requires IsResolution(g, selected, r)
    ensures r.UnknownFeature? <==> exists n :: Pulled(g, selected, n) && n !in g
  {
    if r.UnknownFeature? {
      assert Pulled(g, selected, r.name) && r.name !in g;
    }
  }

  /** Without cycles every requirement of a resolved feature stands before it. */
  lemma RequirementsComeFirst(g: Catalog, selected: seq<string>, out: seq<string>, k: nat, dep: string)
    requires IsResolution(g, selected, Resolved(out)) && Acyclic(g)
    requires k < |out| && Requires(g, out[k], dep)
    ensures exists j :: 0 <= j < k && out[j] == dep
  {
    assert dep in out[..k];
  }

  /** Resolving what was resolved pulls in nothing new: the same names, again each once. */
  lemma ResolvingAgainAddsNothing(g: Catalog, selected: seq<string>, out: seq<string>, again: Resolution)
    requires IsResolution(g, selected, Resolved(out)) && IsResolution(g, out, again)
    ensures again.Resolved? && |again.names| == |out| && forall n :: n in again.names <==> n in out
  {
    var closed := set n | n in out;
    forall n, dep | n in closed && Requires(g, n, dep) ensures dep in closed {
      var a :| a in selected && Reaches(g, a, n);
      ReachesOn(g, a, n, dep);
      assert Pulled(g, selected, dep);
    }
    forall n | Pulled(g, out, n) ensures n in out {
      var a :| a in out && Reaches(g, a, n);
      ClosedHoldsReach(g, closed, a, n);
    }
    forall n | n in out ensures Pulled(g, out, n) { ReachesSelf(g, n); }
    SameLength(again.names, out);
  }

  lemma SetSize(s: seq<string>)
    requires NoRepeats(s)
    ensures |set n | n in s| == |s|
  {
    if s != [] {
      var init := s[..|s| - 1];
      SetSize(init);
      assert (set n | n in s) == (set n | n in init) + {s[|s| - 1]};
    }
  }

  lemma SameLength(s: seq<string>, t: seq<string>)
    requires NoRepeats(s) && NoRepeats(t) && forall n :: n in s <==> n in t
    ensures |s| == |t|
  {
    SetSize(s);
    SetSize(t);
    assert (set n | n in s) == (set n | n in t);
  }
}
