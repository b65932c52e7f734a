/**
 * The emoji reconciler: it brings the application's emojis in line with the bundled assets through calls that may
 * each fail, and leaves the Store saying exactly what the application has.
 */
module Emojis {
  import opened Prelude

  /** An emoji as the API lists it. Its message token is determined by name and id. */
  datatype Emoji = Emoji(name: string, id: nat)

  /**
   * The remote application. Names are unique; a new emoji gets a new id. `fails` says for the n-th create or
   * delete call whether it fails; a failed call has no effect.
   */
  class Application {
    var emojis: map<string, Emoji>
    var nextId: nat
    var calls: nat
    const fails: nat -> bool

    constructor (fails: nat -> bool)
      ensures this.fails == fails && emojis == map[] && calls == 0 && Valid()
    {
      this.fails, emojis, nextId, calls := fails, map[], 0, 0;
    }

    ghost predicate Valid() reads this {
      && (forall n :: n in emojis ==> emojis[n].name == n && emojis[n].id < nextId)
      && (forall m, n :: m in emojis && n in emojis && emojis[m].id == emojis[n].id ==> m == n)
    }

    method List() returns (all: seq<Emoji>)
      requires Valid()
      ensures forall e :: e in all <==> e.name in emojis && emojis[e.name] == e
    {
      var todo := emojis.Keys;
      all := [];
      while todo != {}
        invariant todo <= emojis.Keys
        invariant forall e :: e in all <==> e.name in emojis && e.name !in todo && emojis[e.name] == e
        decreases todo
      {
        var n :| n in todo;
        all := all + [emojis[n]];
        todo := todo - {n};
      }
    }

    method Create(name: string) returns (created: Option<Emoji>)
      requires Valid() && name !in emojis
      modifies this
      ensures Valid() && calls == old(calls) + 1 && nextId >= old(nextId)
      ensures created.None? <==> fails(old(calls))
      ensures created.None? ==> emojis == old(emojis)
      ensures created.Some? ==>
        created.value == Emoji(name, old(nextId)) && emojis == old(emojis)[name := created.value]
    {
      calls := calls + 1;
      if fails(calls - 1) { return None; }
      created := Some(Emoji(name, nextId));
      emojis := emojis[name := created.value];
      nextId := nextId + 1;
    }

    method Delete(e: Emoji) returns (ok: bool)
      requires Valid() && e.name in emojis && emojis[e.name] == e
      modifies this
      ensures Valid() && calls == old(calls) + 1 && nextId == old(nextId)
      ensures ok <==> !fails(old(calls))
      ensures emojis == if ok then old(emojis) - {e.name} else old(emojis)
    {
      calls := calls + 1;
      ok := !fails(calls - 1);
      if ok { emojis := map n | n in emojis && emojis[n].id != e.id :: emojis[n]; }
    }
  }

  class Syncer {
    const api: Application
    const assets: set<string>
    const upload: bool
    const prune: bool
    const replace: bool
    var store: map<string, Emoji>

    constructor (api: Application, assets: set<string>, upload: bool, prune: bool, replace: bool)
      ensures this.api == api && this.assets == assets && store == map[]
      ensures this.upload == upload && this.prune == prune && this.replace == replace
    {
      this.api, this.assets, this.upload, this.prune, this.replace := api, assets, upload, prune, replace;
      store := map[];
    }

    /** One bundled asset: kept, created, or deleted and created anew. None when the application lacks it after. */
    method Reconcile(name: string) returns (now: Option<Emoji>)
      requires api.Valid()
      modifies api
      ensures api.Valid() && now == At(api.emojis, name) && api.nextId >= old(api.nextId)
      ensures SameOutside(old(api.emojis), api.emojis, {name})
      ensures !replace && name in old(api.emojis) ==> api.emojis == old(api.emojis) && api.calls == old(api.calls)
      ensures FailureFree(api.fails) ==> now.Some? && (replace ==> now.value.id >= old(api.nextId))
    {
      var exists_ := name in api.emojis;
      if exists_ && !replace { return Some(api.emojis[name]); }
      if exists_ {
        var ok := api.Delete(api.emojis[name]);
        if !ok { return Some(api.emojis[name]); }
      }
      now := api.Create(name);
    }

    method ReconcileAssets(ctx: nat -> bool) returns (byName: map<string, Emoji>, cancelled: bool)
      requires api.Valid()
      modifies api
      ensures api.Valid() && api.nextId >= old(api.nextId)
      ensures NeverCancelled(ctx) ==> !cancelled
      ensures !cancelled ==> Mirrored(byName, api.emojis, api.emojis.Keys - assets)
      ensures SameOutside(old(api.emojis), api.emojis, assets)
      ensures !replace ==> Kept(old(api.emojis), api.emojis, assets)
      ensures !replace && assets <= old(api.emojis).Keys ==>
                api.emojis == old(api.emojis) && api.calls == old(api.calls)
      ensures FailureFree(api.fails) && !cancelled ==> Present(api.emojis, assets, replace, old(api.nextId))
    {
      byName := map[];
      var todo := assets;
      while todo != {}
        invariant todo <= assets && api.Valid() && api.nextId >= old(api.nextId)
        invariant Tracks(byName, api.emojis, assets - todo)
        invariant SameOutside(old(api.emojis), api.emojis, assets - todo)
        invariant !replace ==> Kept(old(api.emojis), api.emojis, assets)
        invariant !replace && assets <= old(api.emojis).Keys ==>
                    api.emojis == old(api.emojis) && api.calls == old(api.calls)
        invariant FailureFree(api.fails) ==> Present(api.emojis, assets - todo, replace, old(api.nextId))
        decreases todo
      {
        if ctx(|todo|) {
          WiderSame(old(api.emojis), api.emojis, assets - todo, assets);
          return byName, true;
        }
        var name :| name in todo;
        ghost var m := api.emojis;
        var now := Reconcile(name);
        TrackStep(byName, m, api.emojis, assets - todo, name, now);
        HandleStep(old(api.emojis), m, api.emojis, assets, assets - todo, name);
        PresentStep(m, api.emojis, assets - todo, name, replace, old(api.nextId));
        hide Tracks, SameOutside, Kept, Present, At;
        if now.Some? { byName := byName[name := now.value]; }
        todo := todo - {name};
      }
      assert assets - todo == assets;
      TracksAll(byName, api.emojis, assets);
      cancelled := false;
    }

    /** One emoji the assets do not define: kept, or deleted. Reports whether the application still has it. */
    method PruneOne(name: string) returns (kept: bool)
      requires api.Valid() && name in api.emojis
      modifies api
      ensures api.Valid() && api.emojis == if kept then old(api.emojis) else old(api.emojis) - {name}
      ensures !prune ==> kept && api.calls == old(api.calls)
      ensures FailureFree(api.fails) && prune ==> !kept
    {
      if !prune { return true; }
      var ok := api.Delete(api.emojis[name]);
      kept := !ok;
    }

    method PruneOthers(ctx: nat -> bool, soFar: map<string, Emoji>)
      returns (byName: map<string, Emoji>, cancelled: bool)
      requires api.Valid() && Mirrored(soFar, api.emojis, api.emojis.Keys - assets)
      modifies api
      ensures api.Valid()
      ensures NeverCancelled(ctx) ==> !cancelled
      ensures !cancelled ==> byName == api.emojis
      ensures OnlyLost(old(api.emojis), api.emojis, if prune then old(api.emojis).Keys - assets else {})
      ensures old(api.emojis).Keys <= assets ==> api.calls == old(api.calls)
      ensures FailureFree(api.fails) && prune && !cancelled ==> api.emojis.Keys <= assets
    {
      byName := soFar;
      var others := api.emojis.Keys - assets;
      var todo := others;
      while todo != {}
        invariant api.Valid() && todo <= others
        invariant Mirrored(byName, api.emojis, todo)
        invariant OnlyLost(old(api.emojis), api.emojis, if prune then others else {})
        invariant others == {} ==> api.calls == old(api.calls)
        invariant FailureFree(api.fails) && prune ==> api.emojis.Keys !! others - todo
        decreases todo
      {
        if prune && ctx(|todo|) { return byName, true; }
        var name :| name in todo;
        var e := api.emojis[name];
        ghost var m := api.emojis;
        var kept := PruneOne(name);
        MirrorStep(byName, m, api.emojis, todo, name, kept);
        LossStep(old(api.emojis), m, api.emojis, if prune then others else {}, name, kept);
        hide Mirrored, OnlyLost;
        if kept { byName := byName[name := e]; }
        todo := todo - {name};
      }
      cancelled := false;
      EmptyMirror(byName, api.emojis);
    }

    method ListByName() returns (byName: map<string, Emoji>)
      requires api.Valid()
      ensures byName == api.emojis
    {
      var existing := api.List();
      byName := map[];
      for i := 0 to |existing|
        invariant forall n :: n in byName ==> n in api.emojis && byName[n] == api.emojis[n]
        invariant forall j :: 0 <= j < i ==> existing[j].name in byName
      {
        assert existing[i] in existing;
        byName := byName[existing[i].name := existing[i]];
      }
      forall n | n in api.emojis ensures n in byName {
        assert api.emojis[n] in existing;
      }
    }

    /**
     * One sync. When it succeeds the Store equals the application's own map, whatever failed on the way; when the
     * listing fails or the context is cancelled the Store stays as it was.
     */
    method Sync(listFails: bool, ctx: nat -> bool) returns (ok: bool)
      requires api.Valid()
      modifies this, api
      ensures api.Valid()
      ensures if ok then store == api.emojis else store == old(store)
      ensures !listFails && NeverCancelled(ctx) ==> ok
      // Each mode touches only what it may.
      ensures !upload || listFails ==> api.emojis == old(api.emojis) && api.calls == old(api.calls)
      ensures !prune ==> SameOutside(old(api.emojis), api.emojis, assets)
      ensures !replace ==> Kept(old(api.emojis), api.emojis, assets)
      // Without failures the application ends up with the assets, each replaced if so asked.
      ensures ok && upload && FailureFree(api.fails) ==>
        && Present(api.emojis, assets, replace, old(api.nextId))
        && (prune ==> api.emojis.Keys == assets)
      // A settled application is left alone, so a second sync makes no call.
      ensures upload && !replace && old(api.emojis).Keys == assets ==>
                api.calls == old(api.calls) && api.emojis == old(api.emojis)
    {
      if listFails { return false; }
      if !upload {
        store := ListByName();
        return true;
      }
      hide Kept, OnlyLost, Present, SameOutside, Mirrored;
      var byName, cancelled := ReconcileAssets(ctx);
      if cancelled { return false; }
      ghost var mid := api.emojis;
      byName, cancelled := PruneOthers(ctx, byName);
      ModesHold(old(api.emojis), mid, api.emojis, assets, prune, replace);
      PruningKeepsAssets(mid, api.emojis, assets, prune, replace, old(api.nextId));
      if cancelled { return false; }
      store := byName;
      ok := true;
    }
  }

  function At(m: map<string, Emoji>, n: string): Option<Emoji> { if n in m then Some(m[n]) else None }

  /** Some of these names may have gone; every other entry is as it was, and none is new. */
  predicate OnlyLost(before: map<string, Emoji>, after: map<string, Emoji>, names: set<string>) {
    && (forall n :: n in after ==> n in before && after[n] == before[n])
    && (forall n :: n in before && n !in names ==> n in after)
  }

  lemma LossStep(
      before: map<string, Emoji>, m: map<string, Emoji>, m': map<string, Emoji>, names: set<string>, name: string,
      kept: bool)
    requires OnlyLost(before, m, names) && m' == (if kept then m else m - {name}) && (kept || name in names)
    ensures OnlyLost(before, m', names)
  {
  }

  /** The map has every entry of `m` but those still to be handled. */
  predicate Mirrored(byName: map<string, Emoji>, m: map<string, Emoji>, todo: set<string>) {
    && (forall n :: n in byName ==> n in m && n !in todo && byName[n] == m[n])
    && (forall n :: n in m && n !in todo ==> n in byName)
    && (forall n :: n in todo ==> n in m)
  }

  lemma MirrorStep(
      byName: map<string, Emoji>, m: map<string, Emoji>, m': map<string, Emoji>, todo: set<string>, name: string,
          kept: bool)
    requires Mirrored(byName, m, todo) && name in todo
    requires m' == if kept then m else m - {name}
    ensures Mirrored(if kept then byName[name := m[name]] else byName, m', todo - {name})
  {
  }

  lemma EmptyMirror(byName: map<string, Emoji>, m: map<string, Emoji>)
    requires Mirrored(byName, m, {})
    ensures byName == m
  {
  }

  ghost predicate NeverCancelled(ctx: nat -> bool) { forall k :: !ctx(k) }

  ghost predicate FailureFree(fails: nat -> bool) { forall k :: !fails(k) }

  /** The assets that were there are there unchanged. */
  predicate Kept(before: map<string, Emoji>, after: map<string, Emoji>, assets: set<string>) {
    forall n :: n in assets && n in before ==> n in after && after[n] == before[n]
  }

  /** All these names are there, each new since `firstId` if they were to be replaced. */
  predicate Present(m: map<string, Emoji>, names: set<string>, replaced: bool, firstId: nat) {
    forall n :: n in names ==> n in m && (replaced ==> m[n].id >= firstId)
  }

  /** Outside these names nothing changed. */
  ghost predicate SameOutside(before: map<string, Emoji>, after: map<string, Emoji>, names: set<string>) {
    forall n :: n !in names ==> At(after, n) == At(before, n)
  }

  /** The map has exactly the entries of `m` under the names handled so far. */
  ghost predicate Tracks(byName: map<string, Emoji>, m: map<string, Emoji>, handled: set<string>) {
    forall n :: At(byName, n) == if n in handled then At(m, n) else None
  }

  lemma TrackStep(
      byName: map<string, Emoji>, m: map<string, Emoji>, m': map<string, Emoji>, handled: set<string>, name: string,
      now: Option<Emoji>)
    requires Tracks(byName, m, handled) && SameOutside(m, m', {name}) && now == At(m', name) && name !in handled
    ensures Tracks(if now.Some? then byName[name := now.value] else byName, m', handled + {name})
  {
    var next := if now.Some? then byName[name := now.value] else byName;
    forall n ensures At(next, n) == if n in handled + {name} then At(m', n) else None {
      assert At(byName, n) == if n in handled then At(m, n) else None;
      assert n != name ==> At(m', n) == At(m, n);
    }
  }

  /** One more name handled: the others are as they were, and what had to be kept still is unless it was this one. */
  lemma HandleStep(
      before: map<string, Emoji>, m: map<string, Emoji>, m': map<string, Emoji>, assets: set<string>,
      handled: set<string>, name: string)
    requires SameOutside(before, m, handled) && SameOutside(m, m', {name})
    ensures SameOutside(before, m', handled + {name})
    ensures Kept(before, m, assets) && (name in m ==> name in m' && m'[name] == m[name]) ==> Kept(before, m', assets)
  {
    forall n ensures n != name ==> At(m', n) == At(m, n) {}
    forall n |
      n in assets && n in before && Kept(before, m, assets) && (name in m ==> name in m' && m'[name] == m[name])
      ensures n in m' && m'[n] == before[n]
    {
      assert n != name ==> At(m', n) == At(m, n);
    }
  }

  lemma PresentStep(
      m: map<string, Emoji>, m': map<string, Emoji>, handled: set<string>, name: string, replaced: bool, firstId: nat)
    requires SameOutside(m, m', {name}) && name !in handled
    ensures Present(m, handled, replaced, firstId) && name in m' && (replaced ==> m'[name].id >= firstId) ==>
              Present(m', handled + {name}, replaced, firstId)
  {
    assert forall n :: n != name ==> At(m', n) == At(m, n);
  }

  lemma WiderSame(before: map<string, Emoji>, after: map<string, Emoji>, names: set<string>, more: set<string>)
    requires SameOutside(before, after, names) && names <= more
    ensures SameOutside(before, after, more)
  {
  }

  lemma TracksAll(byName: map<string, Emoji>, m: map<string, Emoji>, assets: set<string>)
    requires Tracks(byName, m, assets)
    ensures Mirrored(byName, m, m.Keys - assets)
  {
    forall n | n in byName ensures n in m && n in assets && byName[n] == m[n] {
      assert At(byName, n) == if n in assets then At(m, n) else None;
    }
    forall n | n in m && n in assets ensures n in byName {
      assert At(byName, n) == if n in assets then At(m, n) else None;
    }
  }

  /** Each mode touches only what it may, over both halves of a sync. */
  lemma ModesHold(
      before: map<string, Emoji>, mid: map<string, Emoji>, after: map<string, Emoji>, assets: set<string>,
      prune: bool, replace: bool)
    requires SameOutside(before, mid, assets) && (!replace ==> Kept(before, mid, assets))
    requires OnlyLost(mid, after, if prune then mid.Keys - assets else {})
    ensures !prune ==> SameOutside(before, after, assets)
    ensures !replace ==> Kept(before, after, assets)
    ensures mid.Keys <= assets ==> after == mid
  {
    assert !prune ==> forall n :: At(after, n) == At(mid, n);
  }

  lemma PruningKeepsAssets(
      mid: map<string, Emoji>, after: map<string, Emoji>, assets: set<string>, prune: bool, replace: bool, firstId: nat)
    requires OnlyLost(mid, after, if prune then mid.Keys - assets else {})
    ensures Present(mid, assets, replace, firstId) ==>
              Present(after, assets, replace, firstId) && assets <= after.Keys
  {
  }
}
