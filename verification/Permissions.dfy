/** Role-based command access: the grants in the database, the per-server cache in front of them, and the gate. */
module Permissions {
  import opened Prelude

  /** One row; the unique constraint on all three columns makes the table a set. */
  datatype Grant = Grant(server: nat, command: string, role: string)

  datatype Mapping = Mapping(command: string, role: string)

  /** One server's mapping: command to the roles granted it. Commands nobody was granted are absent. */
  type ServerRoles = map<string, set<string>>

  /** How a transaction can end. `Unacknowledged`: it committed, but the caller got an error. */
  datatype Outcome = Committed | RolledBack | Unacknowledged

  // ---- The stored grants ----

  function RolesOn(grants: set<Grant>, server: nat, command: string): (roles: set<string>)
    ensures forall r :: r in roles <==> Grant(server, command, r) in grants
  {
    set g | g in grants && g.server == server && g.command == command :: g.role
  }

  /** The grants after a command's roles were replaced by exactly these. */
  function Granting(grants: set<Grant>, server: nat, command: string, roles: set<string>): set<Grant> {
    (set g | g in grants && !(g.server == server && g.command == command))
    + (set r | r in roles :: Grant(server, command, r))
  }

  /** A command has exactly the roles it was given, and no other command on any server changed. */
  lemma GrantingIsExact(
      grants: set<Grant>, server: nat, command: string, roles: set<string>, other: nat, otherCommand: string)
    ensures RolesOn(Granting(grants, server, command, roles), other, otherCommand)
            == if other == server && otherCommand == command then roles else RolesOn(grants, other, otherCommand)
  {
    var after := Granting(grants, server, command, roles);
    forall r ensures r in RolesOn(after, other, otherCommand)
                     <==> if other == server && otherCommand == command then r in roles
                          else r in RolesOn(grants, other, otherCommand)
    {
      assert r in RolesOn(after, other, otherCommand) <==> Grant(other, otherCommand, r) in after;
    }
  }

  class Repository {
    var grants: set<Grant>

    constructor ()
      ensures grants == {}
    {
      grants := {};
    }

    /** Drops the roles no longer desired, then inserts the desired ones; a kept role conflicts and is a no-op. */
    method SetRoles(server: nat, command: string, roles: seq<string>, outcome: Outcome) returns (ok: bool)
      modifies this
      ensures grants == if outcome.RolledBack? then old(grants)
                        else Granting(old(grants), server, command, Elements(roles))
      ensures ok <==> outcome.Committed?
    {
      var tx := set g | g in grants && !(g.server == server && g.command == command && g.role !in roles);
      for i := 0 to |roles|
        invariant tx == (set g | g in grants && !(g.server == server && g.command == command && g.role !in roles))
                        + (set k | 0 <= k < i :: Grant(server, command, roles[k]))
      {
        if Grant(server, command, roles[i]) !in tx { tx := tx + {Grant(server, command, roles[i])}; }
      }
      assert forall g :: g in tx <==> g in Granting(grants, server, command, Elements(roles));
      if !outcome.RolledBack? { grants := tx; }
      ok := outcome.Committed?;
    }

    /** Every mapping on a server. */
    method List(server: nat) returns (all: seq<Mapping>)
      ensures forall m :: m in all <==> Grant(server, m.command, m.role) in grants
    {
      var todo := set g | g in grants && g.server == server;
      all := [];
      while todo != {}
        invariant forall g :: g in todo ==> g in grants && g.server == server
        invariant forall m :: m in all ==> Grant(server, m.command, m.role) in grants
        invariant forall g :: g in grants && g.server == server ==> g in todo || Mapping(g.command, g.role) in all
        decreases |todo|
      {
        var g :| g in todo;
        all := all + [Mapping(g.command, g.role)];
        todo := todo - {g};
      }
    }
  }

  // ---- The cache ----

  /** What a server's cached mapping has to say: for every command the roles it grants, if any. */
  ghost predicate Mirrors(sr: ServerRoles, grants: set<Grant>, server: nat) {
    forall command :: Lookup(sr, command) == RolesOn(grants, server, command)
  }

  function Lookup(sr: ServerRoles, command: string): set<string> { if command in sr then sr[command] else {} }

  ghost predicate CoherentWith(cache: map<nat, ServerRoles>, grants: set<Grant>) {
    forall server :: server in cache ==> Mirrors(cache[server], grants, server)
  }

  /** What any set of granted roles decides: none leaves the default, otherwise any granted role will do. */
  predicate Decide(roles: set<string>, userRoles: seq<string>, defaultDeny: bool) {
    if roles == {} then !defaultDeny else exists r :: r in userRoles && r in roles
  }

  /** The direct rule on the stored grants. */
  predicate Rule(grants: set<Grant>, server: nat, command: string, userRoles: seq<string>, defaultDeny: bool) {
    if RolesOn(grants, server, command) == {} then !defaultDeny
    else exists r :: r in userRoles && Grant(server, command, r) in grants
  }

  /** The roles a check goes by: the cached entry's where there is one, else the stored ones. */
  function Known(cache: map<nat, ServerRoles>, grants: set<Grant>, server: nat, command: string): set<string> {
    if server in cache then Lookup(cache[server], command) else RolesOn(grants, server, command)
  }

  /** All answers on a command are right if and only if the roles they go by are the stored ones. */
  lemma AnswersRightExactly(cache: map<nat, ServerRoles>, grants: set<Grant>, server: nat, command: string)
    ensures (forall userRoles, defaultDeny ::
               Decide(Known(cache, grants, server, command), userRoles, defaultDeny)
               == Rule(grants, server, command, userRoles, defaultDeny))
            <==> Known(cache, grants, server, command) == RolesOn(grants, server, command)
  {
    var known, stored := Known(cache, grants, server, command), RolesOn(grants, server, command);
    forall userRoles, defaultDeny
      ensures Rule(grants, server, command, userRoles, defaultDeny) == Decide(stored, userRoles, defaultDeny)
    {
    }
    if known != stored {
      var r :| (r in known) != (r in stored);
      OneRoleTells(known, stored, r);
    }
  }

  /** A role in one of two sets only, held alone, is told apart under one of the two defaults. */
  lemma OneRoleTells(a: set<string>, b: set<string>, r: string)
    requires (r in a) != (r in b)
    ensures Decide(a, [r], true) != Decide(b, [r], true) || Decide(a, [r], false) != Decide(b, [r], false)
  {
    assert r in [r];
  }

  class Store {
    const repo: Repository
    var cache: map<nat, ServerRoles>

    constructor (repo: Repository)
      ensures this.repo == repo && cache == map[] && Coherent()
    {
      this.repo, cache := repo, map[];
    }

    /** A server's cached mapping, if any, says what the database says. */
    ghost predicate Agrees(server: nat) reads this, repo {
      server in cache ==> Mirrors(cache[server], repo.grants, server)
    }

    /** Every cached mapping does. */
    ghost predicate Coherent() reads this, repo { CoherentWith(cache, repo.grants) }

    /** The cache drops servers on its own, at any time; whoever was dropped agrees again. */
    method Evict(victims: set<nat>)
      modifies this
      ensures cache == old(cache) - victims
      ensures forall server :: server in victims ==> Agrees(server)
      ensures old(Coherent()) ==> Coherent()
    {
      cache := cache - victims;
    }

    /** Reads a server's whole mapping and caches it; adding may evict others. A failed read changes nothing. */
    method Load(server: nat, fails: bool, victims: set<nat>) returns (loaded: Option<ServerRoles>)
      modifies this
      ensures old(Coherent()) ==> Coherent()
      ensures fails ==> loaded.None? && cache == old(cache)
      ensures !fails ==> loaded.Some? && Mirrors(loaded.value, repo.grants, server)
                         && cache == (old(cache) - victims)[server := loaded.value]
    {
      if fails { return None; }
      var all := repo.List(server);
      var sr: ServerRoles := map[];
      for i := 0 to |all|
        invariant forall command, r :: r in Lookup(sr, command) <==> Mapping(command, r) in all[..i]
      {
        sr := sr[all[i].command := Lookup(sr, all[i].command) + {all[i].role}];
      }
      assert all[..|all|] == all;
      assert Mirrors(sr, repo.grants, server) by {
        forall command ensures Lookup(sr, command) == RolesOn(repo.grants, server, command) {
          assert forall r :: r in Lookup(sr, command) <==> Mapping(command, r) in all;
        }
      }
      cache := (cache - victims)[server := sr];
      loaded := Some(sr);
    }

    /** The roles mapped to a command, from the cache or through a load. */
    method RoleSet(server: nat, command: string, fails: bool, victims: set<nat>) returns (roles: Option<set<string>>)
      modifies this
      ensures old(Coherent()) ==> Coherent()
      ensures roles.Some? ==> roles.value == Known(old(cache), repo.grants, server, command)
      ensures roles.None? <==> server !in old(cache) && fails
    {
      if server in cache { return Some(Lookup(cache[server], command)); }
      var loaded := Load(server, fails, victims);
      if loaded.None? { return None; }
      roles := Some(Lookup(loaded.value, command));
    }

    /**
     * Replaces a command's roles and drops the server's entry, after which it agrees whatever it said before. On an
     * error the entry stays: right after a rollback, and after an unacknowledged commit only if there was no entry
     * or nothing to change. Other servers' entries are as right or wrong as they were.
     */
    method SetRoles(server: nat, command: string, roles: seq<string>, outcome: Outcome) returns (ok: bool)
      modifies this, repo
      ensures ok <==> outcome.Committed?
      ensures repo.grants == if outcome.RolledBack? then old(repo.grants)
                             else Granting(old(repo.grants), server, command, Elements(roles))
      ensures cache == if ok then old(cache) - {server} else old(cache)
      ensures ok ==> Agrees(server)
      ensures forall other :: other != server ==> (Agrees(other) <==> old(Agrees(other)))
      ensures old(Coherent()) ==>
                (Coherent() <==> !outcome.Unacknowledged? || server !in old(cache)
                                 || RolesOn(old(repo.grants), server, command) == Elements(roles))
    {
      ok := repo.SetRoles(server, command, roles, outcome);
      if ok { cache := cache - {server}; }
      if !outcome.RolledBack? {
        forall other | other != server ensures Agrees(other) <==> old(Agrees(other)) {
          OthersKeepRoles(old(repo.grants), server, command, Elements(roles), other);
        }
        if old(Coherent()) {
          CoherentExactly(old(cache), cache, old(repo.grants), server, command, Elements(roles));
        }
      }
    }
  }

  lemma OthersKeepRoles(grants: set<Grant>, server: nat, command: string, roles: set<string>, other: nat)
    requires other != server
    ensures forall any :: RolesOn(Granting(grants, server, command, roles), other, any) == RolesOn(grants, other, any)
  {
    forall any ensures RolesOn(Granting(grants, server, command, roles), other, any) == RolesOn(grants, other, any) {
      GrantingIsExact(grants, server, command, roles, other, any);
    }
  }

  /** After a command's roles were replaced, a cache that agreed before agrees iff it dropped the server or had them. */
  lemma CoherentExactly(
      cache: map<nat, ServerRoles>, cache': map<nat, ServerRoles>, grants: set<Grant>,
      server: nat, command: string, roles: set<string>)
    requires CoherentWith(cache, grants) && (cache' == cache || cache' == cache - {server})
    ensures CoherentWith(cache', Granting(grants, server, command, roles))
            <==> server !in cache' || RolesOn(grants, server, command) == roles
  {
    var after := Granting(grants, server, command, roles);
    forall s | s in cache'
      ensures Mirrors(cache'[s], after, s) <==> s != server || RolesOn(grants, server, command) == roles
    {
      assert Mirrors(cache[s], grants, s);
      forall other ensures RolesOn(after, s, other)
                           == if s == server && other == command then roles else RolesOn(grants, s, other)
      {
        GrantingIsExact(grants, server, command, roles, s, other);
      }
      if Mirrors(cache'[s], after, s) {
        assert Lookup(cache'[s], command) == RolesOn(after, s, command);
      }
    }
  }

  class Gate {
    const store: Store

    constructor (store: Store)
      ensures this.store == store
    {
      this.store := store;
    }

    /**
     * Every answer goes by the cached entry where there is one and by the database otherwise; so with an entry that
     * agrees on the command, or none, it equals the direct rule on the stored grants.
     */
    method IsAllowed(
        server: nat, command: string, userRoles: seq<string>, defaultDeny: bool, fails: bool, victims: set<nat>)
      returns (allowed: Option<bool>)
      modifies store
      ensures old(store.Coherent()) ==> store.Coherent()
      ensures allowed.None? <==> server !in old(store.cache) && fails
      ensures allowed.Some? ==>
                allowed.value
                == Decide(Known(old(store.cache), store.repo.grants, server, command), userRoles, defaultDeny)
      ensures allowed.Some? && old(store.Agrees(server)) ==>
                allowed.value == Rule(store.repo.grants, server, command, userRoles, defaultDeny)
    {
      var mapped := store.RoleSet(server, command, fails, victims);
      if mapped.None? { return None; }
      if mapped.value == {} { return Some(!defaultDeny); }
      for i := 0 to |userRoles|
        invariant forall j :: 0 <= j < i ==> userRoles[j] !in mapped.value
      {
        if userRoles[i] in mapped.value { return Some(true); }
      }
      allowed := Some(false);
    }
  }
}
