/**
 * The repository: the tables as mutable fields, each transaction as a method that checks, updates rows and
 * appends to the outbox in place. Every method is proved to commit exactly the transaction's step or to leave
 * the tables as they were.
 */
module Repositories {
  import opened Prelude
  import opened Contracts
  import opened Ledger
  import opened Outbox
  import opened Transactions

  /** The edit had its whole effect on the contract the lookup found. */
  ghost predicate Did(before: Db, after: Db, found: Option<nat>, e: Edit) {
    && found.Some? && found.value in before.contracts && found.value in after.contracts
    && Edited(before.contracts[found.value], after.contracts[found.value], e, before.nextId)
  }

  /** What an edit reports: the state it left and its error agree with the transaction's step. */
  ghost predicate Committed(before: Db, after: Db, step: Result<Db>, err: Option<Error>) {
    match step
    case Ok(db) => after == db && err == None
    case Err(e) => after == before && err == Some(e)
  }

  /** Open, and no deadline or one that still lies ahead. */
  predicate Editable(c: Contract, now: int) { c.status == Open && (c.deadline.None? || now < c.deadline.value) }

  /** Completed with a positive credit reward of which the members get a positive part. */
  predicate PaysOut(c: Contract) {
    c.status == Completed && c.credits.Some? && c.credits.value > 0 && c.factor > 0
  }

  class Repository {
    var contracts: map<nat, Contract>
    var tasks: Table
    var nextId: nat

    function State(): Db reads this { Db(contracts, tasks, nextId) }

    /** The tables' keys hold, and every contract's ledger is sound. */
    ghost predicate Valid() reads this { SoundDb(State()) }

    constructor ()
      ensures Valid() && State() == Db(map[], map[], 0)
    {
      contracts, tasks, nextId := map[], map[], 0;
    }

    // ---- Shared steps of the transactions ----

    method Enqueue(kind: Kind, cid: nat, repost: bool, now: int)
      requires cid in contracts
      modifies this
      ensures State() == EnqueueTask(old(State()), kind, cid, repost, now)
    {
      tasks := tasks[nextId := Task(kind, cid, repost, contracts[cid].revision, Some(cid), Pending, 0, now, now, None)];
      nextId := nextId + 1;
    }

    /** Advances the watermark and enqueues the refresh every visible edit owes its post. */
    method TouchAndRefresh(cid: nat, now: int)
      requires cid in contracts
      modifies this
      ensures State()
              == EnqueueTask(Put(old(State()), cid, Touch(old(contracts)[cid])), Refresh, cid, false, now)
    {
      contracts := contracts[cid := Touch(contracts[cid])];
      Enqueue(Refresh, cid, false, now);
    }

    method LockOpenContractByID(server: nat, contract: nat, now: int) returns (found: Option<nat>, err: Option<Error>)
      ensures found == ById(State(), server, contract)
      ensures err == if found.None? then Some(NotFound) else GuardError(contracts[found.value], now)
      ensures err.None? <==> found.Some? && Editable(contracts[found.value], now)
      ensures found.Some? <==> contract in contracts && contracts[contract].server == server
    {
      found := None;
      if contract !in contracts || contracts[contract].server != server { return found, Some(NotFound); }
      found := Some(contract);
      err := Guard(contracts[contract], now);
    }

    method LockOpenContractByItem(server: nat, item: nat, now: int) returns (found: Option<nat>, err: Option<Error>)
      requires Valid()
      ensures found == ByItem(State(), server, item)
      ensures found.Some? ==> Owns(State(), found.value, server, item)
      ensures err == if found.None? then Some(NotFound) else GuardError(contracts[found.value], now)
      ensures err.None? <==> found.Some? && Editable(contracts[found.value], now)
      ensures found.Some? <==>
                exists cid :: cid in contracts && contracts[cid].server == server && HasItem(contracts[cid], item)
    {
      if cid :| cid in contracts && Owns(State(), cid, server, item) {
        found := Some(cid);
        err := Guard(contracts[cid], now);
        OneOwner(State(), server, item, cid);
      } else {
        assert ByItem(State(), server, item).None?;
        found, err := None, Some(NotFound);
      }
    }

    method LockOpenContract(server: nat, thread: nat, now: int) returns (found: Option<nat>, err: Option<Error>)
      requires Valid()
      ensures found == ByThread(State(), server, thread)
      ensures found.Some? ==> found.value in contracts
      ensures err == if found.None? then Some(NotFound) else GuardError(contracts[found.value], now)
      ensures err.None? <==> found.Some? && Editable(contracts[found.value], now)
      ensures found.Some? <==>
                exists cid :: cid in contracts && contracts[cid].server == server
                              && contracts[cid].thread == Some(thread)
    {
      if cid :| cid in contracts && HasThread(State(), cid, server, thread) {
        found := Some(cid);
        err := Guard(contracts[cid], now);
        OneThread(State(), server, thread, cid);
      } else {
        assert ByThread(State(), server, thread).None?;
        found, err := None, Some(NotFound);
      }
    }

    // ---- What every accepted edit does last ----

    /** Writes the edited row, advances the watermark and enqueues the refresh. */
    method Commit(cid: nat, row: Contract, newIds: nat, ghost e: Edit, now: int)
      requires Valid() && cid in contracts && e.Entered()
      requires Apply(contracts[cid], e, now, nextId) == Ok(Touch(row)) && row.status == Open
      requires newIds == if e.AddItem? then 1 else 0
      modifies this
      ensures Valid() && EditTx(old(State()), cid, e, now) == Ok(State())
      ensures cid in contracts && Edited(old(contracts)[cid], contracts[cid], e, old(nextId))
    {
      hide Apply, EditTx, EnqueueEffects, SoundDb, Edited;
      contracts := contracts[cid := row];
      nextId := nextId + newIds;
      TouchAndRefresh(cid, now);
      EditCommits(old(State()), cid, e, now, row, newIds);
      assert State() == EditTx(old(State()), cid, e, now).value;
      EditSettles(old(State()), State(), cid, e, now);
    }

    /** Refuses the edit, or commits the items it was decided to leave. */
    method CommitItems(cid: nat, decided: Result<seq<Item>>, newIds: nat, ghost e: Edit, now: int)
      returns (err: Option<Error>)
      requires Valid() && cid in contracts && Locked(contracts[cid], now).Ok? && e.Entered()
      requires e.OnRow() || e.AddItem? || e.LinkItem? || e.RemoveItem? || e.UpdateItem?
      requires !e.Delivers() && decided == EditItems(contracts[cid].items, e, nextId)
      requires newIds == if e.AddItem? then 1 else 0
      modifies this
      ensures Committed(old(State()), State(), EditTx(old(State()), cid, e, now), err)
      ensures Valid()
      ensures err.None? ==> cid in contracts && Edited(old(contracts)[cid], contracts[cid], e, old(nextId))
    {
      hide Apply, EditItems, EnqueueEffects, SoundDb, Edited;
      ItemsDecide(contracts[cid], e, now, nextId);
      if decided.Err? { return Some(decided.error); }
      Commit(cid, contracts[cid].(items := decided.value), newIds, e, now);
      err := None;
    }

    /** Refuses the delivery, or writes it and decides completion in the same transaction. */
    method CommitDelivery(cid: nat, decided: Result<seq<Item>>, ghost e: Edit, now: int)
      returns (complete: bool, err: Option<Error>)
      requires Valid() && cid in contracts && Locked(contracts[cid], now).Ok? && e.Entered() && e.Delivers()
      requires decided == EditItems(contracts[cid].items, e, nextId)
      modifies this
      ensures Committed(old(State()), State(), EditTx(old(State()), cid, e, now), err)
      ensures Valid()
      ensures err.None? ==> cid in contracts && Edited(old(contracts)[cid], contracts[cid], e, old(nextId))
      ensures complete ==> err.None?
      ensures err.None? ==>
                && (complete <==> contracts[cid].status == Completed)
                && (complete <==> Shortfall(contracts[cid].items) == 0)
    {
      hide Apply, EditItems, EnqueueEffects, SoundDb, Edited, FinishIfComplete;
      ItemsDecide(contracts[cid], e, now, nextId);
      if decided.Err? { return false, Some(decided.error); }
      ghost var row := contracts[cid].(items := decided.value);
      contracts := contracts[cid := contracts[cid].(items := decided.value)];
      complete := FinishIfCompleted(cid, now);
      err := None;
      assert old(contracts)[cid := row][cid := FinishIfComplete(row)] == old(contracts)[cid := FinishIfComplete(row)];
      DeliveryCommits(old(State()), cid, e, now, row);
      assert State() == EditTx(old(State()), cid, e, now).value;
      EditSettles(old(State()), State(), cid, e, now);
      SoundRows(old(State()), cid);
      DeliveryCompletesExactly(old(contracts)[cid], e, now, old(nextId));
      EditedRow(old(State()), cid, e, now);
      EffectsKeepRows(WithEdit(old(State()), cid, e, now), cid, now);
    }

    /** With items and none short, flips the status and enqueues payout and close; else refreshes. */
    method FinishIfCompleted(cid: nat, now: int) returns (complete: bool)
      requires cid in contracts && contracts[cid].status == Open
      modifies this
      ensures State() == EnqueueEffects(Put(old(State()), cid, FinishIfComplete(old(contracts)[cid])), cid, now)
      ensures complete <==> FinishIfComplete(old(contracts)[cid]).status == Completed
      ensures cid in contracts && nextId > old(nextId) && nextId - 1 in tasks
      ensures !complete ==> nextId == old(nextId) + 1 && tasks[old(nextId)].kind == Refresh
      ensures complete ==>
                tasks[nextId - 1].kind == Close
                && nextId == old(nextId) + if PaysOut(contracts[cid]) then 2 else 1
      ensures complete && PaysOut(contracts[cid]) ==> old(nextId) in tasks && tasks[old(nextId)].kind == PayoutReport
    {
      var items := contracts[cid].items;
      var short := 0;
      for i := 0 to |items|
        invariant short + ShortItems(items[i..]) == ShortItems(items)
      {
        if items[i].required > SumDelivered(items[i].rows) { short := short + 1; }
      }
      complete := |items| > 0 && short == 0;
      if complete {
        contracts := contracts[cid := Touch(contracts[cid]).(status := Completed)];
        if Rewarded(contracts[cid]) { Enqueue(PayoutReport, cid, false, now); }
        Enqueue(Close, cid, false, now);
      } else {
        TouchAndRefresh(cid, now);
      }
    }

    // ---- Items (console) ----

    method AddItemByID(
        server: nat, contract: nat, name: string, gdid: string, aliases: seq<string>, qty: int, maxItems: int, now: int)
      returns (err: Option<Error>)
      requires Valid()
      modifies this
      ensures
        var e, found := AddItem(name, gdid, aliases, qty, maxItems), ById(old(State()), server, contract);
        && Committed(old(State()), State(), EditFound(old(State()), found, e, now), err)
        && (err.None? ==> Did(old(State()), State(), found, e))
      ensures Valid()
    {
      ghost var e := AddItem(name, gdid, aliases, qty, maxItems);
      var found;
      found, err := LockOpenContractByID(server, contract, now);
      if err.Some? {
        LockRefuses(State(), found, e, now, err);
        return;
      }
      var decided := InsertNewItem(contracts[contract].items, name, gdid, aliases, qty, maxItems, nextId);
      err := CommitItems(contract, decided, 1, e, now);
    }

    method LinkItemGDID(server: nat, item: nat, gdid: string, aliases: seq<string>, now: int)
      returns (err: Option<Error>)
      requires Valid() && gdid != ""
      modifies this
      ensures
        var e, found := LinkItem(item, gdid, aliases), ByItem(old(State()), server, item);
        && Committed(old(State()), State(), EditFound(old(State()), found, e, now), err)
        && (err.None? ==> Did(old(State()), State(), found, e))
      ensures Valid()
    {
      ghost var e := LinkItem(item, gdid, aliases);
      var found;
      found, err := LockOpenContractByItem(server, item, now);
      if err.Some? {
        LockRefuses(State(), found, e, now, err);
        return;
      }
      var decided := Relink(contracts[found.value].items, item, gdid, aliases, nextId);
      err := CommitItems(found.value, decided, 0, e, now);
    }

    method RemoveItemByID(server: nat, item: nat, now: int) returns (cleared: nat, err: Option<Error>)
      requires Valid()
      modifies this
      ensures
        var e, found := RemoveItem(item), ByItem(old(State()), server, item);
        && Committed(old(State()), State(), EditFound(old(State()), found, e, now), err)
        && (err.None? ==> Did(old(State()), State(), found, e))
      ensures Valid()
      ensures err.None? ==>
                var it := ItemAt(old(contracts)[ByItem(old(State()), server, item).value].items, item);
                it.Some? && cleared == |it.value.rows|
    {
      ghost var e := RemoveItem(item);
      var found;
      cleared := 0;
      found, err := LockOpenContractByItem(server, item, now);
      if err.Some? {
        LockRefuses(State(), found, e, now, err);
        return;
      }
      var items := contracts[found.value].items;
      var k := ItemById(items, item);
      cleared := |items[k].rows|;
      err := CommitItems(found.value, Ok(Drop(items, k)), 0, e, now);
    }

    method UpdateItemByID(server: nat, item: nat, name: string, qty: int, now: int) returns (err: Option<Error>)
      requires Valid()
      modifies this
      ensures
        var e, found := UpdateItem(item, name, qty), ByItem(old(State()), server, item);
        && Committed(old(State()), State(), EditFound(old(State()), found, e, now), err)
        && (err.None? ==> Did(old(State()), State(), found, e))
      ensures Valid()
    {
      ghost var e := UpdateItem(item, name, qty);
      var found;
      found, err := LockOpenContractByItem(server, item, now);
      if err.Some? {
        LockRefuses(State(), found, e, now, err);
        return;
      }
      var decided := Resize(contracts[found.value].items, item, name, qty, nextId);
      err := CommitItems(found.value, decided, 0, e, now);
    }

    // ---- The contract's own columns (console) ----

    method UpdateDetailsByID(server: nat, contract: nat, title: string, description: string, now: int)
      returns (err: Option<Error>)
      requires Valid()
      modifies this
      ensures
        var e, found := UpdateDetails(title, description), ById(old(State()), server, contract);
        && Committed(old(State()), State(), EditFound(old(State()), found, e, now), err)
        && (err.None? ==> Did(old(State()), State(), found, e))
      ensures Valid()
    {
      ghost var e := UpdateDetails(title, description);
      var found;
      found, err := LockOpenContractByID(server, contract, now);
      if err.Some? {
        LockRefuses(State(), found, e, now, err);
        return;
      }
      Commit(contract, contracts[contract].(title := title, description := description), 0, e, now);
    }

    method SetDeadlineByID(server: nat, contract: nat, deadline: Option<int>, now: int) returns (err: Option<Error>)
      requires Valid()
      modifies this
      ensures
        var e, found := SetDeadline(deadline), ById(old(State()), server, contract);
        && Committed(old(State()), State(), EditFound(old(State()), found, e, now), err)
        && (err.None? ==> Did(old(State()), State(), found, e))
      ensures Valid()
    {
      ghost var e := SetDeadline(deadline);
      var found;
      found, err := LockOpenContractByID(server, contract, now);
      if err.Some? {
        LockRefuses(State(), found, e, now, err);
        return;
      }
      Commit(contract, contracts[contract].(deadline := deadline, notified := false), 0, e, now);
    }

    method UpdateRewardsByID(server: nat, contract: nat, credits: Option<nat>, factor: nat, now: int)
      returns (err: Option<Error>)
      requires Valid()
      modifies this
      ensures
        var e, found := UpdateRewards(credits, factor), ById(old(State()), server, contract);
        && Committed(old(State()), State(), EditFound(old(State()), found, e, now), err)
        && (err.None? ==> Did(old(State()), State(), found, e))
      ensures Valid()
    {
      ghost var e := UpdateRewards(credits, factor);
      var found;
      found, err := LockOpenContractByID(server, contract, now);
      if err.Some? {
        LockRefuses(State(), found, e, now, err);
        return;
      }
      if factor > 10000 { return Some(Constraint); }
      Commit(contract, contracts[contract].(credits := credits, factor := factor), 0, e, now);
    }

    method SetDeliveryLocationByID(server: nat, contract: nat, location: string, now: int) returns (err: Option<Error>)
      requires Valid()
      modifies this
      ensures
        var e, found := SetDeliveryLocation(location), ById(old(State()), server, contract);
        && Committed(old(State()), State(), EditFound(old(State()), found, e, now), err)
        && (err.None? ==> Did(old(State()), State(), found, e))
      ensures Valid()
    {
      ghost var e := SetDeliveryLocation(location);
      var found;
      found, err := LockOpenContractByID(server, contract, now);
      if err.Some? {
        LockRefuses(State(), found, e, now, err);
        return;
      }
      Commit(contract, contracts[contract].(location := location), 0, e, now);
    }

    // ---- Reservations ----

    method ParticipateInThread(server: nat, thread: nat, itemName: string, user: string, qty: int, now: int)
      returns (err: Option<Error>)
      requires Valid() && qty > 0
      modifies this
      ensures
        var e, found := Participate(itemName, user, qty), ByThread(old(State()), server, thread);
        && Committed(old(State()), State(), EditFound(old(State()), found, e, now), err)
        && (err.None? ==> Did(old(State()), State(), found, e))
      ensures Valid()
    {
      ghost var e := Participate(itemName, user, qty);
      var found;
      found, err := LockOpenContract(server, thread, now);
      if err.Some? {
        LockRefuses(State(), found, e, now, err);
        return;
      }
      var decided := TakePart(contracts[found.value].items, itemName, user, qty, nextId);
      err := CommitItems(found.value, decided, 0, e, now);
    }

    method DeliverInThread(server: nat, thread: nat, itemName: string, user: string, qty: int, now: int)
      returns (complete: bool, err: Option<Error>)
      requires Valid() && qty > 0
      modifies this
      ensures
        var e, found := Deliver(itemName, user, qty), ByThread(old(State()), server, thread);
        && Committed(old(State()), State(), EditFound(old(State()), found, e, now), err)
        && (err.None? ==> Did(old(State()), State(), found, e))
      ensures Valid()
      ensures complete <==> err.None? && Finished(State(), ByThread(old(State()), server, thread))
    {
      ghost var e := Deliver(itemName, user, qty);
      var found;
      complete := false;
      found, err := LockOpenContract(server, thread, now);
      if err.Some? {
        LockRefuses(State(), found, e, now, err);
        return;
      }
      var items := contracts[found.value].items;
      var k := ItemByName(items, itemName);
      if k == |items| { return false, Some(ItemNotFound); }
      var decided := HandIn(items, k, user, qty);
      complete, err := CommitDelivery(found.value, decided, e, now);
    }

    method DeliverByItemID(server: nat, item: nat, user: string, qty: int, now: int)
      returns (complete: bool, err: Option<Error>)
      requires Valid() && qty > 0
      modifies this
      ensures
        var e, found := DeliverByItem(item, user, qty), ByItem(old(State()), server, item);
        && Committed(old(State()), State(), EditFound(old(State()), found, e, now), err)
        && (err.None? ==> Did(old(State()), State(), found, e))
      ensures Valid()
      ensures complete <==> err.None? && Finished(State(), ByItem(old(State()), server, item))
    {
      ghost var e := DeliverByItem(item, user, qty);
      var found;
      complete := false;
      found, err := LockOpenContractByItem(server, item, now);
      if err.Some? {
        LockRefuses(State(), found, e, now, err);
        return;
      }
      var items := contracts[found.value].items;
      var decided := HandIn(items, ItemById(items, item), user, qty);
      complete, err := CommitDelivery(found.value, decided, e, now);
    }

    method ReleaseInThread(server: nat, thread: nat, itemName: string, user: string, qty: int, now: int)
      returns (err: Option<Error>)
      requires Valid() && qty > 0
      modifies this
      ensures
        var e, found := Release(itemName, user, qty), ByThread(old(State()), server, thread);
        && Committed(old(State()), State(), EditFound(old(State()), found, e, now), err)
        && (err.None? ==> Did(old(State()), State(), found, e))
      ensures Valid()
    {
      ghost var e := Release(itemName, user, qty);
      var found;
      found, err := LockOpenContract(server, thread, now);
      if err.Some? {
        LockRefuses(State(), found, e, now, err);
        return;
      }
      var decided := GiveBack(contracts[found.value].items, itemName, user, qty, nextId);
      err := CommitItems(found.value, decided, 0, e, now);
    }

    method SetReservationByItemID(server: nat, item: nat, user: string, reserved: int, now: int)
      returns (err: Option<Error>)
      requires Valid()
      modifies this
      ensures
        var e, found := SetReservation(item, user, reserved), ByItem(old(State()), server, item);
        && Committed(old(State()), State(), EditFound(old(State()), found, e, now), err)
        && (err.None? ==> Did(old(State()), State(), found, e))
      ensures Valid()
    {
      ghost var e := SetReservation(item, user, reserved);
      var found;
      found, err := LockOpenContractByItem(server, item, now);
      if err.Some? {
        LockRefuses(State(), found, e, now, err);
        return;
      }
      var decided := Reset(contracts[found.value].items, item, user, reserved, nextId);
      err := CommitItems(found.value, decided, 0, e, now);
    }

    method RemoveReservationByItemID(server: nat, item: nat, user: string, now: int) returns (err: Option<Error>)
      requires Valid()
      modifies this
      ensures
        var e, found := RemoveReservation(item, user), ByItem(old(State()), server, item);
        && Committed(old(State()), State(), EditFound(old(State()), found, e, now), err)
        && (err.None? ==> Did(old(State()), State(), found, e))
      ensures Valid()
    {
      ghost var e := RemoveReservation(item, user);
      var found;
      found, err := LockOpenContractByItem(server, item, now);
      if err.Some? {
        LockRefuses(State(), found, e, now, err);
        return;
      }
      var decided := Strike(contracts[found.value].items, item, user, nextId);
      err := CommitItems(found.value, decided, 0, e, now);
    }

    // ---- Lifecycle ----

    method CreateContract(input: CreateInput, postVersion: nat, now: int) returns (id: nat, err: Option<Error>)
      requires Valid()
      modifies this
      ensures Committed(old(State()), State(), CreateTx(old(State()), input, now, postVersion), err)
      ensures id == old(nextId) && (err.None? ==> id in contracts && contracts[id].status == Open)
      ensures err.None? <==>
                && input.factor <= 10000
                && (forall k :: 0 <= k < |input.items| ==> input.items[k].qty > 0)
                && (forall j, k :: 0 <= j < k < |input.items| ==> ToldApart(input.items[j], input.items[k]))
      ensures Valid()
    {
      hide SoundDb, Distinct;
      id := nextId;
      err := None;
      CreateAcceptedExactly(input, id + 1, postVersion);
      var items := NewItems(input.items, id + 1);
      if input.factor > 10000 || exists k :: 0 <= k < |items| && items[k].required <= 0 { return id, Some(Constraint); }
      if exists j, k :: 0 <= j < k < |items| && !Distinct(items[j], items[k]) { return id, Some(Constraint); }
      contracts := contracts[id := Contract(
        input.server, None, postVersion, input.title, input.description, input.location,
        Open, input.deadline, false, 0, input.credits, input.factor, items, [], None, false, None, None)];
      nextId := id + 1 + |items|;
      Enqueue(CreateThread, id, false, now);
      CreateKeepsValid(old(State()), State(), input, now, postVersion);
    }

    method CancelByID(server: nat, contract: nat, now: int) returns (err: Option<Error>)
      requires Valid()
      modifies this
      ensures Committed(
                old(State()), State(), CancelFound(old(State()), ById(old(State()), server, contract), now), err)
      ensures Valid()
      ensures err.None? ==>
                && contract in old(contracts) && old(contracts)[contract].status == Open
                && contract in contracts && contracts[contract].status == Cancelled
                && SameAccount(old(contracts)[contract], contracts[contract])
    {
      if contract in contracts { LifecycleKeepsDb(State(), contract, now); }
      if contract !in contracts || contracts[contract].server != server { return Some(NotFound); }
      if contracts[contract].status != Open { return Some(Closed); }
      contracts := contracts[contract := Touch(contracts[contract]).(status := Cancelled)];
      Enqueue(Close, contract, false, now);
      err := None;
    }

    /** The sweeper's flip; reports whether this call made it. */
    method MarkExpiredByID(contract: nat, now: int) returns (won: bool)
      requires Valid()
      modifies this
      ensures State() == if contract in old(contracts) then ExpireTx(old(State()), contract, now) else old(State())
      ensures won <==> State() != old(State())
      ensures won <==>
                && contract in old(contracts) && old(contracts)[contract].status == Open
                && old(contracts)[contract].deadline.Some? && old(contracts)[contract].deadline.value <= now
      ensures Valid()
      ensures won ==>
                && contract in contracts && contracts[contract].status == Expired
                && SameAccount(old(contracts)[contract], contracts[contract])
    {
      if contract in contracts { LifecycleKeepsDb(State(), contract, now); }
      won := false;
      if contract in contracts && contracts[contract].status == Open && Expiring(contracts[contract], now) {
        contracts := contracts[contract := Touch(contracts[contract]).(status := Expired)];
        Enqueue(Close, contract, false, now);
        won := true;
      }
    }

    method MarkNotifiedByID(contract: nat, now: int) returns (won: bool)
      requires Valid()
      modifies this
      ensures State() == if contract in old(contracts) then NotifyTx(old(State()), contract, now) else old(State())
      ensures won <==> State() != old(State())
      ensures won <==>
                && contract in old(contracts) && old(contracts)[contract].status == Open
                && !old(contracts)[contract].notified
                && exists k :: 0 <= k < |old(contracts)[contract].items| && old(contracts)[contract].items[k].rows != []
      ensures Valid()
    {
      if contract in contracts { LifecycleKeepsDb(State(), contract, now); }
      won := false;
      if contract in contracts && MarkNotified(contracts[contract]).Some? {
        contracts := contracts[contract := contracts[contract].(notified := true)];
        Enqueue(Notify, contract, false, now);
        won := true;
      }
    }

    // ---- The post ----

    /** Records the forum thread; the unique index refuses a thread another contract has. */
    method SetThreadID(contract: nat, thread: nat, postVersion: nat) returns (err: Option<Error>)
      requires Valid() && contract in contracts
      modifies this
      ensures Committed(
                old(State()), State(),
                if ThreadTaken(old(State()), thread, contract) then Err(Constraint)
                else Ok(SetThreadTx(old(State()), contract, thread, postVersion)), err)
      ensures err.None? ==>
                && contract in contracts
                && contracts[contract].thread == Some(thread) && contracts[contract].postVersion == postVersion
      ensures Valid()
    {
      if ThreadTaken(State(), thread, contract) { return Some(Constraint); }
      var c := contracts[contract].(thread := Some(thread), postVersion := postVersion);
      RewriteKeepsDb(State(), contract, c);
      contracts := contracts[contract := c];
      err := None;
    }

    method RecreatePost(contract: nat, now: int)
      requires Valid() && contract in contracts
      modifies this
      ensures State() == RecreateTx(old(State()), contract, now)
      ensures Valid()
    {
      RewriteKeepsDb(State(), contract, contracts[contract].(thread := None));
      EnqueueKeepsDb(Put(State(), contract, contracts[contract].(thread := None)), CreateThread, contract, false, now);
      contracts := contracts[contract := contracts[contract].(thread := None)];
      Enqueue(CreateThread, contract, false, now);
    }

    /** Reports whether it enqueued a create (true) or a refresh or close (false). */
    method Republish(server: nat, contract: nat, now: int) returns (creating: bool, err: Option<Error>)
      requires Valid()
      modifies this
      ensures Committed(
                old(State()), State(), RepublishFound(old(State()), ById(old(State()), server, contract), now), err)
      ensures err.None? ==> (creating <==> contract in old(contracts) && old(contracts)[contract].thread.None?)
      ensures err.None? ==>
                && contract in old(contracts) && nextId == old(nextId) + 1 && old(nextId) in tasks
                && tasks[old(nextId)].kind == if creating then CreateThread
                                              else if old(contracts)[contract].status == Open then Refresh else Close
      ensures Valid()
    {
      if contract in contracts {
        EnqueueKeepsDb(State(), RepairKind(contracts[contract]), contract, false, now);
      }
      creating, err := false, None;
      if contract !in contracts || contracts[contract].server != server { return false, Some(NotFound); }
      if contracts[contract].thread.None? {
        Enqueue(CreateThread, contract, false, now);
        creating := true;
      } else if contracts[contract].status == Open {
        Enqueue(Refresh, contract, false, now);
      } else {
        Enqueue(Close, contract, false, now);
      }
    }

    // ---- Payouts ----

    method SavePayouts(contract: nat, rows: seq<Payout>, decimals: nat) returns (err: Option<Error>)
      requires Valid() && contract in contracts
      modifies this
      ensures Committed(old(State()), State(), SavePayoutsTx(old(State()), contract, rows, decimals), err)
      ensures err.None? <==>
                && (decimals <= 2 || old(contracts)[contract].payoutDecimals.Some?)
                && forall k :: 0 <= k < |rows| ==> rows[k].amount >= 0 && 0 <= rows[k].share <= 100000000
      ensures Valid()
    {
      if exists k :: 0 <= k < |rows| && !Storable(rows[k]) { return Some(Constraint); }
      if contracts[contract].payoutDecimals.None? && decimals > 2 { return Some(Constraint); }
      var c := contracts[contract];
      var saved := c.payouts;
      for k := 0 to |rows|
        invariant InsertRows(saved, rows[k..]) == InsertRows(c.payouts, rows)
      {
        if !HasRow(saved, rows[k].user) { saved := saved + [rows[k]]; }
      }
      c := c.(payouts := saved);
      if c.payoutDecimals.None? { c := c.(payoutDecimals := Some(decimals)); }
      RewriteKeepsDb(State(), contract, c);
      contracts := contracts[contract := c];
      err := None;
    }

    method MarkPayoutPosted(contract: nat, report: Report)
      requires Valid() && contract in contracts
      modifies this
      ensures State() == MarkPostedTx(old(State()), contract, report)
      ensures contract in contracts && contracts[contract].posted && contracts[contract].report == Some(report)
      ensures Valid()
    {
      RewriteKeepsDb(State(), contract, contracts[contract].(posted := true, report := Some(report)));
      contracts := contracts[contract := contracts[contract].(posted := true, report := Some(report))];
    }

    method RequestPayoutRepost(server: nat, contract: nat, now: int) returns (err: Option<Error>)
      requires Valid()
      modifies this
      ensures Committed(
                old(State()), State(), RepostFound(old(State()), ById(old(State()), server, contract), now), err)
      ensures err.None? <==>
                && contract in old(contracts) && old(contracts)[contract].server == server
                && PaysOut(old(contracts)[contract])
      ensures err.None? ==>
                && old(nextId) in tasks && nextId == old(nextId) + 1
                && tasks[old(nextId)].kind == PayoutReport && tasks[old(nextId)].repost
      ensures Valid()
    {
      if contract in contracts { EnqueueKeepsDb(State(), PayoutReport, contract, true, now); }
      if contract !in contracts || contracts[contract].server != server { return Some(NotFound); }
      if contracts[contract].status != Completed || !Rewarded(contracts[contract]) { return Some(NotFound); }
      Enqueue(PayoutReport, contract, true, now);
      err := None;
    }

    /** One winner: reports false, without writing, on any later press. */
    method MarkPayoutsPaid(server: nat, contract: nat, actor: string) returns (won: bool)
      requires Valid()
      modifies this
      ensures State() == if OnServer(old(State()), contract, server)
                         then MarkPaidTx(old(State()), contract, actor) else old(State())
      ensures won <==> State() != old(State())
      ensures won <==>
                && contract in old(contracts) && old(contracts)[contract].server == server
                && old(contracts)[contract].status == Completed && old(contracts)[contract].paidBy.None?
      ensures won ==> contract in contracts && contracts[contract].paidBy == Some(actor)
      ensures Valid()
    {
      if contract in contracts { RewriteKeepsDb(State(), contract, contracts[contract].(paidBy := Some(actor))); }
      won := false;
      if contract in contracts && contracts[contract].server == server
         && contracts[contract].status == Completed && contracts[contract].paidBy.None? {
        contracts := contracts[contract := contracts[contract].(paidBy := Some(actor))];
        won := true;
      }
    }
  }

  // ---- The checks between the lock and the write ----

  method NewItems(input: seq<NewItem>, firstId: nat) returns (items: seq<Item>)
    ensures items == InitialItems(input, firstId)
  {
    items := [];
    for k := 0 to |input|
      invariant items == InitialItems(input, firstId)[..k]
    {
      items := items + [Item(firstId + k, input[k].name, input[k].gdid, input[k].qty, [])];
    }
  }

  method InsertNewItem(
      items: seq<Item>, name: string, gdid: string, aliases: seq<string>, qty: int, maxItems: int, id: nat)
    returns (r: Result<seq<Item>>)
    ensures r == EditItems(items, AddItem(name, gdid, aliases, qty, maxItems), id)
  {
    if |items| >= maxItems { return Err(MaxItems); }
    var names := LoweredNames(name, aliases);
    if exists j :: 0 <= j < |items| && Clashes(items[j], names, gdid) { return Err(ItemExists); }
    if qty <= 0 || ItemByName(items, name) < |items| { return Err(Constraint); }
    r := Ok(items + [Item(id, name, gdid, qty, [])]);
  }

  method Relink(items: seq<Item>, item: nat, gdid: string, aliases: seq<string>, ghost newId: nat)
    returns (r: Result<seq<Item>>)
    requires ItemById(items, item) < |items|
    ensures r == EditItems(items, LinkItem(item, gdid, aliases), newId)
  {
    var k := ItemById(items, item);
    var names := LoweredNames("", aliases);
    if exists j :: 0 <= j < |items| && j != k && Clashes(items[j], names, gdid) { return Err(ItemExists); }
    r := Ok(items[k := items[k].(gdid := gdid)]);
  }

  method Resize(items: seq<Item>, item: nat, name: string, qty: int, ghost newId: nat)
    returns (r: Result<seq<Item>>)
    requires ItemById(items, item) < |items|
    ensures r == EditItems(items, UpdateItem(item, name, qty), newId)
  {
    var k := ItemById(items, item);
    if exists j :: 0 <= j < |items| && j != k && Lower(items[j].name) == Lower(name) { return Err(ItemExists); }
    if qty < SumReserved(items[k].rows) { return Err(QtyBelowReserved); }
    if qty <= 0 { return Err(Constraint); }
    r := Ok(items[k := items[k].(name := name, required := qty)]);
  }

  method TakePart(items: seq<Item>, itemName: string, user: string, qty: int, ghost newId: nat)
    returns (r: Result<seq<Item>>)
    ensures r == EditItems(items, Participate(itemName, user, qty), newId)
  {
    var k := ItemByName(items, itemName);
    if k == |items| { return Err(ItemNotFound); }
    var rows := items[k].rows;
    if qty > items[k].required - SumReserved(rows) { return Err(OverCap); }
    var i := RowOf(rows, user);
    if i < |rows| {
      rows := rows[i := rows[i].(reserved := rows[i].reserved + qty)];
    } else {
      rows := rows + [Participant(user, qty, 0)];
    }
    r := Ok(items[k := items[k].(rows := rows)]);
  }

  /** A delivery on the k-th item, found by name in the thread or by id on the console. */
  method HandIn(items: seq<Item>, k: nat, user: string, qty: int) returns (r: Result<seq<Item>>)
    requires k < |items|
    ensures forall e: Edit, newId: nat ::
              e.Delivers() && Target(items, e) == k && e.user == user && e.qty == qty
              ==> r == EditItems(items, e, newId)
  {
    var rows := items[k].rows;
    var i := RowOf(rows, user);
    if i == |rows| { return Err(NoReservation); }
    if qty > rows[i].reserved - rows[i].delivered { return Err(OverReserved); }
    r := Ok(items[k := items[k].(rows := rows[i := rows[i].(delivered := rows[i].delivered + qty)])]);
  }

  method GiveBack(items: seq<Item>, itemName: string, user: string, qty: int, ghost newId: nat)
    returns (r: Result<seq<Item>>)
    ensures r == EditItems(items, Release(itemName, user, qty), newId)
  {
    var k := ItemByName(items, itemName);
    if k == |items| { return Err(ItemNotFound); }
    var rows := items[k].rows;
    var i := RowOf(rows, user);
    if i == |rows| { return Err(NoReservation); }
    if qty > rows[i].reserved - rows[i].delivered { return Err(BelowDelivered); }
    rows := StoreReserved(rows, i, rows[i].reserved - qty);
    r := Ok(items[k := items[k].(rows := rows)]);
  }

  method Reset(items: seq<Item>, item: nat, user: string, reserved: int, ghost newId: nat)
    returns (r: Result<seq<Item>>)
    requires ItemById(items, item) < |items|
    ensures r == EditItems(items, SetReservation(item, user, reserved), newId)
  {
    var k := ItemById(items, item);
    var rows := items[k].rows;
    var i := RowOf(rows, user);
    if i == |rows| { return Err(NoReservation); }
    if reserved < rows[i].delivered { return Err(BelowDelivered); }
    var others := SumReserved(Drop(rows, i));
    if reserved > items[k].required - others { return Err(OverCap); }
    rows := StoreReserved(rows, i, reserved);
    r := Ok(items[k := items[k].(rows := rows)]);
  }

  method Strike(items: seq<Item>, item: nat, user: string, ghost newId: nat) returns (r: Result<seq<Item>>)
    requires ItemById(items, item) < |items|
    ensures r == EditItems(items, RemoveReservation(item, user), newId)
  {
    var k := ItemById(items, item);
    var rows := items[k].rows;
    var i := RowOf(rows, user);
    if i == |rows| { return Err(NoReservation); }
    r := Ok(items[k := items[k].(rows := Drop(rows, i))]);
  }

  /** Writes the reserved quantity, deleting a row left at 0/0. */
  method StoreReserved(rows: seq<Participant>, i: nat, reserved: int) returns (r: seq<Participant>)
    requires i < |rows|
    ensures r == PutReserved(rows, i, reserved)
  {
    if reserved == 0 && rows[i].delivered == 0 {
      r := Drop(rows, i);
    } else {
      r := rows[i := rows[i].(reserved := reserved)];
    }
  }

  ghost predicate Finished(db: Db, found: Option<nat>) {
    && found.Some? && found.value in db.contracts
    && db.contracts[found.value].status == Completed && Shortfall(db.contracts[found.value].items) == 0
  }

  /** A lookup that found nothing, or a contract that is closed or past its deadline, refuses every edit. */
  lemma LockRefuses(db: Db, found: Option<nat>, e: Edit, now: int, err: Option<Error>)
    requires found.Some? ==> found.value in db.contracts
    requires err == if found.None? then Some(NotFound) else GuardError(db.contracts[found.value], now)
    ensures err.Some? ==> EditFound(db, found, e, now) == Err(err.value)
  {
  }

  function GuardError(c: Contract, now: int): Option<Error> {
    match Locked(c, now) case Ok(_) => None case Err(e) => Some(e)
  }

  /** The open-and-not-expired guard after the row lock. */
  method Guard(c: Contract, now: int) returns (err: Option<Error>)
    ensures err == GuardError(c, now)
  {
    if c.status != Open { return Some(Closed); }
    if c.deadline.Some? && c.deadline.value <= now { return Some(DeadlinePassed); }
    err := None;
  }

  /** An item is on one contract, so the lookup by item finds that one. */
  lemma OneOwner(db: Db, server: nat, item: nat, cid: nat)
    requires Keyed(db) && Owns(db, cid, server, item)
    ensures ByItem(db, server, item) == Some(cid)
  {
    var r := ByItem(db, server, item);
    assert r.Some? ==> BothHaveItem(db, r.value, cid, item);
  }

  lemma OneThread(db: Db, server: nat, thread: nat, cid: nat)
    requires Keyed(db) && HasThread(db, cid, server, thread)
    ensures ByThread(db, server, thread) == Some(cid)
  {
    var r := ByThread(db, server, thread);
    assert r.Some? ==> ShareThread(db, r.value, cid);
  }

  lemma CreateKeepsValid(before: Db, after: Db, input: CreateInput, now: int, postVersion: nat)
    requires SoundDb(before)
    requires CreateTx(before, input, now, postVersion).Ok? && after == CreateTx(before, input, now, postVersion).value
    ensures SoundDb(after)
  {
    CreateKeepsDb(before, input, now, postVersion);
  }
}
