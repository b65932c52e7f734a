/** The contracts tables together with the outbox, and every repository transaction as one step on them. */
module Transactions {
  import opened Prelude
  import opened Contracts
  import opened Ledger
  import opened Outbox

  /** `nextId` stands for UUIDv7: every new contract, item and task takes the next larger id. */
  datatype Db = Db(contracts: map<nat, Contract>, tasks: Table, nextId: nat)

  /** Appends a task on the caller's transaction: pending, due at once, collapsing by contract. */
  function EnqueueTask(db: Db, kind: Kind, cid: nat, repost: bool, now: int): Db
    requires cid in db.contracts
  {
    var t := Task(kind, cid, repost, db.contracts[cid].revision, Some(cid), Pending, 0, now, now, None);
    db.(tasks := db.tasks[db.nextId := t], nextId := db.nextId + 1)
  }

  function Put(db: Db, cid: nat, c: Contract): Db { db.(contracts := db.contracts[cid := c]) }

  /** The side effects an edit's transaction enqueues: a refresh, or on completion the payout (if any) and the close. */
  function EnqueueEffects(db: Db, cid: nat, now: int): Db
    requires cid in db.contracts
  {
    var c := db.contracts[cid];
    if c.status == Open then EnqueueTask(db, Refresh, cid, false, now)
    else
      var db := if c.status == Completed && Rewarded(c) then EnqueueTask(db, PayoutReport, cid, false, now) else db;
      EnqueueTask(db, Close, cid, false, now)
  }

  /** One edit, committed with its side effects or refused without a trace. */
  function EditTx(db: Db, cid: nat, e: Edit, now: int): Result<Db>
    requires cid in db.contracts
  {
    var c :- Apply(db.contracts[cid], e, now, db.nextId);
    var db' := Put(db, cid, c).(nextId := if e.AddItem? then db.nextId + 1 else db.nextId);
    Ok(EnqueueEffects(db', cid, now))
  }

  /** An edit addressed to a contract the lookup may not have found. */
  function EditFound(db: Db, found: Option<nat>, e: Edit, now: int): Result<Db>
    requires found.Some? ==> found.value in db.contracts
  {
    if found.None? then Err(NotFound) else EditTx(db, found.value, e, now)
  }

  /** A contract with its items takes consecutive ids, then the create-thread task the next one. */
  function CreateTx(db: Db, input: CreateInput, now: int, postVersion: nat): Result<Db> {
    var id := db.nextId;
    var c :- Create(input, id + 1, postVersion);
    var db' := Put(db, id, c).(nextId := id + 1 + |input.items|);
    Ok(EnqueueTask(db', CreateThread, id, false, now))
  }

  function CancelTx(db: Db, cid: nat, now: int): Result<Db>
    requires cid in db.contracts
  {
    var c :- Cancel(db.contracts[cid]);
    Ok(EnqueueEffects(Put(db, cid, c), cid, now))
  }

  function ExpireTx(db: Db, cid: nat, now: int): Db
    requires cid in db.contracts
  {
    match MarkExpired(db.contracts[cid], now)
    case None => db
    case Some(c) => EnqueueEffects(Put(db, cid, c), cid, now)
  }

  function NotifyTx(db: Db, cid: nat, now: int): Db
    requires cid in db.contracts
  {
    match MarkNotified(db.contracts[cid])
    case None => db
    case Some(c) => EnqueueTask(Put(db, cid, c), Notify, cid, false, now)
  }

  /** The task that brings a contract's post up to date: a refresh while it is open, the close after. */
  function UpdateKind(c: Contract): Kind { if c.status == Open then Refresh else Close }

  /** The task that repairs a contract's post: a create without a thread, an update otherwise. */
  function RepairKind(c: Contract): Kind { if c.thread.None? then CreateThread else UpdateKind(c) }

  function RepublishTx(db: Db, cid: nat, now: int): Db
    requires cid in db.contracts
  {
    EnqueueTask(db, RepairKind(db.contracts[cid]), cid, false, now)
  }

  function SetThreadTx(db: Db, cid: nat, thread: nat, postVersion: nat): Db
    requires cid in db.contracts
  {
    Put(db, cid, SetThread(db.contracts[cid], thread, postVersion))
  }

  /** Clears the thread and enqueues a create in one transaction. */
  function RecreateTx(db: Db, cid: nat, now: int): Db
    requires cid in db.contracts
  {
    EnqueueTask(Put(db, cid, db.contracts[cid].(thread := None)), CreateThread, cid, false, now)
  }

  // ---- Payout latches ----

  predicate HasRow(rows: seq<Payout>, user: string) { exists k :: 0 <= k < |rows| && rows[k].user == user }

  /** INSERT ... ON CONFLICT (contract, user) DO NOTHING, row by row. */
  function InsertRows(rows: seq<Payout>, added: seq<Payout>): seq<Payout>
    decreases |added|
  {
    if added == [] then rows
    else InsertRows(if HasRow(rows, added[0].user) then rows else rows + [added[0]], added[1..])
  }

  /** The CHECK constraints on a payout row. */
  predicate Storable(row: Payout) { row.amount >= 0 && 0 <= row.share <= 100000000 }

  /** Persists the computed rows and freezes the precision; whatever is already there wins. */
  function SavePayoutsTx(db: Db, cid: nat, rows: seq<Payout>, decimals: nat): Result<Db>
    requires cid in db.contracts
  {
    var c := db.contracts[cid];
    if (c.payoutDecimals.None? && decimals > 2) || exists k :: 0 <= k < |rows| && !Storable(rows[k])
    then Err(Constraint)
    else Ok(Put(db, cid, c.(
      payouts := InsertRows(c.payouts, rows),
      payoutDecimals := if c.payoutDecimals.None? then Some(decimals) else c.payoutDecimals)))
  }

  function MarkPostedTx(db: Db, cid: nat, report: Report): Db
    requires cid in db.contracts
  {
    Put(db, cid, db.contracts[cid].(posted := true, report := Some(report)))
  }

  /** The console's Reprint: refused unless the contract is completed and was rewarded. */
  function RepostTx(db: Db, cid: nat, now: int): Result<Db>
    requires cid in db.contracts
  {
    var c := db.contracts[cid];
    if c.status == Completed && Rewarded(c) then Ok(EnqueueTask(db, PayoutReport, cid, true, now)) else Err(NotFound)
  }

  /** Marks a completed contract's payouts as handed out; the second press changes nothing. */
  function MarkPaidTx(db: Db, cid: nat, actor: string): Db
    requires cid in db.contracts
  {
    var c := db.contracts[cid];
    if c.status == Completed && c.paidBy.None? then Put(db, cid, c.(paidBy := Some(actor))) else db
  }

  // ---- Resolving the addressed contract ----

  predicate OnServer(db: Db, cid: nat, server: nat) { cid in db.contracts && db.contracts[cid].server == server }

  function ById(db: Db, server: nat, cid: nat): Option<nat> {
    if OnServer(db, cid, server) then Some(cid) else None
  }

  // Transactions of the console address the contract by id on their server.

  function CancelFound(db: Db, found: Option<nat>, now: int): Result<Db>
    requires found.Some? ==> found.value in db.contracts
  {
    if found.None? then Err(NotFound) else CancelTx(db, found.value, now)
  }

  function RepublishFound(db: Db, found: Option<nat>, now: int): Result<Db>
    requires found.Some? ==> found.value in db.contracts
  {
    if found.None? then Err(NotFound) else Ok(RepublishTx(db, found.value, now))
  }

  function RepostFound(db: Db, found: Option<nat>, now: int): Result<Db>
    requires found.Some? ==> found.value in db.contracts
  {
    if found.None? then Err(NotFound) else RepostTx(db, found.value, now)
  }

  predicate HasItem(c: Contract, item: nat) { ItemById(c.items, item) < |c.items| }

  predicate Owns(db: Db, cid: nat, server: nat, item: nat) {
    OnServer(db, cid, server) && HasItem(db.contracts[cid], item)
  }

  ghost function ByItem(db: Db, server: nat, item: nat): (r: Option<nat>)
    ensures r.Some? ==> Owns(db, r.value, server, item)
  {
    if cid :| Owns(db, cid, server, item) then Some(cid) else None
  }

  predicate HasThread(db: Db, cid: nat, server: nat, thread: nat) {
    OnServer(db, cid, server) && db.contracts[cid].thread == Some(thread)
  }

  ghost function ByThread(db: Db, server: nat, thread: nat): (r: Option<nat>)
    ensures r.Some? ==> HasThread(db, r.value, server, thread)
  {
    if cid :| HasThread(db, cid, server, thread) then Some(cid) else None
  }

  /** The tables' keys: ids below the next one, an item id and a thread each on one contract. */
  ghost predicate Keyed(db: Db) {
    && (forall cid, item: nat :: cid in db.contracts && HasItem(db.contracts[cid], item) ==> item < db.nextId)
    && (forall cid :: cid in db.contracts ==> cid < db.nextId)
    && (forall id :: id in db.tasks ==> id < db.nextId)
    && (forall a, b, item: nat :: BothHaveItem(db, a, b, item) ==> a == b)
    && (forall a, b :: ShareThread(db, a, b) ==> a == b)
  }

  predicate BothHaveItem(db: Db, a: nat, b: nat, item: nat) {
    && a in db.contracts && b in db.contracts
    && HasItem(db.contracts[a], item) && HasItem(db.contracts[b], item)
  }

  predicate ShareThread(db: Db, a: nat, b: nat) {
    && a in db.contracts && b in db.contracts
    && db.contracts[a].thread.Some? && db.contracts[a].thread == db.contracts[b].thread
  }

  // ---- What every transaction outside the payout and thread writes guarantees ----

  /** What a terminal contract never loses: the data later payout arithmetic depends on. */
  predicate SameAccount(c: Contract, c': Contract) {
    c'.items == c.items && c'.credits == c.credits && c'.factor == c.factor
  }

  /** A change of one contract row by a domain transaction. */
  predicate DomainChange(c: Contract, c': Contract) {
    && c'.thread == c.thread && c'.postVersion == c.postVersion && c'.revision >= c.revision
    && c'.payouts == c.payouts && c'.payoutDecimals == c.payoutDecimals
    && c'.posted == c.posted && c'.report == c.report
    && (c'.status != c.status ==> c'.revision > c.revision)
    && (c.paidBy.Some? ==> c'.paidBy == c.paidBy)
    && (c.status != Open ==> c'.status == c.status && SameAccount(c, c') && c'.revision == c.revision)
    && (Sound(c) ==> Sound(c'))
  }

  /** A task the contracts feature enqueued for a contract at its current revision. */
  predicate TaskFor(t: Task, cid: nat, revision: nat) {
    t.contract == cid && t.chronometric == Some(cid) && t.status == Pending && t.revision == revision
  }

  /** Rows only appended, each for the contract. */
  ghost predicate Appended(db: Db, db': Db, cid: nat, revision: nat) {
    && db'.nextId >= db.nextId
    && (forall id :: id in db.tasks ==> id in db'.tasks && db'.tasks[id] == db.tasks[id])
    && (forall id :: id in db'.tasks && id !in db.tasks ==>
          db.nextId <= id < db'.nextId && TaskFor(db'.tasks[id], cid, revision))
  }

  ghost predicate AppendedKind(db: Db, db': Db, kind: Kind) {
    exists id :: id in db'.tasks && id !in db.tasks && db'.tasks[id].kind == kind
  }

  /** Exactly these rows are new, under consecutive ids; all others are as they were. */
  ghost predicate Enqueued(before: Table, after: Table, first: nat, kinds: seq<Kind>, cid: nat, revision: nat) {
    && (forall id :: id in after <==> id in before || first <= id < first + |kinds|)
    && (forall id :: id in before ==> after[id] == before[id])
    && (forall id: nat :: first <= id < first + |kinds| ==>
          after[id].kind == kinds[id - first] && TaskFor(after[id], cid, revision))
  }

  /** What a change of a contract owes the world: its update, and behind a rewarded completion the payout first. */
  function EffectKinds(c: Contract): seq<Kind> {
    if c.status == Completed && Rewarded(c) then [PayoutReport, Close] else [UpdateKind(c)]
  }

  /**
   * One domain transaction: one row changes and tasks are appended in the same step. A visible change brings its
   * refresh or close with it, and a rewarded completion its payout.
   */
  ghost predicate DomainStep(db: Db, db': Db, cid: nat) {
    && cid in db.contracts && cid in db'.contracts
    && db'.contracts == db.contracts[cid := db'.contracts[cid]]
    && var c, c' := db.contracts[cid], db'.contracts[cid];
    && DomainChange(c, c')
    && Appended(db, db', cid, c'.revision)
    && (c'.revision > c.revision ==> AppendedKind(db, db', UpdateKind(c')))
    && (c.status == Open && c'.status == Completed && Rewarded(c') ==> AppendedKind(db, db', PayoutReport))
    && (forall item: nat :: HasItem(c', item) ==> HasItem(c, item) || db.nextId <= item < db'.nextId)
  }

  lemma DomainStepKeepsKeys(db: Db, db': Db, cid: nat)
    requires Keyed(db) && DomainStep(db, db', cid)
    ensures Keyed(db')
  {
    var c, c' := db.contracts[cid], db'.contracts[cid];
    forall a, b, item: nat | BothHaveItem(db', a, b, item) ensures a == b {
      assert a != b ==> BothHaveItem(db, a, b, item);
    }
    forall a, b | ShareThread(db', a, b) ensures a == b {
      assert ShareThread(db, a, b);
    }
  }

  lemma EnqueueAppends(db: Db, kind: Kind, cid: nat, repost: bool, now: int)
    requires cid in db.contracts && forall id :: id in db.tasks ==> id < db.nextId
    ensures var db' := EnqueueTask(db, kind, cid, repost, now);
      && Appended(db, db', cid, db.contracts[cid].revision)
      && AppendedKind(db, db', kind)
      && Enqueued(db.tasks, db'.tasks, db.nextId, [kind], cid, db.contracts[cid].revision)
      && db'.contracts == db.contracts
      && forall id :: id in db'.tasks ==> id < db'.nextId
  {
    assert EnqueueTask(db, kind, cid, repost, now).tasks[db.nextId].kind == kind;
  }

  lemma EffectsAppend(db: Db, cid: nat, now: int)
    requires cid in db.contracts && forall id :: id in db.tasks ==> id < db.nextId
    ensures var db' := EnqueueEffects(db, cid, now);
      && Appended(db, db', cid, db.contracts[cid].revision)
      && db'.contracts == db.contracts && db'.nextId == db.nextId + |EffectKinds(db.contracts[cid])|
      && Enqueued(db.tasks, db'.tasks, db.nextId, EffectKinds(db.contracts[cid]), cid, db.contracts[cid].revision)
      && AppendedKind(db, db', UpdateKind(db.contracts[cid]))
      && (db.contracts[cid].status == Completed && Rewarded(db.contracts[cid]) ==> AppendedKind(db, db', PayoutReport))
  {
    var c := db.contracts[cid];
    if c.status == Completed && Rewarded(c) {
      PayoutAndCloseAppend(db, cid, now);
    } else {
      EnqueueAppends(db, UpdateKind(c), cid, false, now);
    }
  }

  lemma PayoutAndCloseAppend(db: Db, cid: nat, now: int)
    requires cid in db.contracts && forall id :: id in db.tasks ==> id < db.nextId
    ensures var mid := EnqueueTask(db, PayoutReport, cid, false, now);
      var db' := EnqueueTask(mid, Close, cid, false, now);
      && Appended(db, db', cid, db.contracts[cid].revision)
      && Enqueued(db.tasks, db'.tasks, db.nextId, [PayoutReport, Close], cid, db.contracts[cid].revision)
      && AppendedKind(db, db', Close) && AppendedKind(db, db', PayoutReport)
  {
    var mid := EnqueueTask(db, PayoutReport, cid, false, now);
    var db' := EnqueueTask(mid, Close, cid, false, now);
    assert db'.tasks[db.nextId].kind == PayoutReport && db'.tasks[mid.nextId].kind == Close;
  }

  lemma {:induction false} FreshItem(db: Db, cid: nat)
    requires Keyed(db) && cid in db.contracts
    ensures !HasItem(db.contracts[cid], db.nextId)
  {
  }

  lemma EditKeepsItemIds(c: Contract, e: Edit, now: int, newId: nat, item: nat)
    requires Sound(c) && e.Entered() && Apply(c, e, now, newId).Ok? && !HasItem(c, newId)
    requires HasItem(Apply(c, e, now, newId).value, item)
    ensures HasItem(c, item) || (e.AddItem? && item == newId)
  {
    if e.OnRow() {
      RowEditChangesOneCell(c, e, now, newId, item, "");
      var items' := Apply(c, e, now, newId).value.items;
      assert items'[ItemById(items', item)].id == c.items[ItemById(items', item)].id;
    } else if e.AddItem? || e.LinkItem? || e.RemoveItem? || e.UpdateItem? {
      ItemEditChangesOneItem(c, e, now, newId, item);
    }
  }

  /** What an edit changes besides the items: the watermark always, the status only by completing. */
  lemma EditIsDomainChange(c: Contract, e: Edit, now: int, newId: nat)
    requires e.Entered() && Apply(c, e, now, newId).Ok? && !HasItem(c, newId)
    ensures DomainChange(c, Apply(c, e, now, newId).value)
    ensures Apply(c, e, now, newId).value.revision == c.revision + 1
  {
    hide Sound, EditItems;
    if Sound(c) { EditKeepsSound(c, e, now, newId); }
  }

  /** The tables with the edited row, before its side effects are enqueued. */
  function WithEdit(db: Db, cid: nat, e: Edit, now: int): Db
    requires cid in db.contracts && Apply(db.contracts[cid], e, now, db.nextId).Ok?
  {
    Put(db, cid, Apply(db.contracts[cid], e, now, db.nextId).value)
    .(nextId := db.nextId + if e.AddItem? then 1 else 0)
  }

  lemma EditedRow(db: Db, cid: nat, e: Edit, now: int)
    requires cid in db.contracts && EditTx(db, cid, e, now).Ok?
    ensures Apply(db.contracts[cid], e, now, db.nextId).Ok?
    ensures var c', mid := Apply(db.contracts[cid], e, now, db.nextId).value, WithEdit(db, cid, e, now);
      && mid.tasks == db.tasks && mid.contracts == db.contracts[cid := c']
      && mid.nextId == db.nextId + (if e.AddItem? then 1 else 0)
      && EditTx(db, cid, e, now).value == EnqueueEffects(mid, cid, now)
  {
    hide Apply, EnqueueEffects;
  }

  lemma EditItemIds(db: Db, cid: nat, e: Edit, now: int)
    requires Keyed(db) && cid in db.contracts && Sound(db.contracts[cid]) && e.Entered()
    requires Apply(db.contracts[cid], e, now, db.nextId).Ok?
    ensures forall item: nat :: HasItem(Apply(db.contracts[cid], e, now, db.nextId).value, item) ==>
              HasItem(db.contracts[cid], item) || (e.AddItem? && item == db.nextId)
  {
    FreshItem(db, cid);
    forall item: nat | HasItem(Apply(db.contracts[cid], e, now, db.nextId).value, item)
      ensures HasItem(db.contracts[cid], item) || (e.AddItem? && item == db.nextId)
    {
      EditKeepsItemIds(db.contracts[cid], e, now, db.nextId, item);
    }
  }

  /** An edit is one step of the ledger with its side effects, at exactly the next revision. */
  lemma EditTxIsDomainStep(db: Db, cid: nat, e: Edit, now: int)
    requires Keyed(db) && cid in db.contracts && Sound(db.contracts[cid]) && e.Entered()
    requires EditTx(db, cid, e, now).Ok?
    ensures DomainStep(db, EditTx(db, cid, e, now).value, cid)
    ensures var db' := EditTx(db, cid, e, now).value;
      var c' := db'.contracts[cid];
      && c'.revision == db.contracts[cid].revision + 1
      && db'.nextId == db.nextId + (if e.AddItem? then 1 else 0) + |EffectKinds(c')|
      && Enqueued(db.tasks, db'.tasks, db'.nextId - |EffectKinds(c')|, EffectKinds(c'), cid, c'.revision)
  {
    hide *;
    EditedRow(db, cid, e, now);
    FreshItem(db, cid);
    EditIsDomainChange(db.contracts[cid], e, now, db.nextId);
    EditItemIds(db, cid, e, now);
    KeyedTasks(db);
    var mid := WithEdit(db, cid, e, now);
    EffectsAppend(mid, cid, now);
    EditMakesStep(db, mid, EnqueueEffects(mid, cid, now), cid, mid.contracts[cid]);
  }

  /**
   * The payout is asked for in the transaction that completes the contract, and only there: its task is among the
   * new ones if and only if the contract completed with a positive credit reward and a positive factor.
   */
  lemma PayoutIsEnqueuedExactly(db: Db, cid: nat, e: Edit, now: int)
    requires Keyed(db) && cid in db.contracts && Sound(db.contracts[cid]) && e.Entered()
    requires EditTx(db, cid, e, now).Ok?
    ensures var db' := EditTx(db, cid, e, now).value;
      var c' := db'.contracts[cid];
      (exists id :: id in db'.tasks && id !in db.tasks && db'.tasks[id].kind == PayoutReport)
      <==> c'.status == Completed && c'.credits.Some? && c'.credits.value > 0 && c'.factor > 0
  {
    hide EditTx, Keyed, DomainChange, Appended, HasItem, Sound, TaskFor;
    EditTxIsDomainStep(db, cid, e, now);
    KeyedTasks(db);
    var db' := EditTx(db, cid, e, now).value;
    var kinds := EffectKinds(db'.contracts[cid]);
    var first := db'.nextId - |kinds|;
    assert db'.tasks[first].kind == kinds[0];
  }

  lemma KeyedTasks(db: Db)
    requires Keyed(db)
    ensures forall id :: id in db.tasks ==> id < db.nextId
  {
  }

  lemma EditMakesStep(db: Db, mid: Db, db': Db, cid: nat, c': Contract)
    requires Keyed(db) && cid in db.contracts && DomainChange(db.contracts[cid], c')
    requires mid.tasks == db.tasks && mid.contracts == db.contracts[cid := c'] && mid.nextId >= db.nextId
    requires Appended(mid, db', cid, c'.revision) && db'.contracts == mid.contracts
    requires AppendedKind(mid, db', UpdateKind(c'))
    requires c'.status == Completed && Rewarded(c') ==> AppendedKind(mid, db', PayoutReport)
    requires forall item: nat :: HasItem(c', item)
               ==> HasItem(db.contracts[cid], item) || db.nextId <= item < db'.nextId
    ensures DomainStep(db, db', cid)
  {
    hide DomainChange, HasItem, Rewarded, TaskFor;
  }

  /** A row change that keeps the items, with its tasks appended. */
  lemma RowStep(db: Db, c': Contract, db': Db, cid: nat)
    requires Keyed(db) && cid in db.contracts && DomainChange(db.contracts[cid], c')
        && c'.items == db.contracts[cid].items
    requires db'.contracts == db.contracts[cid := c']
    requires Appended(Put(db, cid, c'), db', cid, c'.revision)
    requires c'.revision > db.contracts[cid].revision ==> AppendedKind(db, db', UpdateKind(c'))
    requires c'.status == Completed ==> db.contracts[cid].status == Completed
    ensures DomainStep(db, db', cid)
  {
  }

  lemma CancelIsDomainStep(db: Db, cid: nat, now: int)
    requires Keyed(db) && cid in db.contracts && CancelTx(db, cid, now).Ok?
    ensures var db' := CancelTx(db, cid, now).value;
      var c, c' := db.contracts[cid], db'.contracts[cid];
      && DomainStep(db, db', cid)
      && c.status == Open && c'.status == Cancelled && SameAccount(c, c') && c'.revision == c.revision + 1
      && Enqueued(db.tasks, db'.tasks, db.nextId, [Close], cid, c'.revision)
  {
    var c' := Cancel(db.contracts[cid]).value;
    EffectsAppend(Put(db, cid, c'), cid, now);
    RowStep(db, c', CancelTx(db, cid, now).value, cid);
  }

  lemma ExpireIsDomainStep(db: Db, cid: nat, now: int)
    requires Keyed(db) && cid in db.contracts
    ensures var db' := ExpireTx(db, cid, now);
      var c, c' := db.contracts[cid], db'.contracts[cid];
      && DomainStep(db, db', cid)
      && (if c.status == Open && c.deadline.Some? && c.deadline.value <= now
          then c'.status == Expired && SameAccount(c, c') && c'.revision == c.revision + 1
               && Enqueued(db.tasks, db'.tasks, db.nextId, [Close], cid, c'.revision)
          else db' == db)
  {
    var c := db.contracts[cid];
    if MarkExpired(c, now).Some? {
      EffectsAppend(Put(db, cid, MarkExpired(c, now).value), cid, now);
      RowStep(db, MarkExpired(c, now).value, ExpireTx(db, cid, now), cid);
    } else {
      assert db.contracts == db.contracts[cid := c];
    }
  }

  lemma NotifyIsDomainStep(db: Db, cid: nat, now: int)
    requires Keyed(db) && cid in db.contracts
    ensures var db' := NotifyTx(db, cid, now);
      var c := db.contracts[cid];
      && DomainStep(db, db', cid)
      && (if c.status == Open && !c.notified && exists k :: 0 <= k < |c.items| && c.items[k].rows != []
          then db'.contracts[cid] == c.(notified := true)
               && Enqueued(db.tasks, db'.tasks, db.nextId, [Notify], cid, c.revision)
          else db' == db)
  {
    var c := db.contracts[cid];
    if MarkNotified(c).Some? {
      EnqueueAppends(Put(db, cid, c.(notified := true)), Notify, cid, false, now);
      RowStep(db, c.(notified := true), NotifyTx(db, cid, now), cid);
    } else {
      assert db.contracts == db.contracts[cid := c];
    }
  }

  lemma EnqueueIsDomainStep(db: Db, kind: Kind, cid: nat, repost: bool, now: int)
    requires Keyed(db) && cid in db.contracts
    ensures var db' := EnqueueTask(db, kind, cid, repost, now);
      && DomainStep(db, db', cid) && db'.contracts == db.contracts && db'.nextId == db.nextId + 1
      && Enqueued(db.tasks, db'.tasks, db.nextId, [kind], cid, db.contracts[cid].revision)
      && var t := db'.tasks[db.nextId]; t.repost == repost && t.attempts == 0 && t.nextTry == now
  {
    EnqueueAppends(db, kind, cid, repost, now);
    assert db.contracts == db.contracts[cid := db.contracts[cid]];
  }

  lemma MarkPaidIsDomainStep(db: Db, cid: nat, actor: string)
    requires Keyed(db) && cid in db.contracts
    ensures var db' := MarkPaidTx(db, cid, actor);
      && DomainStep(db, db', cid) && db'.tasks == db.tasks && db'.nextId == db.nextId
      && db'.contracts[cid] == db.contracts[cid].(paidBy := db'.contracts[cid].paidBy)
  {
    assert db.contracts == db.contracts[cid := db.contracts[cid]];
  }

  lemma NewRowKeepsKeys(db: Db, db': Db, c: Contract)
    requires Keyed(db) && db'.contracts == db.contracts[db.nextId := c] && c.thread.None?
    requires db'.nextId > db.nextId && forall id :: id in db'.tasks ==> id < db'.nextId
    requires forall item: nat :: HasItem(c, item) ==> db.nextId < item < db'.nextId
    ensures Keyed(db')
  {
    forall a, b, item: nat | BothHaveItem(db', a, b, item) ensures a == b {
      assert a != db.nextId ==> a in db.contracts && HasItem(db.contracts[a], item);
      assert b != db.nextId ==> b in db.contracts && HasItem(db.contracts[b], item);
      if a != db.nextId && b != db.nextId { assert BothHaveItem(db, a, b, item); }
    }
    forall a, b | ShareThread(db', a, b) ensures a == b {
      assert ShareThread(db, a, b);
    }
  }

  lemma NewRowWithTask(db: Db, c: Contract, width: nat, now: int)
    requires Keyed(db) && c.thread.None?
    requires forall item: nat :: HasItem(c, item) ==> db.nextId + 1 <= item < db.nextId + 1 + width
    ensures var id := db.nextId;
      var db' := EnqueueTask(Put(db, id, c).(nextId := id + 1 + width), CreateThread, id, false, now);
      && Keyed(db') && id !in db.contracts && Appended(db, db', id, c.revision) && AppendedKind(db, db', CreateThread)
  {
    var id := db.nextId;
    var mid := Put(db, id, c).(nextId := id + 1 + width);
    EnqueueAppends(mid, CreateThread, id, false, now);
    NewRowKeepsKeys(db, EnqueueTask(mid, CreateThread, id, false, now), c);
  }

  lemma CreatedRow(input: CreateInput, firstId: nat, postVersion: nat)
    requires Create(input, firstId, postVersion).Ok?
    ensures var c := Create(input, firstId, postVersion).value;
      && Sound(c) && c.thread.None? && c.payouts == [] && c.payoutDecimals.None? && c.revision == 0
      && c.status == Open && !c.posted && c.report.None?
      && forall item: nat :: HasItem(c, item) ==> firstId <= item < firstId + |input.items|
  {
    CreateIsSound(input, firstId, postVersion);
    var c := Create(input, firstId, postVersion).value;
    forall item: nat | HasItem(c, item) ensures firstId <= item < firstId + |input.items| {
      assert c.items[ItemById(c.items, item)].id == firstId + ItemById(c.items, item);
    }
  }

  /** A created contract is a new sound row with a create-thread task, and the keys hold. */
  lemma CreateTxIsSound(db: Db, input: CreateInput, now: int, postVersion: nat)
    requires Keyed(db) && CreateTx(db, input, now, postVersion).Ok?
    ensures var db' := CreateTx(db, input, now, postVersion).value;
      && Keyed(db')
      && db.nextId !in db.contracts
      && Create(input, db.nextId + 1, postVersion).Ok?
      && db'.contracts == db.contracts[db.nextId := Create(input, db.nextId + 1, postVersion).value]
      && Appended(db, db', db.nextId, 0) && AppendedKind(db, db', CreateThread)
  {
    hide Create, Sound, HasItem, Keyed, Appended, AppendedKind;
    CreatedRow(input, db.nextId + 1, postVersion);
    NewRowWithTask(db, Create(input, db.nextId + 1, postVersion).value, |input.items|, now);
  }

  // ---- The repository's invariant: keys and a sound ledger ----

  ghost predicate SoundDb(db: Db) {
    Keyed(db) && forall cid :: cid in db.contracts ==> Sound(db.contracts[cid])
  }

  lemma DomainStepKeepsSound(db: Db, db': Db, cid: nat)
    requires SoundDb(db) && DomainStep(db, db', cid)
    ensures SoundDb(db')
  {
    DomainStepKeepsKeys(db, db', cid);
  }

  /** Whatever contract an edit finds, it leaves the whole ledger sound, and so does every other transaction. */
  lemma EditKeepsDb(db: Db, found: Option<nat>, e: Edit, now: int)
    requires SoundDb(db) && e.Entered() && (found.Some? ==> found.value in db.contracts)
    ensures var r := EditFound(db, found, e, now); r.Ok? ==> SoundDb(r.value)
  {
    if found.Some? && EditTx(db, found.value, e, now).Ok? {
      EditTxIsDomainStep(db, found.value, e, now);
      DomainStepKeepsSound(db, EditTx(db, found.value, e, now).value, found.value);
    }
  }

  lemma CreateKeepsDb(db: Db, input: CreateInput, now: int, postVersion: nat)
    requires SoundDb(db)
    ensures var r := CreateTx(db, input, now, postVersion); r.Ok? ==> SoundDb(r.value)
  {
    if CreateTx(db, input, now, postVersion).Ok? {
      CreateTxIsSound(db, input, now, postVersion);
      CreatedRow(input, db.nextId + 1, postVersion);
    }
  }

  lemma LifecycleKeepsDb(db: Db, cid: nat, now: int)
    requires SoundDb(db) && cid in db.contracts
    ensures CancelTx(db, cid, now).Ok? ==> SoundDb(CancelTx(db, cid, now).value)
    ensures SoundDb(ExpireTx(db, cid, now))
    ensures SoundDb(NotifyTx(db, cid, now))
  {
    if CancelTx(db, cid, now).Ok? {
      CancelIsDomainStep(db, cid, now);
      DomainStepKeepsSound(db, CancelTx(db, cid, now).value, cid);
    }
    ExpireIsDomainStep(db, cid, now);
    DomainStepKeepsSound(db, ExpireTx(db, cid, now), cid);
    NotifyIsDomainStep(db, cid, now);
    DomainStepKeepsSound(db, NotifyTx(db, cid, now), cid);
  }

  lemma EnqueueKeepsDb(db: Db, kind: Kind, cid: nat, repost: bool, now: int)
    requires SoundDb(db) && cid in db.contracts
    ensures SoundDb(EnqueueTask(db, kind, cid, repost, now))
  {
    EnqueueIsDomainStep(db, kind, cid, repost, now);
    DomainStepKeepsSound(db, EnqueueTask(db, kind, cid, repost, now), cid);
  }

  predicate ThreadTaken(db: Db, thread: nat, cid: nat) {
    exists other :: other in db.contracts && other != cid && db.contracts[other].thread == Some(thread)
  }

  /** Writes that leave a contract's items and status alone: latches, and a thread nobody else has. */
  lemma RewriteKeepsDb(db: Db, cid: nat, c': Contract)
    requires SoundDb(db) && cid in db.contracts
    requires var c := db.contracts[cid];
      c'.items == c.items && c'.status == c.status && c'.factor == c.factor
      && (c'.thread == c.thread || c'.thread.None? || !ThreadTaken(db, c'.thread.value, cid))
    ensures SoundDb(Put(db, cid, c'))
  {
    var db' := Put(db, cid, c');
    forall a, item: nat | a in db'.contracts && HasItem(db'.contracts[a], item) ensures item < db'.nextId {
      assert HasItem(db.contracts[a], item);
    }
    forall a, b, item: nat | BothHaveItem(db', a, b, item) ensures a == b {
      assert BothHaveItem(db, a, b, item);
    }
    forall a, b | ShareThread(db', a, b) ensures a == b {
      assert c'.thread == db.contracts[cid].thread ==> ShareThread(db, a, b);
      assert a != cid && b != cid ==> ShareThread(db, a, b);
    }
  }

  // ---- The payout latches ----

  predicate AllHaveRows(rows: seq<Payout>, added: seq<Payout>) {
    forall k :: 0 <= k < |added| ==> HasRow(rows, added[k].user)
  }

  predicate DistinctUsers(rows: seq<Payout>) {
    forall j, k :: 0 <= j < k < |rows| ==> rows[j].user != rows[k].user
  }

  /**
   * Inserting keeps the rows that were there in front, gives everybody a row, brings no row but the given ones, and
   * adds nobody twice.
   */
  lemma {:induction false} InsertIsFirstWriteWins(rows: seq<Payout>, added: seq<Payout>)
    ensures rows <= InsertRows(rows, added)
    ensures AllHaveRows(InsertRows(rows, added), added)
    ensures forall row :: row in InsertRows(rows, added) ==> row in rows || row in added
    ensures DistinctUsers(rows) ==> DistinctUsers(InsertRows(rows, added))
    ensures AllHaveRows(rows, added) ==> InsertRows(rows, added) == rows
    decreases |added|
  {
    if added != [] {
      var more := if HasRow(rows, added[0].user) then rows else rows + [added[0]];
      assert HasRow(more, added[0].user) by {
        if !HasRow(rows, added[0].user) { assert more[|rows|].user == added[0].user; }
      }
      InsertIsFirstWriteWins(more, added[1..]);
      RowsStay(more, InsertRows(rows, added), added);
    }
  }

  lemma RowsStay(more: seq<Payout>, all: seq<Payout>, added: seq<Payout>)
    requires added != [] && more <= all && HasRow(more, added[0].user) && AllHaveRows(all, added[1..])
    ensures AllHaveRows(all, added)
  {
    var j :| 0 <= j < |more| && more[j].user == added[0].user;
    assert all[j].user == added[0].user;
    forall k | 0 < k < |added| ensures HasRow(all, added[k].user) { assert HasRow(all, added[1..][k - 1].user); }
  }

  /**
   * Saving payouts again never changes a saved amount or the frozen precision, whatever it brings; for the same
   * members it changes nothing at all.
   */
  lemma SavingAgainChangesNothing(
      db: Db, cid: nat, rows: seq<Payout>, decimals: nat, again: seq<Payout>, otherDecimals: nat)
    requires cid in db.contracts
    requires SavePayoutsTx(db, cid, rows, decimals).Ok?
    requires SavePayoutsTx(SavePayoutsTx(db, cid, rows, decimals).value, cid, again, otherDecimals).Ok?
    ensures var once := SavePayoutsTx(db, cid, rows, decimals).value;
      var twice := SavePayoutsTx(once, cid, again, otherDecimals).value;
      && once.contracts[cid].payouts <= twice.contracts[cid].payouts
      && twice.contracts[cid].payoutDecimals == once.contracts[cid].payoutDecimals
      && (AllHaveRows(once.contracts[cid].payouts, again) ==> twice == once)
  {
    var once := SavePayoutsTx(db, cid, rows, decimals).value;
    InsertIsFirstWriteWins(once.contracts[cid].payouts, again);
    assert once.contracts == once.contracts[cid := once.contracts[cid]];
  }

  /** Of two presses the first records its actor and the second changes nothing. */
  lemma PaidOnce(db: Db, cid: nat, first: string, second: string)
    requires cid in db.contracts && db.contracts[cid].status == Completed && db.contracts[cid].paidBy.None?
    ensures var paid := MarkPaidTx(db, cid, first);
      paid.contracts[cid].paidBy == Some(first) && MarkPaidTx(paid, cid, second) == paid
  {
  }

  // ---- What a repository method that got past its checks commits ----

  /** An edit that changes the row to `row`, then advances the watermark and enqueues the refresh. */
  lemma EditCommits(db: Db, cid: nat, e: Edit, now: int, row: Contract, newIds: nat)
    requires cid in db.contracts && Apply(db.contracts[cid], e, now, db.nextId) == Ok(Touch(row)) && row.status == Open
    requires newIds == if e.AddItem? then 1 else 0
    ensures EditTx(db, cid, e, now)
            == Ok(EnqueueTask(Put(db, cid, Touch(row)).(nextId := db.nextId + newIds), Refresh, cid, false, now))
  {
    hide Apply;
  }

  /** A delivery, with completion decided in the same transaction. */
  lemma DeliveryCommits(db: Db, cid: nat, e: Edit, now: int, row: Contract)
    requires cid in db.contracts && !e.AddItem?
    requires Apply(db.contracts[cid], e, now, db.nextId) == Ok(FinishIfComplete(row))
    ensures EditTx(db, cid, e, now) == Ok(EnqueueEffects(Put(db, cid, FinishIfComplete(row)), cid, now))
  {
    hide Apply, FinishIfComplete, EnqueueEffects;
  }

  /** Past the guards an edit of items or rows is accepted or refused by what it does to the items. */
  lemma ItemsDecide(c: Contract, e: Edit, now: int, newId: nat)
    requires Locked(c, now).Ok?
    requires e.OnRow() || e.AddItem? || e.LinkItem? || e.RemoveItem? || e.UpdateItem?
    ensures Apply(c, e, now, newId)
            == match EditItems(c.items, e, newId)
               case Err(error) => Err(error)
               case Ok(items) =>
                 Ok(if e.Delivers() then FinishIfComplete(c.(items := items)) else Touch(c.(items := items)))
  {
    hide EditItems, FinishIfComplete;
  }

  lemma SoundRows(db: Db, cid: nat)
    requires SoundDb(db) && cid in db.contracts
    ensures Keyed(db) && Sound(db.contracts[cid])
  {
  }

  lemma NewItemIsFresh(db: Db, cid: nat)
    requires Keyed(db) && cid in db.contracts
    ensures ItemById(db.contracts[cid].items, db.nextId) == |db.contracts[cid].items|
  {
    FreshItem(db, cid);
  }

  lemma EffectsKeepRows(db: Db, cid: nat, now: int)
    requires cid in db.contracts
    ensures EnqueueEffects(db, cid, now).contracts == db.contracts
  {
  }

  /** A committed edit keeps the ledger sound and has the effect its caller sees. */
  lemma EditSettles(before: Db, after: Db, cid: nat, e: Edit, now: int)
    requires SoundDb(before) && e.Entered() && cid in before.contracts && EditTx(before, cid, e, now) == Ok(after)
    ensures SoundDb(after)
    ensures cid in after.contracts && Edited(before.contracts[cid], after.contracts[cid], e, before.nextId)
  {
    SoundRows(before, cid);
    hide *;
    EditTxIsDomainStep(before, cid, e, now);
    DomainStepKeepsSound(before, after, cid);
    EditedRow(before, cid, e, now);
    NewItemIsFresh(before, cid);
    EditIsSeen(before.contracts[cid], e, now, before.nextId);
    EffectsKeepRows(WithEdit(before, cid, e, now), cid, now);
  }
}
