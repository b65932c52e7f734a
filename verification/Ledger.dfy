/**
 * The ledger's transactions on one contract. Each runs under the contract's row lock, so each is one step:
 * a new contract value, or an error that leaves the row as it was.
 */
module Ledger {
  import opened Prelude
  import opened Contracts

  /** `Constraint` is a CHECK or unique index of the schema refusing the write; the others are the sentinel errors. */
  datatype Error =
    | NotFound | Closed | DeadlinePassed | ItemNotFound | ItemExists | MaxItems | OverCap
    | OverReserved | NoReservation | BelowDelivered | QtyBelowReserved | Constraint

  datatype Result<+T> = Ok(value: T) | Err(error: Error) {
    predicate IsFailure() { Err? }
    function PropagateFailure<U>(): Result<U> requires Err? { Err(error) }
    function Extract(): T requires Ok? { value }
  }

  /** The transactions that demand an open contract. The public panel names items, the console uses their ids. */
  datatype Edit =
    | AddItem(name: string, gdid: string, aliases: seq<string>, qty: int, maxItems: int)
    | LinkItem(item: nat, gdid: string, aliases: seq<string>)
    | RemoveItem(item: nat)
    | UpdateItem(item: nat, name: string, qty: int)
    | UpdateDetails(title: string, description: string)
    | SetDeadline(deadline: Option<int>)
    | UpdateRewards(credits: Option<nat>, factor: nat)
    | SetDeliveryLocation(location: string)
    | Participate(itemName: string, user: string, qty: int)
    | Deliver(itemName: string, user: string, qty: int)
    | Release(itemName: string, user: string, qty: int)
    | DeliverByItem(item: nat, user: string, qty: int)
    | SetReservation(item: nat, user: string, reserved: int)
    | RemoveReservation(item: nat, user: string)
  {
    /** Edits that change one reservation row. */
    predicate OnRow() {
      Participate? || Deliver? || Release? || DeliverByItem? || SetReservation? || RemoveReservation?
    }

    predicate Delivers() { Deliver? || DeliverByItem? }

    /** What the modals let through: entered quantities are positive, and a picked catalog item has an id. */
    predicate Entered() {
      && (Participate? || Deliver? || Release? || DeliverByItem? ==> qty > 0)
      && (LinkItem? ==> gdid != "")
    }
  }

  // ---- Guards ----

  predicate Expiring(c: Contract, now: int) { c.deadline.Some? && c.deadline.value <= now }

  /** The open-and-not-expired guard every edit passes after taking the row lock. */
  function Locked(c: Contract, now: int): Result<Contract> {
    if c.status != Open then Err(Closed) else if Expiring(c, now) then Err(DeadlinePassed) else Ok(c)
  }

  /** No deadline, or one that still lies ahead. */
  predicate InTime(c: Contract, now: int) { c.deadline.None? || now < c.deadline.value }

  /**
   * Which contracts the guard lets through, and that time only ever closes it: a contract refused for its deadline
   * is refused for it at every later moment.
   */
  lemma LockedExactly(c: Contract, now: int, later: int)
    ensures Locked(c, now).Ok? <==> c.status == Open && (c.deadline.None? || now < c.deadline.value)
    ensures Locked(c, now) == Err(Closed) <==> c.status != Open
    ensures Locked(c, now) == Err(DeadlinePassed)
            <==> c.status == Open && c.deadline.Some? && c.deadline.value <= now
    ensures Locked(c, now) == Err(DeadlinePassed) && now <= later ==> Locked(c, later) == Err(DeadlinePassed)
  {
  }

  function Touch(c: Contract): Contract { c.(revision := c.revision + 1) }

  // ---- Reservation rows ----

  /** Writes a reserved quantity; a row left at 0 reserved and 0 delivered is deleted. */
  function PutReserved(rows: seq<Participant>, k: nat, reserved: int): seq<Participant>
    requires k < |rows|
  {
    if reserved == 0 && rows[k].delivered == 0 then Drop(rows, k) else rows[k := rows[k].(reserved := reserved)]
  }

  function EditRows(it: Item, e: Edit): Result<seq<Participant>>
    requires e.OnRow()
  {
    var rows := it.rows;
    var k := RowOf(rows, e.user);
    if e.Participate? then
      if e.qty > it.required - SumReserved(rows) then Err(OverCap)
      else if k < |rows| then Ok(rows[k := rows[k].(reserved := rows[k].reserved + e.qty)])
      else Ok(rows + [Participant(e.user, e.qty, 0)])
    else if k == |rows| then Err(NoReservation)
    else match e
      case Release(_, _, qty) =>
        if qty > rows[k].Outstanding() then Err(BelowDelivered)
        else Ok(PutReserved(rows, k, rows[k].reserved - qty))
      case SetReservation(_, _, reserved) =>
        if reserved < rows[k].delivered then Err(BelowDelivered)
        else if reserved > it.required - SumReserved(Drop(rows, k)) then Err(OverCap)
        else Ok(PutReserved(rows, k, reserved))
      case RemoveReservation(_, _) => Ok(Drop(rows, k))
      case _ =>
        if e.qty > rows[k].Outstanding() then Err(OverReserved)
        else Ok(rows[k := rows[k].(delivered := rows[k].delivered + e.qty)])
  }

  // ---- Items ----

  /** The item an edit aims at; the number of items when there is none. */
  function Target(items: seq<Item>, e: Edit): (k: nat)
    ensures k <= |items|
  {
    match e
    case Participate(name, _, _) => ItemByName(items, name)
    case Deliver(name, _, _) => ItemByName(items, name)
    case Release(name, _, _) => ItemByName(items, name)
    case LinkItem(id, _, _) => ItemById(items, id)
    case RemoveItem(id) => ItemById(items, id)
    case UpdateItem(id, _, _) => ItemById(items, id)
    case DeliverByItem(id, _, _) => ItemById(items, id)
    case SetReservation(id, _, _) => ItemById(items, id)
    case RemoveReservation(id, _) => ItemById(items, id)
    case _ => |items|
  }

  /** An item already known under one of the names, or linked to the catalog id. */
  predicate Clashes(it: Item, names: set<string>, gdid: string) {
    Lower(it.name) in names || (gdid != "" && it.gdid == gdid)
  }

  function InsertItem(items: seq<Item>, e: Edit, newId: nat): Result<seq<Item>>
    requires e.AddItem?
  {
    if |items| >= e.maxItems then Err(MaxItems)
    else if exists j :: 0 <= j < |items| && Clashes(items[j], LoweredNames(e.name, e.aliases), e.gdid)
    then Err(ItemExists)
    else if e.qty <= 0 || ItemByName(items, e.name) < |items| then Err(Constraint)
    else Ok(items + [Item(newId, e.name, e.gdid, e.qty, [])])
  }

  function EditItems(items: seq<Item>, e: Edit, newId: nat): Result<seq<Item>> {
    var k := Target(items, e);
    if e.AddItem? then InsertItem(items, e, newId)
    else if k == |items| then Err(if e.Participate? || e.Deliver? || e.Release? then ItemNotFound else NotFound)
    else if e.OnRow() then
      var rows :- EditRows(items[k], e);
      Ok(items[k := items[k].(rows := rows)])
    else match e
      case LinkItem(_, gdid, aliases) =>
        if exists j :: 0 <= j < |items| && j != k && Clashes(items[j], LoweredNames("", aliases), gdid)
        then Err(ItemExists)
        else Ok(items[k := items[k].(gdid := gdid)])
      case UpdateItem(_, name, qty) =>
        if exists j :: 0 <= j < |items| && j != k && Lower(items[j].name) == Lower(name) then Err(ItemExists)
        else if qty < SumReserved(items[k].rows) then Err(QtyBelowReserved)
        else if qty <= 0 then Err(Constraint)
        else Ok(items[k := items[k].(name := name, required := qty)])
      case _ => Ok(Drop(items, k))
  }

  // ---- Completion ----

  function ShortItems(items: seq<Item>): nat {
    if items == [] then 0
    else (if items[0].required > SumDelivered(items[0].rows) then 1 else 0) + ShortItems(items[1..])
  }

  /** Flips a contract with items and none short to completed; otherwise only advances the watermark. */
  function FinishIfComplete(c: Contract): Contract {
    if |c.items| > 0 && ShortItems(c.items) == 0 then Touch(c).(status := Completed) else Touch(c)
  }

  /** One edit as its transaction commits it. `newId` is the id an added item would get. */
  function Apply(c: Contract, e: Edit, now: int, newId: nat): Result<Contract> {
    var _ :- Locked(c, now);
    match e
    case UpdateDetails(title, description) => Ok(Touch(c).(title := title, description := description))
    case SetDeadline(deadline) => Ok(Touch(c).(deadline := deadline, notified := false))
    case SetDeliveryLocation(location) => Ok(Touch(c).(location := location))
    case UpdateRewards(credits, factor) =>
      if factor > 10000 then Err(Constraint) else Ok(Touch(c).(credits := credits, factor := factor))
    case _ =>
      var items :- EditItems(c.items, e, newId);
      Ok(if e.Delivers() then FinishIfComplete(c.(items := items)) else Touch(c.(items := items)))
  }

  /** Items are told apart by id, by case-insensitive name, and by catalog id where they have one. */
  predicate Distinct(a: Item, b: Item) {
    a.id != b.id && Lower(a.name) != Lower(b.name) && (a.gdid == "" || a.gdid != b.gdid)
  }

  // ---- The remaining transactions on the contract row ----

  datatype NewItem = NewItem(name: string, gdid: string, qty: int)

  datatype CreateInput = CreateInput(
    server: nat, title: string, description: string, location: string, deadline: Option<int>,
    credits: Option<nat>, factor: nat, items: seq<NewItem>)

  /** The initial items take consecutive ids from `firstId` on. */
  function InitialItems(items: seq<NewItem>, firstId: nat): (r: seq<Item>)
    ensures |r| == |items|
  {
    seq(|items|, i requires 0 <= i < |items| =>
      Item(firstId + i, items[i].name, items[i].gdid, items[i].qty, []))
  }

  /** `Create` checks nothing itself: duplicate names or catalog ids and non-positive quantities hit the schema. */
  function Create(input: CreateInput, firstId: nat, postVersion: nat): Result<Contract> {
    var items := InitialItems(input.items, firstId);
    if input.factor > 10000 || exists k :: 0 <= k < |items| && items[k].required <= 0 then Err(Constraint)
    else if exists j, k :: 0 <= j < k < |items| && !Distinct(items[j], items[k]) then Err(Constraint)
    else Ok(Contract(
      input.server, None, postVersion, input.title, input.description, input.location,
      Open, input.deadline, false, 0, input.credits, input.factor, items, [], None, false, None, None))
  }

  /** Cancelling needs only an open contract; a passed deadline does not stop it. */
  function Cancel(c: Contract): Result<Contract> {
    if c.status != Open then Err(Closed) else Ok(Touch(c).(status := Cancelled))
  }

  /** The sweeper's guarded UPDATE: no row changes unless the contract is open and past its deadline. */
  function MarkExpired(c: Contract, now: int): Option<Contract> {
    if c.status == Open && Expiring(c, now) then Some(Touch(c).(status := Expired)) else None
  }

  /** The one-shot closing-soon latch, consumed only while somebody has a reservation to be reminded of. */
  function MarkNotified(c: Contract): Option<Contract> {
    if c.status == Open && !c.notified && exists k :: 0 <= k < |c.items| && c.items[k].rows != []
    then Some(c.(notified := true)) else None
  }

  function SetThread(c: Contract, thread: nat, postVersion: nat): Contract {
    c.(thread := Some(thread), postVersion := postVersion)
  }

  /** A credit reward and a participant factor, both positive. */
  predicate Rewarded(c: Contract) { c.credits.Some? && c.credits.value > 0 && c.factor > 0 }

  // ---- The invariant ----

  predicate RowsOk(rows: seq<Participant>) {
    && (forall k :: 0 <= k < |rows| ==> 0 <= rows[k].delivered <= rows[k].reserved && rows[k].reserved >= 1)
    && (forall j, k :: 0 <= j < k < |rows| ==> rows[j].user != rows[k].user)
  }

  predicate ItemOk(it: Item) {
    it.required > 0 && RowsOk(it.rows) && SumReserved(it.rows) <= it.required
  }

  predicate ItemsOk(items: seq<Item>) {
    && (forall k :: 0 <= k < |items| ==> ItemOk(items[k]))
    && (forall j, k :: 0 <= j < k < |items| ==> Distinct(items[j], items[k]))
  }

  /** Every item fully delivered, and there is at least one. */
  predicate FullyDelivered(items: seq<Item>) {
    items != [] && forall k :: 0 <= k < |items| ==> SumDelivered(items[k].rows) == items[k].required
  }

  predicate Sound(c: Contract) {
    ItemsOk(c.items) && c.factor <= 10000 && (c.status == Completed ==> FullyDelivered(c.items))
  }

  lemma RowUpdateKeepsItem(it: Item, k: nat, p: Participant)
    requires ItemOk(it) && k < |it.rows| && p.user == it.rows[k].user
    requires 0 <= p.delivered <= p.reserved && p.reserved >= 1
    requires SumReserved(it.rows) - it.rows[k].reserved + p.reserved <= it.required
    ensures ItemOk(it.(rows := it.rows[k := p]))
  {
    SumsUpdate(it.rows, k, p);
  }

  lemma RowDropKeepsItem(it: Item, k: nat)
    requires ItemOk(it) && k < |it.rows|
    ensures ItemOk(it.(rows := Drop(it.rows, k)))
  {
    SumsDrop(it.rows, k);
  }

  lemma RowAppendKeepsItem(it: Item, p: Participant)
    requires ItemOk(it) && RowOf(it.rows, p.user) == |it.rows|
    requires p.delivered == 0 && p.reserved >= 1 && SumReserved(it.rows) + p.reserved <= it.required
    ensures ItemOk(it.(rows := it.rows + [p]))
  {
    SumsAppend(it.rows, p);
  }

  lemma RowEditKeepsItem(it: Item, e: Edit)
    requires ItemOk(it) && e.OnRow() && e.Entered() && EditRows(it, e).Ok?
    ensures ItemOk(it.(rows := EditRows(it, e).value))
  {
    var k := RowOf(it.rows, e.user);
    var rows := EditRows(it, e).value;
    if k == |it.rows| {
      RowAppendKeepsItem(it, Participant(e.user, e.qty, 0));
    } else if rows == Drop(it.rows, k) {
      RowDropKeepsItem(it, k);
    } else {
      SumsDrop(it.rows, k);
      RowUpdateKeepsItem(it, k, rows[k]);
    }
  }

  lemma ReplacedItemKeepsItems(items: seq<Item>, k: nat, it: Item)
    requires ItemsOk(items) && k < |items| && ItemOk(it)
    requires forall j :: 0 <= j < |items| && j != k ==> Distinct(items[j], it) && Distinct(it, items[j])
    ensures ItemsOk(items[k := it])
  {
  }

  lemma AppendedItemKeepsItems(items: seq<Item>, it: Item)
    requires ItemsOk(items) && ItemOk(it)
    requires forall j :: 0 <= j < |items| ==> Distinct(items[j], it)
    ensures ItemsOk(items + [it])
  {
  }

  lemma AddKeepsItems(items: seq<Item>, e: Edit, newId: nat)
    requires ItemsOk(items) && e.AddItem? && EditItems(items, e, newId).Ok?
    requires ItemById(items, newId) == |items|
    ensures ItemsOk(EditItems(items, e, newId).value)
  {
    AppendedItemKeepsItems(items, Item(newId, e.name, e.gdid, e.qty, []));
  }

  lemma ChangeKeepsItems(items: seq<Item>, e: Edit, newId: nat)
    requires ItemsOk(items) && e.Entered() && (e.LinkItem? || e.UpdateItem?) && EditItems(items, e, newId).Ok?
    ensures ItemsOk(EditItems(items, e, newId).value)
  {
    var k := Target(items, e);
    ReplacedItemKeepsItems(items, k, EditItems(items, e, newId).value[k]);
  }

  lemma ItemEditKeepsItems(items: seq<Item>, e: Edit, newId: nat)
    requires ItemsOk(items) && e.Entered() && EditItems(items, e, newId).Ok?
    requires e.AddItem? ==> ItemById(items, newId) == |items|
    ensures ItemsOk(EditItems(items, e, newId).value)
  {
    var k := Target(items, e);
    if e.AddItem? {
      AddKeepsItems(items, e, newId);
    } else if e.LinkItem? || e.UpdateItem? {
      ChangeKeepsItems(items, e, newId);
    } else if e.OnRow() {
      RowEditKeepsItem(items[k], e);
      ReplacedItemKeepsItems(items, k, items[k].(rows := EditRows(items[k], e).value));
    }
  }

  lemma {:induction false} NoneShort(items: seq<Item>)
    requires ItemsOk(items)
    ensures ShortItems(items) == 0
            <==> forall k :: 0 <= k < |items| ==> SumDelivered(items[k].rows) == items[k].required
  {
    if items != [] {
      SumsOrdered(items[0].rows);
      NoneShort(items[1..]);
      assert forall k :: 1 <= k < |items| ==> items[k] == items[1..][k - 1];
    }
  }

  /** Outside a contract's own columns an edit is what it does to the items. */
  lemma ApplyEditsItems(c: Contract, e: Edit, now: int, newId: nat)
    requires Apply(c, e, now, newId).Ok?
    requires e.OnRow() || e.AddItem? || e.LinkItem? || e.RemoveItem? || e.UpdateItem?
    ensures EditItems(c.items, e, newId).Ok?
    ensures Apply(c, e, now, newId).value
            == var c' := c.(items := EditItems(c.items, e, newId).value);
               if e.Delivers() then FinishIfComplete(c') else Touch(c')
  {
    hide EditItems, FinishIfComplete;
  }

  /** Deciding completion on sound items leaves a sound contract. */
  lemma FinishKeepsSound(c: Contract)
    requires ItemsOk(c.items) && c.factor <= 10000 && c.status == Open
    ensures Sound(FinishIfComplete(c)) && Sound(Touch(c))
  {
    NoneShort(c.items);
    hide ItemsOk, ShortItems;
  }

  /** Every edit keeps the ledger sound; a row CHECK of the schema is never what refuses it. */
  lemma EditKeepsSound(c: Contract, e: Edit, now: int, newId: nat)
    requires Sound(c) && e.Entered() && Apply(c, e, now, newId).Ok?
    requires ItemById(c.items, newId) == |c.items|
    ensures Sound(Apply(c, e, now, newId).value)
  {
    hide EditItems, ItemsOk, FinishIfComplete, FullyDelivered;
    if e.OnRow() || e.AddItem? || e.LinkItem? || e.RemoveItem? || e.UpdateItem? {
      ApplyEditsItems(c, e, now, newId);
      ItemEditKeepsItems(c.items, e, newId);
      FinishKeepsSound(c.(items := EditItems(c.items, e, newId).value));
    }
  }

  /** A created contract is sound: the schema's indexes refuse what Create itself does not check. */
  lemma CreateIsSound(input: CreateInput, firstId: nat, postVersion: nat)
    requires Create(input, firstId, postVersion).Ok?
    ensures Sound(Create(input, firstId, postVersion).value)
    ensures Create(input, firstId, postVersion).value.thread.None?
  {
  }

  /**
   * A contract is created if and only if the factor is a percentage, every quantity positive and the items told
   * apart; it then starts open with exactly the given columns and items, nobody taking part.
   */
  lemma CreateAcceptedExactly(input: CreateInput, firstId: nat, postVersion: nat)
    ensures Create(input, firstId, postVersion).Ok?
            <==> && input.factor <= 10000
                 && (forall k :: 0 <= k < |input.items| ==> input.items[k].qty > 0)
                 && (forall j, k :: 0 <= j < k < |input.items| ==> ToldApart(input.items[j], input.items[k]))
    ensures Create(input, firstId, postVersion).Ok? ==>
              var c := Create(input, firstId, postVersion).value;
              && c.status == Open && !c.notified && c.revision == 0 && c.thread.None?
              && c.postVersion == postVersion && c.payouts == [] && !c.posted && c.paidBy.None?
              && c.server == input.server && c.title == input.title && c.description == input.description
              && c.location == input.location && c.deadline == input.deadline
              && c.credits == input.credits && c.factor == input.factor
              && |c.items| == |input.items|
              && forall k :: 0 <= k < |c.items| ==> Starts(c.items[k], input.items[k], firstId + k)
  {
    var items := InitialItems(input.items, firstId);
    assert forall k :: 0 <= k < |items| ==> Starts(items[k], input.items[k], firstId + k);
    forall j, k | 0 <= j < k < |items| ensures Distinct(items[j], items[k])
                                              <==> ToldApart(input.items[j], input.items[k]) {}
    if Create(input, firstId, postVersion).Ok? {
      forall j, k | 0 <= j < k < |input.items| ensures ToldApart(input.items[j], input.items[k]) {
        assert Distinct(items[j], items[k]);
      }
      forall k | 0 <= k < |input.items| ensures input.items[k].qty > 0 { assert items[k].required > 0; }
    }
  }

  predicate ToldApart(a: NewItem, b: NewItem) {
    Lower(a.name) != Lower(b.name) && (a.gdid == "" || a.gdid != b.gdid)
  }

  predicate Starts(it: Item, input: NewItem, id: nat) {
    it.id == id && it.name == input.name && it.gdid == input.gdid && it.required == input.qty && it.rows == []
  }

  /**
   * In a sound ledger the two floors of the display figures never clip, and the three figures
   * a member sees partition the requirement.
   */
  lemma FiguresPartitionRequirement(it: Item)
    requires ItemOk(it)
    ensures it.Remaining() == it.required - SumReserved(it.rows)
    ensures it.OutstandingReserved() == SumReserved(it.rows) - SumDelivered(it.rows)
    ensures it.Remaining() + it.OutstandingReserved() + SumDelivered(it.rows) == it.required
  {
    SumsOrdered(it.rows);
  }

  /** On a completed contract reserved, delivered and required agree on every item and nobody owes anything. */
  lemma CompletedOwesNothing(c: Contract)
    requires Sound(c) && c.status == Completed
    ensures c.items != []
    ensures forall k :: 0 <= k < |c.items| ==>
      SumDelivered(c.items[k].rows) == SumReserved(c.items[k].rows) == c.items[k].required
    ensures forall k, r :: 0 <= k < |c.items| && 0 <= r < |c.items[k].rows| ==> c.items[k].rows[r].Outstanding() == 0
  {
    forall k | 0 <= k < |c.items|
      ensures SumDelivered(c.items[k].rows) == SumReserved(c.items[k].rows)
      ensures forall r :: 0 <= r < |c.items[k].rows| ==> c.items[k].rows[r].Outstanding() == 0
    {
      SumsOrdered(c.items[k].rows);
    }
  }

  // ---- Completion is exact ----

  /** What is still to be delivered over all items. */
  function Shortfall(items: seq<Item>): int {
    if items == [] then 0 else items[0].required - SumDelivered(items[0].rows) + Shortfall(items[1..])
  }

  lemma {:induction false} ShortfallZero(items: seq<Item>)
    requires ItemsOk(items)
    ensures Shortfall(items) >= 0
    ensures Shortfall(items) == 0 <==> ShortItems(items) == 0
  {
    if items != [] {
      SumsOrdered(items[0].rows);
      ShortfallZero(items[1..]);
    }
  }

  lemma {:induction false} ShortfallUpdate(items: seq<Item>, k: nat, rows: seq<Participant>)
    requires k < |items|
    ensures Shortfall(items[k := items[k].(rows := rows)])
            == Shortfall(items) + SumDelivered(items[k].rows) - SumDelivered(rows)
  {
    var items' := items[k := items[k].(rows := rows)];
    if k == 0 {
      assert items'[1..] == items[1..];
    } else {
      assert items'[1..] == items[1..][k - 1 := items[k].(rows := rows)];
      ShortfallUpdate(items[1..], k - 1, rows);
    }
  }

  lemma DeliveredSum(it: Item, e: Edit)
    requires e.Delivers() && EditRows(it, e).Ok?
    ensures SumDelivered(EditRows(it, e).value) == SumDelivered(it.rows) + e.qty
  {
    var k := RowOf(it.rows, e.user);
    SumsUpdate(it.rows, k, EditRows(it, e).value[k]);
  }

  /**
   * A delivery lowers the total shortfall by exactly the delivered quantity, and it completes the contract
   * if and only if that brings the shortfall to zero. It was positive before, so it reaches zero in this step.
   */
  lemma DeliveryCompletesExactly(c: Contract, e: Edit, now: int, newId: nat)
    requires Sound(c) && e.Delivers() && e.Entered() && Apply(c, e, now, newId).Ok?
    ensures var c' := Apply(c, e, now, newId).value;
      && Shortfall(c'.items) == Shortfall(c.items) - e.qty
      && Shortfall(c.items) > 0
      && c'.status == (if Shortfall(c'.items) == 0 then Completed else Open)
      && c'.revision == c.revision + 1
  {
    var items := c.items;
    var k := Target(items, e);
    ApplyEditsItems(c, e, now, newId);
    DeliveredSum(items[k], e);
    ShortfallUpdate(items, k, EditRows(items[k], e).value);
    ItemEditKeepsItems(items, e, newId);
    ShortfallZero(EditItems(items, e, newId).value);
    ShortfallZero(items);
  }

  /** No other edit changes the status, so a contract completes in a delivery or not at all. */
  lemma OnlyDeliveryCompletes(c: Contract, e: Edit, now: int, newId: nat)
    requires Apply(c, e, now, newId).Ok?
    ensures c.status == Open
    ensures !e.Delivers() ==> Apply(c, e, now, newId).value.status == Open
    ensures Apply(c, e, now, newId).value.status in {Open, Completed}
  {
  }

  // ---- What each edit does, read as a table of (item, member) cells ----

  datatype Cell = Cell(reserved: int, delivered: int)

  function CellOf(rows: seq<Participant>, user: string): Option<Cell> {
    var k := RowOf(rows, user);
    if k == |rows| then None else Some(Cell(rows[k].reserved, rows[k].delivered))
  }

  function ItemAt(items: seq<Item>, id: nat): Option<Item> {
    var k := ItemById(items, id);
    if k == |items| then None else Some(items[k])
  }

  function CellAt(items: seq<Item>, id: nat, user: string): Option<Cell> {
    match ItemAt(items, id)
    case None => None
    case Some(it) => CellOf(it.rows, user)
  }

  /** An absent row is the cell (0, 0); a cell that returns to (0, 0) is absent again. */
  function Normal(reserved: int, delivered: int): Option<Cell> {
    if reserved == 0 && delivered == 0 then None else Some(Cell(reserved, delivered))
  }

  /** What an accepted row edit makes of the member's cell on the item. */
  function NextCell(cell: Option<Cell>, e: Edit): Option<Cell>
    requires e.OnRow()
  {
    var reserved := if cell.Some? then cell.value.reserved else 0;
    var delivered := if cell.Some? then cell.value.delivered else 0;
    match e
    case Participate(_, _, qty) => Normal(reserved + qty, delivered)
    case Release(_, _, qty) => Normal(reserved - qty, delivered)
    case SetReservation(_, _, to) => Normal(to, delivered)
    case RemoveReservation(_, _) => None
    case Deliver(_, _, qty) => Normal(reserved, delivered + qty)
    case DeliverByItem(_, _, qty) => Normal(reserved, delivered + qty)
    case _ => None
  }

  lemma RowLookup(rows: seq<Participant>, k: nat)
    requires RowsOk(rows) && k < |rows|
    ensures RowOf(rows, rows[k].user) == k
  {
  }

  lemma RowUpdateLookup(rows: seq<Participant>, k: nat, p: Participant, user: string)
    requires RowsOk(rows) && k < |rows| && p.user == rows[k].user
    ensures CellOf(rows[k := p], user)
            == if user == p.user then Some(Cell(p.reserved, p.delivered)) else CellOf(rows, user)
  {
    var j := RowOf(rows, user);
    var j' := RowOf(rows[k := p], user);
    assert forall i :: 0 <= i < |rows| ==> rows[i].user == rows[k := p][i].user;
    assert j == j';
    if user == p.user { RowLookup(rows, k); }
  }

  lemma RowDropLookup(rows: seq<Participant>, k: nat, user: string)
    requires RowsOk(rows) && k < |rows|
    ensures CellOf(Drop(rows, k), user) == if user == rows[k].user then None else CellOf(rows, user)
  {
    var j := RowOf(rows, user);
    var j' := RowOf(Drop(rows, k), user);
    if j < |rows| && j != k {
      assert Drop(rows, k)[if j < k then j else j - 1] == rows[j];
    }
    if j' < |rows| - 1 {
      assert Drop(rows, k)[j'] == rows[if j' < k then j' else j' + 1];
    }
  }

  lemma {:induction false} RowAppendLookup(rows: seq<Participant>, p: Participant, user: string)
    requires RowOf(rows, p.user) == |rows|
    ensures CellOf(rows + [p], user)
            == if user == p.user then Some(Cell(p.reserved, p.delivered)) else CellOf(rows, user)
  {
    if rows == [] {
      assert rows + [p] == [p] && [p][1..] == [];
    } else {
      assert (rows + [p])[1..] == rows[1..] + [p];
      RowAppendLookup(rows[1..], p, user);
    }
  }

  /** The rows an accepted edit leaves, by what the table makes of the member's cell. */
  lemma RowEditShape(it: Item, e: Edit)
    requires ItemOk(it) && e.OnRow() && e.Entered() && EditRows(it, e).Ok?
    ensures var rows, k, next := it.rows, RowOf(it.rows, e.user), NextCell(CellOf(it.rows, e.user), e);
      if next.None? then k < |rows| && EditRows(it, e).value == Drop(rows, k)
      else
        var p := Participant(e.user, next.value.reserved, next.value.delivered);
        EditRows(it, e).value == if k < |rows| then rows[k := p] else rows + [p]
  {
  }

  lemma RowEditEffect(it: Item, e: Edit, user: string)
    requires ItemOk(it) && e.OnRow() && e.Entered() && EditRows(it, e).Ok?
    ensures CellOf(EditRows(it, e).value, user)
            == if user == e.user then NextCell(CellOf(it.rows, user), e) else CellOf(it.rows, user)
  {
    RowEditShape(it, e);
    var rows, k, next := it.rows, RowOf(it.rows, e.user), NextCell(CellOf(it.rows, e.user), e);
    if k == |rows| {
      RowAppendLookup(rows, Participant(e.user, next.value.reserved, next.value.delivered), user);
    } else if next.None? {
      RowDropLookup(rows, k, user);
    } else {
      RowUpdateLookup(rows, k, Participant(e.user, next.value.reserved, next.value.delivered), user);
    }
  }

  lemma ItemUpdateLookup(items: seq<Item>, k: nat, it: Item, id: nat)
    requires k < |items| && it.id == items[k].id
    requires forall i, j :: 0 <= i < j < |items| ==> items[i].id != items[j].id
    ensures ItemAt(items[k := it], id) == if id == it.id then Some(it) else ItemAt(items, id)
  {
    assert forall i :: 0 <= i < |items| ==> items[i].id == items[k := it][i].id;
  }

  lemma RowEditReplacesOneItem(items: seq<Item>, e: Edit, newId: nat, id: nat, user: string)
    requires ItemsOk(items) && e.OnRow() && e.Entered() && EditItems(items, e, newId).Ok?
    ensures var k := Target(items, e);
      && k < |items|
      && EditItems(items, e, newId).value == items[k := items[k].(rows := EditRows(items[k], e).value)]
      && |EditItems(items, e, newId).value| == |items|
      && (forall j :: 0 <= j < |items| ==>
            EditItems(items, e, newId).value[j] == items[j].(rows := EditItems(items, e, newId).value[j].rows))
      && CellAt(EditItems(items, e, newId).value, id, user)
         == if id == items[k].id && user == e.user
            then NextCell(CellAt(items, id, user), e) else CellAt(items, id, user)
  {
    var k := Target(items, e);
    var it := items[k];
    RowEditEffect(it, e, user);
    ItemUpdateLookup(items, k, it.(rows := EditRows(it, e).value), id);
    ItemUpdateLookup(items, k, it, it.id);
    assert items[k := it] == items;
  }

  /**
   * An accepted row edit changes exactly one cell, the named member's on the targeted item, to the value the
   * table says; every other cell, every item and every item's own columns stay as they were.
   */
  lemma RowEditChangesOneCell(c: Contract, e: Edit, now: int, newId: nat, id: nat, user: string)
    requires Sound(c) && e.OnRow() && e.Entered() && Apply(c, e, now, newId).Ok?
    ensures Target(c.items, e) < |c.items|
    ensures var items' := Apply(c, e, now, newId).value.items;
      && |items'| == |c.items|
      && (forall k :: 0 <= k < |items'| ==> items'[k] == c.items[k].(rows := items'[k].rows))
      && CellAt(items', id, user)
         == if id == c.items[Target(c.items, e)].id && user == e.user
            then NextCell(CellAt(c.items, id, user), e) else CellAt(c.items, id, user)
  {
    ApplyEditsItems(c, e, now, newId);
    assert Apply(c, e, now, newId).value.items == EditItems(c.items, e, newId).value;
    hide Apply, EditItems, EditRows, NextCell, CellAt, ItemAt, CellOf;
    RowEditReplacesOneItem(c.items, e, newId, id, user);
  }

  lemma {:induction false} ItemAppendLookup(items: seq<Item>, it: Item, id: nat)
    requires ItemById(items, it.id) == |items|
    ensures ItemAt(items + [it], id) == if id == it.id then Some(it) else ItemAt(items, id)
  {
    if items == [] {
      assert items + [it] == [it] && [it][1..] == [];
    } else {
      assert (items + [it])[1..] == items[1..] + [it];
      ItemAppendLookup(items[1..], it, id);
    }
  }

  lemma ItemDropLookup(items: seq<Item>, k: nat, id: nat)
    requires k < |items|
    requires forall i, j :: 0 <= i < j < |items| ==> items[i].id != items[j].id
    ensures ItemAt(Drop(items, k), id) == if id == items[k].id then None else ItemAt(items, id)
  {
    var rest := Drop(items, k);
    var j, m := ItemById(items, id), ItemById(rest, id);
    assert j < |items| && j != k ==> rest[if j < k then j else j - 1] == items[j];
    assert m < |rest| ==> rest[m] == items[if m < k then m else m + 1];
  }

  /** What an accepted item edit makes of the item with the given id. */
  function NextItem(before: Option<Item>, id: nat, e: Edit, newId: nat): Option<Item> {
    match e
    case AddItem(name, gdid, _, qty, _) => if id == newId then Some(Item(newId, name, gdid, qty, [])) else before
    case RemoveItem(item) => if id == item then None else before
    case LinkItem(item, gdid, _) =>
      if id == item && before.Some? then Some(before.value.(gdid := gdid)) else before
    case UpdateItem(item, name, qty) =>
      if id == item && before.Some? then Some(before.value.(name := name, required := qty)) else before
    case _ => before
  }

  lemma AddItemEffect(items: seq<Item>, e: Edit, newId: nat, id: nat)
    requires e.AddItem? && EditItems(items, e, newId).Ok? && ItemById(items, newId) == |items|
    ensures ItemAt(EditItems(items, e, newId).value, id) == NextItem(ItemAt(items, id), id, e, newId)
  {
    ItemAppendLookup(items, Item(newId, e.name, e.gdid, e.qty, []), id);
  }

  lemma RemoveItemEffect(items: seq<Item>, e: Edit, newId: nat, id: nat)
    requires ItemsOk(items) && e.RemoveItem? && EditItems(items, e, newId).Ok?
    ensures ItemAt(EditItems(items, e, newId).value, id) == NextItem(ItemAt(items, id), id, e, newId)
  {
    ItemDropLookup(items, Target(items, e), id);
  }

  lemma ChangeItemEffect(items: seq<Item>, e: Edit, newId: nat, id: nat)
    requires ItemsOk(items) && (e.LinkItem? || e.UpdateItem?) && EditItems(items, e, newId).Ok?
    ensures ItemAt(EditItems(items, e, newId).value, id) == NextItem(ItemAt(items, id), id, e, newId)
  {
    var k := Target(items, e);
    ItemUpdateLookup(items, k, EditItems(items, e, newId).value[k], id);
  }

  /** The item edits: add, link, rename and resize, remove, each on one item with all others kept. */
  lemma ItemEditChangesOneItem(c: Contract, e: Edit, now: int, newId: nat, id: nat)
    requires Sound(c) && Apply(c, e, now, newId).Ok?
    requires e.AddItem? || e.LinkItem? || e.RemoveItem? || e.UpdateItem?
    requires ItemById(c.items, newId) == |c.items|
    ensures ItemAt(Apply(c, e, now, newId).value.items, id) == NextItem(ItemAt(c.items, id), id, e, newId)
  {
    ApplyEditsItems(c, e, now, newId);
    if e.AddItem? {
      AddItemEffect(c.items, e, newId, id);
    } else if e.RemoveItem? {
      RemoveItemEffect(c.items, e, newId, id);
    } else {
      ChangeItemEffect(c.items, e, newId, id);
    }
  }

  // ---- Exactly which edits are accepted ----

  function OthersReserved(rows: seq<Participant>, user: string): int {
    var cell := CellOf(rows, user);
    SumReserved(rows) - if cell.Some? then cell.value.reserved else 0
  }

  /** A cell the item has room for beside the other members; an absent cell always fits. */
  predicate Fits(it: Item, user: string, cell: Option<Cell>) {
    cell.Some? ==>
      && 0 <= cell.value.delivered <= cell.value.reserved
      && cell.value.reserved <= it.required - OthersReserved(it.rows, user)
  }

  /** What acceptance comes down to, by the member's row. */
  ghost predicate Acceptable(it: Item, e: Edit)
    requires e.OnRow()
  {
    && (e.Participate? || CellOf(it.rows, e.user).Some?)
    && Fits(it, e.user, NextCell(CellOf(it.rows, e.user), e))
  }

  lemma AbsentAcceptedExactly(it: Item, e: Edit)
    requires ItemOk(it) && e.OnRow() && e.Entered() && RowOf(it.rows, e.user) == |it.rows|
    ensures EditRows(it, e).Ok? <==> Acceptable(it, e)
  {
    hide SumReserved, SumDelivered;
  }

  lemma PresentRow(it: Item, user: string)
    requires ItemOk(it) && RowOf(it.rows, user) < |it.rows|
    ensures var row, others := it.rows[RowOf(it.rows, user)], OthersReserved(it.rows, user);
      && CellOf(it.rows, user) == Some(Cell(row.reserved, row.delivered))
      && 0 <= row.delivered <= row.reserved
      && 0 <= others == SumReserved(Drop(it.rows, RowOf(it.rows, user)))
      && SumReserved(it.rows) == others + row.reserved <= it.required
  {
    var k := RowOf(it.rows, user);
    SumsDrop(it.rows, k);
    SumsOrdered(Drop(it.rows, k));
  }

  lemma ResetAcceptedExactly(it: Item, e: Edit)
    requires ItemOk(it) && (e.SetReservation? || e.RemoveReservation?) && RowOf(it.rows, e.user) < |it.rows|
    ensures EditRows(it, e).Ok? <==> Acceptable(it, e)
  {
    PresentRow(it, e.user);
    hide CellOf, OthersReserved, SumReserved, SumDelivered, RowOf, ItemOk, PutReserved;
  }

  lemma MoveAcceptedExactly(it: Item, e: Edit)
    requires ItemOk(it) && (e.Participate? || e.Release? || e.Delivers()) && e.Entered()
    requires RowOf(it.rows, e.user) < |it.rows|
    ensures EditRows(it, e).Ok? <==> Acceptable(it, e)
  {
    PresentRow(it, e.user);
    hide CellOf, OthersReserved, SumReserved, SumDelivered, RowOf, ItemOk, PutReserved;
  }

  lemma RowsAcceptedExactly(it: Item, e: Edit)
    requires ItemOk(it) && e.OnRow() && e.Entered()
    ensures EditRows(it, e).Ok? <==> Acceptable(it, e)
  {
    if RowOf(it.rows, e.user) == |it.rows| {
      AbsentAcceptedExactly(it, e);
    } else if e.SetReservation? || e.RemoveReservation? {
      ResetAcceptedExactly(it, e);
    } else {
      MoveAcceptedExactly(it, e);
    }
  }

  /**
   * A row edit is accepted if and only if the contract is open and not past its deadline, the item exists, the
   * member has a row (or is taking part), and the cell it would leave fits. The sentinel errors refuse no more.
   */
  lemma RowEditAcceptedExactly(c: Contract, e: Edit, now: int, newId: nat)
    requires Sound(c) && e.OnRow() && e.Entered()
    ensures var k := Target(c.items, e);
      Apply(c, e, now, newId).Ok?
      <==> && c.status == Open && InTime(c, now) && k < |c.items|
           && (e.Participate? || CellOf(c.items[k].rows, e.user).Some?)
           && Fits(c.items[k], e.user, NextCell(CellOf(c.items[k].rows, e.user), e))
  {
    hide EditRows, NextCell, CellOf, Fits;
    if Target(c.items, e) < |c.items| { RowsAcceptedExactly(c.items[Target(c.items, e)], e); }
  }

  /** Renaming and resizing an item is accepted if and only if the items it would leave are sound. */
  lemma ResizeAcceptedExactly(c: Contract, e: Edit, now: int, newId: nat)
    requires Sound(c) && e.UpdateItem?
    ensures var k := Target(c.items, e);
      Apply(c, e, now, newId).Ok?
      <==> && c.status == Open && InTime(c, now) && k < |c.items|
           && ItemsOk(c.items[k := c.items[k].(name := e.name, required := e.qty)])
  {
    var items, k := c.items, Target(c.items, e);
    if k < |items| {
      var items' := items[k := items[k].(name := e.name, required := e.qty)];
      if ItemsOk(items') {
        forall j | 0 <= j < |items| && j != k ensures Lower(items[j].name) != Lower(e.name) {
          assert items'[j] == items[j] && Distinct(items'[if j < k then j else k], items'[if j < k then k else j]);
        }
        assert ItemOk(items'[k]);
      } else if Apply(c, e, now, newId).Ok? {
        ReplacedItemKeepsItems(items, k, items'[k]);
        assert false;
      }
    }
  }

  /** The name, folded as it stands. */
  predicate SameName(a: string, b: string) { Lower(a) == Lower(b) }

  /** The trimmed name means the item's, blank names meaning nothing. */
  predicate Names(n: string, it: Item) { Trim(n) != "" && SameName(Trim(n), it.name) }

  lemma ClashesExactly(it: Item, name: string, aliases: seq<string>, gdid: string)
    ensures Clashes(it, LoweredNames(name, aliases), gdid)
            <==> || (exists n :: n in [name] + aliases && Names(n, it))
                 || (gdid != "" && it.gdid == gdid)
  {
    var names := LoweredNames(name, aliases);
    if n :| n in [name] + aliases && Names(n, it) { assert Lower(Trim(n)) in names; }
    if Lower(it.name) in names {
      var n :| n in [name] + aliases && Lower(Trim(n)) == Lower(it.name) != "";
      assert Names(n, it);
    }
  }

  /** Nothing on the list is meant by one of the names or linked to the catalog id. */
  ghost predicate Unclaimed(it: Item, name: string, aliases: seq<string>, gdid: string) {
    && (forall n :: n in [name] + aliases ==> !Names(n, it))
    && (gdid == "" || it.gdid != gdid)
  }

  lemma UnclaimedIsNoClash(it: Item, name: string, aliases: seq<string>, gdid: string)
    ensures Unclaimed(it, name, aliases, gdid) <==> !Clashes(it, LoweredNames(name, aliases), gdid)
  {
    hide Clashes, LoweredNames, Names;
    ClashesExactly(it, name, aliases, gdid);
  }

  /**
   * An item is added if and only if the contract is open and in time, has room for it, and no item is meant by its
   * name or one of the aliases or linked to the same catalog id; its quantity must be positive.
   */
  lemma AddAcceptedExactly(c: Contract, e: Edit, now: int, newId: nat)
    requires e.AddItem?
    ensures Apply(c, e, now, newId).Ok?
            <==> && c.status == Open && InTime(c, now) && |c.items| < e.maxItems && e.qty > 0
                 && (forall j :: 0 <= j < |c.items| ==> Unclaimed(c.items[j], e.name, e.aliases, e.gdid))
                 && (forall j :: 0 <= j < |c.items| ==> !SameName(c.items[j].name, e.name))
  {
    hide Clashes, LoweredNames, Unclaimed;
    forall j | 0 <= j < |c.items|
      ensures Unclaimed(c.items[j], e.name, e.aliases, e.gdid)
              <==> !Clashes(c.items[j], LoweredNames(e.name, e.aliases), e.gdid)
    {
      UnclaimedIsNoClash(c.items[j], e.name, e.aliases, e.gdid);
    }
    assert ItemByName(c.items, e.name) == |c.items|
           <==> forall j :: 0 <= j < |c.items| ==> !SameName(c.items[j].name, e.name);
  }

  /** Linking is accepted if and only if the item is there and no other one is meant by an alias or has the id. */
  lemma LinkAcceptedExactly(c: Contract, e: Edit, now: int, newId: nat)
    requires e.LinkItem?
    ensures var k := ItemById(c.items, e.item);
      Apply(c, e, now, newId).Ok?
      <==> && c.status == Open && InTime(c, now) && k < |c.items|
           && forall j :: 0 <= j < |c.items| && j != k ==> Unclaimed(c.items[j], "", e.aliases, e.gdid)
  {
    hide Clashes, LoweredNames, Unclaimed;
    forall j | 0 <= j < |c.items|
      ensures Unclaimed(c.items[j], "", e.aliases, e.gdid)
              <==> !Clashes(c.items[j], LoweredNames("", e.aliases), e.gdid)
    {
      UnclaimedIsNoClash(c.items[j], "", e.aliases, e.gdid);
    }
  }

  /** Why a row edit is refused, by the member's cell and what the others leave of the item. */
  function Refusal(cell: Option<Cell>, room: int, e: Edit): Option<Error>
    requires e.OnRow()
  {
    var reserved := if cell.Some? then cell.value.reserved else 0;
    var delivered := if cell.Some? then cell.value.delivered else 0;
    match e
    case Participate(_, _, qty) => if reserved + qty > room then Some(OverCap) else None
    case Release(_, _, qty) =>
      if cell.None? then Some(NoReservation) else if reserved - qty < delivered then Some(BelowDelivered) else None
    case SetReservation(_, _, to) =>
      if cell.None? then Some(NoReservation)
      else if to < delivered then Some(BelowDelivered) else if to > room then Some(OverCap) else None
    case RemoveReservation(_, _) => if cell.None? then Some(NoReservation) else None
    case Deliver(_, _, qty) =>
      if cell.None? then Some(NoReservation) else if delivered + qty > reserved then Some(OverReserved) else None
    case DeliverByItem(_, _, qty) =>
      if cell.None? then Some(NoReservation) else if delivered + qty > reserved then Some(OverReserved) else None
    case _ => None
  }

  /** The refusal by the cell is what the edit of the rows reports. */
  ghost predicate Reported(it: Item, e: Edit)
    requires e.OnRow()
  {
    match Refusal(CellOf(it.rows, e.user), it.required - OthersReserved(it.rows, e.user), e)
    case Some(error) => EditRows(it, e) == Err(error)
    case None => EditRows(it, e).Ok?
  }

  lemma AbsentRefusal(it: Item, e: Edit)
    requires e.OnRow() && RowOf(it.rows, e.user) == |it.rows|
    ensures Reported(it, e)
  {
    hide SumReserved;
  }

  lemma ResetRefusal(it: Item, e: Edit)
    requires ItemOk(it) && (e.SetReservation? || e.RemoveReservation?) && RowOf(it.rows, e.user) < |it.rows|
    ensures Reported(it, e)
  {
    PresentRow(it, e.user);
    hide CellOf, OthersReserved, SumReserved, SumDelivered, RowOf, ItemOk, PutReserved;
  }

  lemma MoveRefusal(it: Item, e: Edit)
    requires ItemOk(it) && (e.Participate? || e.Release? || e.Delivers()) && RowOf(it.rows, e.user) < |it.rows|
    ensures Reported(it, e)
  {
    PresentRow(it, e.user);
    hide CellOf, OthersReserved, SumReserved, SumDelivered, RowOf, ItemOk, PutReserved;
  }

  lemma RowRefusal(it: Item, e: Edit)
    requires ItemOk(it) && e.OnRow()
    ensures Reported(it, e)
  {
    if RowOf(it.rows, e.user) == |it.rows| {
      AbsentRefusal(it, e);
    } else if e.SetReservation? || e.RemoveReservation? {
      ResetRefusal(it, e);
    } else {
      MoveRefusal(it, e);
    }
  }

  /** Why a row edit is refused at all: by the contract, then the item, then the cell. */
  function Refused(c: Contract, e: Edit, now: int): Option<Error>
    requires e.OnRow()
  {
    var k := Target(c.items, e);
    if c.status != Open then Some(Closed)
    else if !InTime(c, now) then Some(DeadlinePassed)
    else if k == |c.items| then Some(if e.Participate? || e.Deliver? || e.Release? then ItemNotFound else NotFound)
    else Refusal(CellOf(c.items[k].rows, e.user), c.items[k].required - OthersReserved(c.items[k].rows, e.user), e)
  }

  lemma RowItemsRefused(items: seq<Item>, e: Edit, newId: nat)
    requires e.OnRow() && ItemsOk(items)
    ensures var k, r := Target(items, e), EditItems(items, e, newId);
      if k == |items| then r == Err(if e.Participate? || e.Deliver? || e.Release? then ItemNotFound else NotFound)
      else (r.Ok? <==> EditRows(items[k], e).Ok?) && (r.Err? ==> EditRows(items[k], e) == Err(r.error))
    ensures Target(items, e) < |items| ==> ItemOk(items[Target(items, e)])
  {
    hide EditRows, Target, ItemOk, Distinct;
  }

  lemma RowsDecide(c: Contract, e: Edit, now: int, newId: nat)
    requires e.OnRow()
    ensures var r := Apply(c, e, now, newId);
      if c.status != Open then r == Err(Closed)
      else if !InTime(c, now) then r == Err(DeadlinePassed)
      else (r.Ok? <==> EditItems(c.items, e, newId).Ok?) && (r.Err? ==> EditItems(c.items, e, newId) == Err(r.error))
  {
    hide EditItems, FinishIfComplete;
  }

  /** A row edit is refused exactly when there is such a reason, and with exactly that error. */
  lemma RowEditRefusedExactly(c: Contract, e: Edit, now: int, newId: nat)
    requires Sound(c) && e.OnRow()
    ensures match Refused(c, e, now)
            case Some(error) => Apply(c, e, now, newId) == Err(error)
            case None => Apply(c, e, now, newId).Ok?
  {
    hide Apply, EditItems, EditRows, Refusal, CellOf, OthersReserved, Target, ItemsOk, ItemOk, InTime;
    RowsDecide(c, e, now, newId);
    RowItemsRefused(c.items, e, newId);
    if Target(c.items, e) < |c.items| { RowRefusal(c.items[Target(c.items, e)], e); }
  }

  /** What an edit leaves alone: edits of items and rows the contract's own columns, edits of columns the items. */
  lemma EditsStayApart(c: Contract, e: Edit, now: int, newId: nat)
    requires Apply(c, e, now, newId).Ok?
    ensures var c' := Apply(c, e, now, newId).value;
      && c'.revision == c.revision + 1
      && (e.UpdateDetails? || e.SetDeadline? || e.SetDeliveryLocation? || e.UpdateRewards?
          ==> c'.items == c.items && c'.status == c.status)
      && (!e.UpdateDetails? ==> c'.title == c.title && c'.description == c.description)
      && (!e.SetDeadline? ==> c'.deadline == c.deadline && c'.notified == c.notified)
      && (!e.SetDeliveryLocation? ==> c'.location == c.location)
      && (!e.UpdateRewards? ==> c'.credits == c.credits && c'.factor == c.factor)
      && c'.server == c.server && c'.thread == c.thread && c'.postVersion == c.postVersion
      && c'.payouts == c.payouts && c'.payoutDecimals == c.payoutDecimals
      && c'.posted == c.posted && c'.report == c.report && c'.paidBy == c.paidBy
  {
    hide EditItems, ShortItems, Expiring;
  }

  // ---- What a caller sees of an accepted edit ----

  /** The edit's whole effect: one cell, one item, or the named columns; and one more revision. */
  ghost predicate Edited(c: Contract, c': Contract, e: Edit, newId: nat) {
    && c'.revision == c.revision + 1
    && match e
       case AddItem(_, _, _, _, _) => OneItemEdited(c.items, c'.items, e, newId)
       case LinkItem(_, _, _) => OneItemEdited(c.items, c'.items, e, newId)
       case RemoveItem(_) => OneItemEdited(c.items, c'.items, e, newId)
       case UpdateItem(_, _, _) => OneItemEdited(c.items, c'.items, e, newId)
       case UpdateDetails(title, description) =>
         c'.title == title && c'.description == description && c'.items == c.items
       case SetDeadline(deadline) => c'.deadline == deadline && !c'.notified && c'.items == c.items
       case UpdateRewards(credits, factor) => c'.credits == credits && c'.factor == factor && c'.items == c.items
       case SetDeliveryLocation(location) => c'.location == location && c'.items == c.items
       case _ => OneCellEdited(c.items, c'.items, e)
  }

  ghost predicate OneItemEdited(items: seq<Item>, items': seq<Item>, e: Edit, newId: nat) {
    forall id: nat :: ItemAt(items', id) == NextItem(ItemAt(items, id), id, e, newId)
  }

  ghost predicate OneCellEdited(items: seq<Item>, items': seq<Item>, e: Edit)
    requires e.OnRow()
  {
    && Target(items, e) < |items|
    && forall id: nat, user :: CellAt(items', id, user) == CellAfter(items, e, id, user)
  }

  /** The member's cell on the targeted item as the edit leaves it, every other cell as it is. */
  function CellAfter(items: seq<Item>, e: Edit, id: nat, user: string): Option<Cell>
    requires e.OnRow() && Target(items, e) < |items|
  {
    if id == items[Target(items, e)].id && user == e.user
    then NextCell(CellAt(items, id, user), e) else CellAt(items, id, user)
  }

  lemma EditIsSeen(c: Contract, e: Edit, now: int, newId: nat)
    requires Sound(c) && e.Entered() && Apply(c, e, now, newId).Ok? && ItemById(c.items, newId) == |c.items|
    ensures Edited(c, Apply(c, e, now, newId).value, e, newId)
  {
    var c' := Apply(c, e, now, newId).value;
    EditsStayApart(c, e, now, newId);
    if e.OnRow() {
      RowEditIsSeen(c, e, now, newId);
    } else if e.AddItem? || e.LinkItem? || e.RemoveItem? || e.UpdateItem? {
      forall id: nat ensures ItemAt(c'.items, id) == NextItem(ItemAt(c.items, id), id, e, newId) {
        ItemEditChangesOneItem(c, e, now, newId, id);
      }
    } else {
      ColumnEditIsSeen(c, e, now, newId);
    }
  }

  lemma RowEditIsSeen(c: Contract, e: Edit, now: int, newId: nat)
    requires Sound(c) && e.OnRow() && e.Entered() && Apply(c, e, now, newId).Ok?
    ensures OneCellEdited(c.items, Apply(c, e, now, newId).value.items, e)
  {
    RowEditChangesOneCell(c, e, now, newId, 0, "");
    var items := Apply(c, e, now, newId).value.items;
    forall id: nat, user ensures CellAt(items, id, user) == CellAfter(c.items, e, id, user) {
      RowEditChangesOneCell(c, e, now, newId, id, user);
    }
  }

  lemma ColumnEditIsSeen(c: Contract, e: Edit, now: int, newId: nat)
    requires e.UpdateDetails? || e.SetDeadline? || e.UpdateRewards? || e.SetDeliveryLocation?
    requires Apply(c, e, now, newId).Ok?
    ensures Edited(c, Apply(c, e, now, newId).value, e, newId)
  {
    hide EditItems;
  }

  // ---- How a contract ends ----

  /**
   * The three endings exclude each other. The sweeper expires exactly the contracts whose edits are refused for
   * their deadline; after any ending every edit, cancel and expiry is refused.
   */
  lemma EndsOnce(c: Contract, e: Edit, now: int, later: int, newId: nat)
    ensures MarkExpired(c, now).Some? <==> Locked(c, now) == Err(DeadlinePassed)
    ensures MarkExpired(c, now).Some? <==> c.status == Open && c.deadline.Some? && c.deadline.value <= now
    ensures Cancel(c).Ok? <==> c.status == Open
    ensures Cancel(c).Ok? ==> Cancel(c).value.status == Cancelled && Ended(Cancel(c).value, e, later, newId)
    ensures MarkExpired(c, now).Some? ==>
              MarkExpired(c, now).value.status == Expired && Ended(MarkExpired(c, now).value, e, later, newId)
    ensures Apply(c, e, now, newId).Ok? && Apply(c, e, now, newId).value.status == Completed ==>
              Ended(Apply(c, e, now, newId).value, e, later, newId)
  {
  }

  /** Refuses whatever would still change the ledger. */
  predicate Ended(c: Contract, e: Edit, now: int, newId: nat) {
    Apply(c, e, now, newId) == Err(Closed) && Cancel(c) == Err(Closed) && MarkExpired(c, now).None?
  }

  /**
   * The closing-soon latch fires once per deadline: once consumed it stays consumed through every edit but a new
   * deadline, which rearms it.
   */
  lemma NotifiesOncePerDeadline(c: Contract, e: Edit, now: int, newId: nat)
    requires MarkNotified(c).Some?
    ensures var told := MarkNotified(c).value;
      && MarkNotified(told).None?
      && (Apply(told, e, now, newId).Ok? ==>
            (MarkNotified(Apply(told, e, now, newId).value).Some? <==> e.SetDeadline?))
  {
    if Apply(MarkNotified(c).value, e, now, newId).Ok? { EditsStayApart(MarkNotified(c).value, e, now, newId); }
    hide EditItems, FinishIfComplete;
  }
}
