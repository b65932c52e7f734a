/**
 * The proportional split of a completed contract's credit pool, and the figures later renders recover
 * from the persisted rows. Decimals are exact: pools and amounts count units of 10^-decimals, unit values
 * share one common scale, shares count millionths of a percent.
 */
module Payouts {
  import opened Prelude
  import opened Contracts
  import opened Ledger

  /** One item as the computation sees it; `unit` is zero for an item the catalog has no price for. */
  datatype PayoutItem = PayoutItem(name: string, unit: int, required: int, delivered: seq<Participant>)

  datatype PayoutResult = PayoutResult(
    pool: int, shares: seq<Payout>, remainder: int, zeroValue: bool, priceless: seq<string>)

  const MAX_DECIMALS: nat := 2

  function Pow10(n: nat): (r: nat)
    ensures r > 0
  {
    if n == 0 then 1 else 10 * Pow10(n - 1)
  }

  /** credits x factor / 100, truncated to whole units of 10^-decimals. */
  function Pool(credits: nat, factor: nat, decimals: nat): nat {
    credits * factor * Pow10(decimals) / 1000000
  }

  /**
   * The pool in the columns it comes from: the reward in hundredths of a credit times the factor in hundredths of a
   * percent, cut down to whole units of 10^-decimals.
   */
  predicate IsPool(pool: int, credits: nat, factor: nat, decimals: nat) {
    && 1000000 * pool <= credits * factor * Pow10(decimals) < 1000000 * (pool + 1)
    && (decimals == 0 ==> 1000000 * pool <= credits * factor < 1000000 * (pool + 1))
    && (decimals == 1 ==> 100000 * pool <= credits * factor < 100000 * (pool + 1))
    && (decimals == 2 ==> 10000 * pool <= credits * factor < 10000 * (pool + 1))
  }

  lemma PoolIsTheRewardsPart(credits: nat, factor: nat, decimals: nat)
    ensures IsPool(Pool(credits, factor, decimals), credits, factor, decimals)
  {
    assert Pow10(0) == 1 && Pow10(1) == 10 && Pow10(2) == 100;
  }

  // ---- The sums the split is made of ----

  /** A member's deliveries among an item's rows; only positive quantities earn. */
  function Taken(rows: seq<Participant>, user: string): (r: nat) {
    if rows == [] then 0
    else
      var last := rows[|rows| - 1];
      Taken(rows[..|rows| - 1], user) + if last.user == user && last.delivered > 0 then last.delivered else 0
  }

  /** A member's net quantity among an item's rows. */
  function NetTaken(rows: seq<Participant>, user: string): int {
    if rows == [] then 0
    else
      var last := rows[|rows| - 1];
      NetTaken(rows[..|rows| - 1], user) + if last.user == user then last.delivered else 0
  }

  /** The value of everything required. */
  function Den(items: seq<PayoutItem>): int {
    if items == [] then 0
    else
      var last := items[|items| - 1];
      Den(items[..|items| - 1]) + if last.unit > 0 then last.unit * last.required else 0
  }

  /** The value a member delivered. */
  function Num(items: seq<PayoutItem>, user: string): (r: nat) {
    if items == [] then 0
    else
      var last := items[|items| - 1];
      Num(items[..|items| - 1], user) + if last.unit > 0 then last.unit * Taken(last.delivered, user) else 0
  }

  /** The quantity a member delivered, of any value. */
  function Qty(items: seq<PayoutItem>, user: string): int {
    if items == [] then 0
    else Qty(items[..|items| - 1], user) + NetTaken(items[|items| - 1].delivered, user)
  }

  function Priceless(items: seq<PayoutItem>): seq<string> {
    if items == [] then []
    else
      var last := items[|items| - 1];
      Priceless(items[..|items| - 1]) + if last.unit > 0 then [] else [last.name]
  }

  // ---- One member's share ----

  function Amount(pool: nat, num: nat, den: int): nat {
    if den <= 0 then 0 else pool * num / den
  }

  /** Percent of the pool at six decimals, rounded half up. */
  function Share(num: nat, den: int): nat {
    if den <= 0 then 0 else (2 * num * 100000000 + den) / (2 * den)
  }

  function RowFor(items: seq<PayoutItem>, pool: nat, user: string): Payout {
    Payout(user, "", Amount(pool, Num(items, user), Den(items)), Share(Num(items, user), Den(items)))
  }

  function RowsFor(items: seq<PayoutItem>, pool: nat, users: seq<string>): (r: seq<Payout>)
    ensures |r| == |users|
  {
    seq(|users|, i requires 0 <= i < |users| => RowFor(items, pool, users[i]))
  }

  function SumAmounts(rows: seq<Payout>): int {
    if rows == [] then 0 else SumAmounts(rows[..|rows| - 1]) + rows[|rows| - 1].amount
  }

  /** The members who delivered something, once each, in ascending order. */
  ghost predicate AreDeliverers(users: seq<string>, items: seq<PayoutItem>) {
    Ascending(users) && forall u :: u in users <==> Qty(items, u) > 0
  }

  /** What a split is, whatever order the members were collected in. */
  ghost predicate IsSplit(res: PayoutResult, credits: nat, factor: nat, items: seq<PayoutItem>, decimals: nat) {
    var pool := Pool(credits, factor, decimals);
    exists users ::
      && AreDeliverers(users, items)
      && res == PayoutResult(pool, RowsFor(items, pool, users), pool - SumAmounts(RowsFor(items, pool, users)),
                             Den(items) <= 0, Priceless(items))
  }

  function Get(m: map<string, int>, user: string): int { if user in m then m[user] else 0 }

  /** The split of a completed contract: value out what everybody delivered, then cut the pool in proportion. */
  method ComputePayout(credits: nat, factor: nat, items: seq<PayoutItem>, decimals: nat) returns (res: PayoutResult)
    ensures IsSplit(res, credits, factor, items, decimals)
    ensures IsPool(res.pool, credits, factor, decimals)
  {
    var pool := Pool(credits, factor, decimals);
    PoolIsTheRewardsPart(credits, factor, decimals);
    hide Pool, IsPool;
    var den := 0;
    var nums: map<string, int> := map[];
    var delivered: map<string, int> := map[];
    var priceless: seq<string> := [];
    for i := 0 to |items|
      invariant den == Den(items[..i])
      invariant priceless == Priceless(items[..i])
      invariant forall u :: Get(nums, u) == Num(items[..i], u)
      invariant forall u :: Get(delivered, u) == Qty(items[..i], u)
    {
      assert items[..i + 1][..i] == items[..i];
      if items[i].unit <= 0 {
        priceless := priceless + [items[i].name];
      } else {
        den := den + items[i].unit * items[i].required;
      }
      nums, delivered := TallyItem(items[i], nums, delivered);
    }
    assert items[..|items|] == items;
    var users := CollectDeliverers(delivered);
    users := SortStrings(users);
    assert AreDeliverers(users, items);
    var shares, distributed := CutShares(items, pool, den, nums, users);
    res := PayoutResult(pool, shares, pool - distributed, den <= 0, priceless);
  }

  /** Adds one item's deliveries to the members' values and quantities. */
  method TallyItem(it: PayoutItem, nums0: map<string, int>, delivered0: map<string, int>)
    returns (nums: map<string, int>, delivered: map<string, int>)
    ensures forall u :: Get(nums, u)
                        == Get(nums0, u) + if it.unit > 0 then it.unit * Taken(it.delivered, u) else 0
    ensures forall u :: Get(delivered, u) == Get(delivered0, u) + NetTaken(it.delivered, u)
  {
    nums, delivered := nums0, delivered0;
    var rows := it.delivered;
    for k := 0 to |rows|
      invariant forall u :: Get(nums, u) == Get(nums0, u) + Worth(it.unit, rows[..k], u)
      invariant forall u :: Get(delivered, u) == Get(delivered0, u) + NetTaken(rows[..k], u)
    {
      TotalsGrow(it.unit, rows, k);
      hide Worth, NetTaken;
      var p := rows[k];
      delivered := delivered[p.user := Get(delivered, p.user) + p.delivered];
      if it.unit > 0 && p.delivered > 0 {
        nums := nums[p.user := Get(nums, p.user) + it.unit * p.delivered];
      }
    }
    assert rows[..|rows|] == rows;
  }

  /** What a member's deliveries among the rows are worth. */
  function Worth(unit: int, rows: seq<Participant>, user: string): int {
    if unit > 0 then unit * Taken(rows, user) else 0
  }

  lemma TotalsGrow(unit: int, rows: seq<Participant>, k: nat)
    requires k < |rows|
    ensures forall u :: Worth(unit, rows[..k + 1], u)
                        == Worth(unit, rows[..k], u)
                           + if unit > 0 && rows[k].user == u && rows[k].delivered > 0
                             then unit * rows[k].delivered else 0
    ensures forall u :: NetTaken(rows[..k + 1], u)
                        == NetTaken(rows[..k], u) + if rows[k].user == u then rows[k].delivered else 0
  {
    assert rows[..k + 1][..k] == rows[..k];
    forall u ensures Worth(unit, rows[..k + 1], u)
                     == Worth(unit, rows[..k], u)
                        + if unit > 0 && rows[k].user == u && rows[k].delivered > 0
                          then unit * rows[k].delivered else 0
    {
      Distributes(unit, Taken(rows[..k], u), rows[k].delivered);
    }
  }

  lemma Distributes(unit: int, a: int, b: int)
    ensures unit * (a + b) == unit * a + unit * b
  {
  }

  /** Each member's truncated amount and rounded share, and the total handed out. */
  method CutShares(items: seq<PayoutItem>, pool: nat, den: int, nums: map<string, int>, users: seq<string>)
    returns (shares: seq<Payout>, distributed: int)
    requires den == Den(items) && forall u :: Get(nums, u) == Num(items, u)
    ensures shares == RowsFor(items, pool, users) && distributed == SumAmounts(shares)
  {
    shares, distributed := [], 0;
    for i := 0 to |users|
      invariant shares == RowsFor(items, pool, users)[..i]
      invariant distributed == SumAmounts(shares)
    {
      var row := Payout(users[i], "", 0, 0);
      if den > 0 {
        var num: nat := Get(nums, users[i]);
        row := row.(amount := pool * num / den, share := (2 * num * 100000000 + den) / (2 * den));
        distributed := distributed + row.amount;
      }
      assert row == RowFor(items, pool, users[i]);
      assert (shares + [row])[..i] == shares;
      shares := shares + [row];
    }
  }

  /** The map's keys with a positive quantity, in whatever order the map yields them. */
  method CollectDeliverers(delivered: map<string, int>) returns (users: seq<string>)
    ensures forall u :: u in users <==> Get(delivered, u) > 0
  {
    users := [];
    var left := delivered.Keys;
    while left != {}
      invariant left <= delivered.Keys
      invariant forall u :: u in users <==> u in delivered.Keys - left && delivered[u] > 0
      decreases |left|
    {
      var u :| u in left;
      left := left - {u};
      if delivered[u] > 0 { users := users + [u]; }
    }
  }

  // ---- The split depends only on delivered value ----

  /** Items and deliveries that value out to the same numerators, denominator and deliverers. */
  ghost predicate SameValue(a: seq<PayoutItem>, b: seq<PayoutItem>) {
    Den(a) == Den(b) && forall u :: Num(a, u) == Num(b, u) && Qty(a, u) == Qty(b, u)
  }

  lemma SplitDependsOnValue(
      a: PayoutResult, b: PayoutResult, credits: nat, factor: nat,
      items: seq<PayoutItem>, others: seq<PayoutItem>, decimals: nat)
    requires IsSplit(a, credits, factor, items, decimals) && IsSplit(b, credits, factor, others, decimals)
    requires SameValue(items, others)
    ensures a == b.(priceless := a.priceless)
  {
    var pool := Pool(credits, factor, decimals);
    var us :| AreDeliverers(us, items) && a.shares == RowsFor(items, pool, us)
        && a.remainder == pool - SumAmounts(a.shares);
    var vs :| AreDeliverers(vs, others) && b.shares == RowsFor(others, pool, vs)
        && b.remainder == pool - SumAmounts(b.shares);
    AscendingIsUnique(us, vs);
    assert a.shares == b.shares;
  }

  lemma {:induction false} TotalsDrop(items: seq<PayoutItem>, k: nat, user: string)
    requires k < |items|
    ensures Den(items) == Den(Drop(items, k)) + Den([items[k]])
    ensures Num(items, user) == Num(Drop(items, k), user) + Num([items[k]], user)
    ensures Qty(items, user) == Qty(Drop(items, k), user) + Qty([items[k]], user)
  {
    var n := |items| - 1;
    assert [items[k]][..0] == [];
    if k == n {
      assert Drop(items, k) == items[..n];
    } else {
      assert Drop(items, k)[..n - 1] == Drop(items[..n], k);
      TotalsDrop(items[..n], k, user);
    }
  }

  lemma {:induction false} TotalsPermute(a: seq<PayoutItem>, b: seq<PayoutItem>, user: string)
    requires multiset(a) == multiset(b)
    ensures Den(a) == Den(b) && Num(a, user) == Num(b, user) && Qty(a, user) == Qty(b, user)
  {
    if a == [] {
      assert |multiset(b)| == 0;
    } else {
      assert a[0] in multiset(b);
      var k :| 0 <= k < |b| && b[k] == a[0];
      DropMultiset(a, 0);
      DropMultiset(b, k);
      TotalsPermute(Drop(a, 0), Drop(b, k), user);
      TotalsDrop(a, 0, user);
      TotalsDrop(b, k, user);
    }
  }

  lemma DropMultiset<T>(s: seq<T>, k: nat)
    requires k < |s|
    ensures multiset(Drop(s, k)) == multiset(s) - multiset{s[k]}
  {
    assert s == s[..k] + [s[k]] + s[k + 1..];
  }

  /** The order of the items does not matter. */
  lemma ItemOrderIsIrrelevant(
      a: PayoutResult, b: PayoutResult, credits: nat, factor: nat,
      items: seq<PayoutItem>, others: seq<PayoutItem>, decimals: nat)
    requires IsSplit(a, credits, factor, items, decimals) && IsSplit(b, credits, factor, others, decimals)
    requires multiset(items) == multiset(others)
    ensures a == b.(priceless := a.priceless)
  {
    TotalsPermute(items, others, "");
    forall u ensures Num(items, u) == Num(others, u) && Qty(items, u) == Qty(others, u) {
      TotalsPermute(items, others, u);
    }
    SplitDependsOnValue(a, b, credits, factor, items, others, decimals);
  }

  lemma {:induction false} RowTotalsDrop(rows: seq<Participant>, k: nat, user: string)
    requires k < |rows|
    ensures Taken(rows, user) == Taken(Drop(rows, k), user) + Taken([rows[k]], user)
    ensures NetTaken(rows, user) == NetTaken(Drop(rows, k), user) + NetTaken([rows[k]], user)
  {
    var n := |rows| - 1;
    assert [rows[k]][..0] == [];
    if k == n {
      assert Drop(rows, k) == rows[..n];
    } else {
      assert Drop(rows, k)[..n - 1] == Drop(rows[..n], k);
      RowTotalsDrop(rows[..n], k, user);
    }
  }

  lemma {:induction false} RowTotalsPermute(a: seq<Participant>, b: seq<Participant>, user: string)
    requires multiset(a) == multiset(b)
    ensures Taken(a, user) == Taken(b, user) && NetTaken(a, user) == NetTaken(b, user)
  {
    if a == [] {
      assert |multiset(b)| == 0;
    } else {
      assert a[0] in multiset(b);
      var k :| 0 <= k < |b| && b[k] == a[0];
      DropMultiset(a, 0);
      DropMultiset(b, k);
      RowTotalsPermute(Drop(a, 0), Drop(b, k), user);
      RowTotalsDrop(a, 0, user);
      RowTotalsDrop(b, k, user);
    }
  }

  lemma ParticipantsPermute(items: seq<PayoutItem>, k: nat, rows: seq<Participant>, user: string)
    requires k < |items| && multiset(rows) == multiset(items[k].delivered)
    ensures var others := items[k := items[k].(delivered := rows)];
      Den(items) == Den(others) && Num(items, user) == Num(others, user) && Qty(items, user) == Qty(others, user)
  {
    var others := items[k := items[k].(delivered := rows)];
    RowTotalsPermute(rows, items[k].delivered, user);
    TotalsDrop(items, k, user);
    TotalsDrop(others, k, user);
    assert Drop(items, k) == Drop(others, k);
    assert [items[k]][..0] == [] && [others[k]][..0] == [];
  }

  /** The order of the participants within an item does not matter. */
  lemma ParticipantOrderIsIrrelevant(
      a: PayoutResult, b: PayoutResult, credits: nat, factor: nat,
      items: seq<PayoutItem>, k: nat, rows: seq<Participant>, decimals: nat)
    requires k < |items| && multiset(rows) == multiset(items[k].delivered)
    requires IsSplit(a, credits, factor, items, decimals)
    requires IsSplit(b, credits, factor, items[k := items[k].(delivered := rows)], decimals)
    ensures a == b
  {
    var others := items[k := items[k].(delivered := rows)];
    forall u ensures Num(items, u) == Num(others, u) && Qty(items, u) == Qty(others, u) {
      ParticipantsPermute(items, k, rows, u);
    }
    ParticipantsPermute(items, k, rows, "");
    SamePriceless(items, others);
    SplitDependsOnValue(a, b, credits, factor, items, others, decimals);
  }

  lemma {:induction false} SamePriceless(a: seq<PayoutItem>, b: seq<PayoutItem>)
    requires |a| == |b| && forall j :: 0 <= j < |a| ==> a[j].unit == b[j].unit && a[j].name == b[j].name
    ensures Priceless(a) == Priceless(b)
  {
    if a != [] { SamePriceless(a[..|a| - 1], b[..|b| - 1]); }
  }

  /** The rows are exactly the members who delivered something, once each, sorted by user id. */
  lemma RowsAreTheDeliverers(res: PayoutResult, credits: nat, factor: nat, items: seq<PayoutItem>, decimals: nat)
    requires IsSplit(res, credits, factor, items, decimals)
    ensures forall u :: Qty(items, u) > 0 <==> exists k :: 0 <= k < |res.shares| && res.shares[k].user == u
    ensures forall j, k :: 0 <= j < k < |res.shares| ==> Less(res.shares[j].user, res.shares[k].user)
  {
    var pool := Pool(credits, factor, decimals);
    var us :| AreDeliverers(us, items) && res.shares == RowsFor(items, pool, us);
    assert forall k :: 0 <= k < |us| ==> res.shares[k].user == us[k];
    forall u | Qty(items, u) > 0 ensures exists k :: 0 <= k < |res.shares| && res.shares[k].user == u {
      assert u in us;
      var k :| 0 <= k < |us| && us[k] == u;
      assert res.shares[k].user == u;
    }
  }

  lemma MulMonotone(x: int, y: int, d: int)
    requires x <= y && d >= 0
    ensures d * x <= d * y
  {
    assert d * (y - x) >= 0;
  }

  lemma SameSign(d: int, x: int)
    requires d > 0
    ensures d * x > 0 ==> x > 0
    ensures d * x >= 0 ==> x >= 0
  {
  }

  lemma DivAtLeast(b: nat, q: int, d: int)
    requires d > 0 && d * q <= b
    ensures q <= b / d
  {
    SameSign(d, b / d - q + 1);
    assert d * (b / d - q + 1) == d * (b / d) - d * q + d;
  }

  lemma DivMonotone(a: nat, b: nat, d: int)
    requires a <= b && d > 0
    ensures a / d <= b / d
  {
    DivAtLeast(b, a / d, d);
  }

  lemma RowsAreMonotone(items: seq<PayoutItem>, pool: nat, u: string, v: string)
    requires Num(items, u) <= Num(items, v)
    ensures RowFor(items, pool, u).amount <= RowFor(items, pool, v).amount
    ensures RowFor(items, pool, u).share <= RowFor(items, pool, v).share
  {
    hide Num, Den;
    AmountIsMonotone(pool, Num(items, u), Num(items, v), Den(items));
    ShareIsMonotone(Num(items, u), Num(items, v), Den(items));
  }

  lemma AmountIsMonotone(pool: nat, a: nat, b: nat, den: int)
    requires a <= b
    ensures Amount(pool, a, den) <= Amount(pool, b, den)
  {
    if den > 0 {
      MulMonotone(a, b, pool);
      DivMonotone(pool * a, pool * b, den);
    }
  }

  lemma ShareIsMonotone(a: nat, b: nat, den: int)
    requires a <= b
    ensures Share(a, den) <= Share(b, den)
  {
    if den > 0 { DivMonotone(2 * a * 100000000 + den, 2 * b * 100000000 + den, 2 * den); }
  }

  /** Among the rows of a split, who delivered at least as much value gets at least as much, in credits and percent. */
  lemma MoreValueEarnsMore(
      res: PayoutResult, credits: nat, factor: nat, items: seq<PayoutItem>, decimals: nat, j: nat, k: nat)
    requires IsSplit(res, credits, factor, items, decimals) && j < |res.shares| && k < |res.shares|
    requires Num(items, res.shares[j].user) <= Num(items, res.shares[k].user)
    ensures res.shares[j].amount <= res.shares[k].amount
    ensures res.shares[j].share <= res.shares[k].share
  {
    var pool := Pool(credits, factor, decimals);
    var users :| AreDeliverers(users, items) && res.shares == RowsFor(items, pool, users);
    RowsAreMonotone(items, pool, users[j], users[k]);
  }

  // ---- What a row is worth ----

  lemma FloorOf(x: nat, d: int)
    requires d > 0
    ensures (x / d) * d <= x < (x / d + 1) * d
  {
  }

  /**
   * Each row of a split pays the member's part of the pool, truncated to whole units, and shows their part of the
   * value, rounded to the nearest millionth of a percent.
   */
  lemma RowsAreProportional(
      res: PayoutResult, credits: nat, factor: nat, items: seq<PayoutItem>, decimals: nat, k: nat)
    requires IsSplit(res, credits, factor, items, decimals) && k < |res.shares| && Den(items) > 0
    ensures IsPool(res.pool, credits, factor, decimals)
    ensures var row, num, den := res.shares[k], Num(items, res.shares[k].user), Den(items);
      && row.amount * den <= res.pool * num < (row.amount + 1) * den
      && -den <= 2 * (100000000 * num - row.share * den) < den
  {
    var pool := Pool(credits, factor, decimals);
    PoolIsTheRewardsPart(credits, factor, decimals);
    hide IsPool, Pool;
    var users :| AreDeliverers(users, items) && res.shares == RowsFor(items, pool, users);
    var num, den := Num(items, users[k]), Den(items);
    FloorOf(pool * num, den);
    FloorOf(2 * num * 100000000 + den, 2 * den);
    RoundingBounds(num, den, Share(num, den));
  }

  lemma RoundingBounds(num: nat, den: int, share: nat)
    requires den > 0 && share * (2 * den) <= 2 * num * 100000000 + den < (share + 1) * (2 * den)
    ensures -den <= 2 * (100000000 * num - share * den) < den
  {
    assert share * (2 * den) == 2 * (share * den) && (share + 1) * (2 * den) == 2 * (share * den) + 2 * den;
  }

  lemma {:induction false} NotTaken(rows: seq<Participant>, user: string)
    requires forall k :: 0 <= k < |rows| ==> rows[k].user != user
    ensures Taken(rows, user) == 0
  {
    if rows != [] { NotTaken(rows[..|rows| - 1], user); }
  }

  /** With a row a member, what a member took is what their cell says was delivered. */
  lemma {:induction false} TakenIsTheCell(rows: seq<Participant>, user: string)
    requires RowsOk(rows)
    ensures Taken(rows, user) == if CellOf(rows, user).Some? then CellOf(rows, user).value.delivered else 0
  {
    var k := RowOf(rows, user);
    if k == |rows| {
      NotTaken(rows, user);
    } else {
      var n := |rows| - 1;
      if k == n {
        NotTaken(rows[..n], user);
      } else {
        RowLookup(rows[..n], k);
        TakenIsTheCell(rows[..n], user);
      }
    }
  }

  /** The items named as having no price are exactly those without one. */
  lemma {:induction false} PricelessAreNamed(items: seq<PayoutItem>, name: string)
    ensures name in Priceless(items) <==> exists k :: 0 <= k < |items| && items[k].unit <= 0 && items[k].name == name
  {
    if items != [] {
      var n := |items| - 1;
      PricelessAreNamed(items[..n], name);
      assert forall k :: 0 <= k < n ==> items[..n][k] == items[k];
    }
  }

  // ---- Every input has a split ----

  function Handers(rows: seq<Participant>): (r: seq<string>)
    ensures |r| == |rows| && forall k :: 0 <= k < |rows| ==> r[k] == rows[k].user
  {
    seq(|rows|, k requires 0 <= k < |rows| => rows[k].user)
  }

  function AllHanders(items: seq<PayoutItem>): seq<string> {
    if items == [] then [] else AllHanders(items[..|items| - 1]) + Handers(items[|items| - 1].delivered)
  }

  function Earners(users: seq<string>, items: seq<PayoutItem>): (r: seq<string>)
    ensures forall u :: u in r <==> u in users && Qty(items, u) > 0
  {
    if users == [] then []
    else
      assert users == [users[0]] + users[1..];
      (if Qty(items, users[0]) > 0 then [users[0]] else []) + Earners(users[1..], items)
  }

  lemma {:induction false} OnlyHandersTake(rows: seq<Participant>, user: string)
    requires user !in Handers(rows)
    ensures NetTaken(rows, user) == 0
  {
    if rows != [] {
      var n := |rows| - 1;
      assert Handers(rows)[n] == rows[n].user;
      assert forall k :: 0 <= k < n ==> Handers(rows[..n])[k] == Handers(rows)[k];
      OnlyHandersTake(rows[..n], user);
    }
  }

  lemma {:induction false} OnlyHandersCount(items: seq<PayoutItem>, user: string)
    requires user !in AllHanders(items)
    ensures Qty(items, user) == 0
  {
    if items != [] {
      OnlyHandersCount(items[..|items| - 1], user);
      OnlyHandersTake(items[|items| - 1].delivered, user);
    }
  }

  lemma SplitExists(credits: nat, factor: nat, items: seq<PayoutItem>, decimals: nat) returns (res: PayoutResult)
    ensures IsSplit(res, credits, factor, items, decimals)
  {
    var users := SortStrings(Earners(AllHanders(items), items));
    forall u ensures u in users <==> Qty(items, u) > 0 {
      if u !in AllHanders(items) { OnlyHandersCount(items, u); }
    }
    var pool := Pool(credits, factor, decimals);
    var rows := RowsFor(items, pool, users);
    res := PayoutResult(pool, rows, pool - SumAmounts(rows), Den(items) <= 0, Priceless(items));
    assert AreDeliverers(users, items);
  }

  // ---- Conservation ----

  function SumNums(items: seq<PayoutItem>, users: seq<string>): nat {
    if users == [] then 0 else SumNums(items, users[..|users| - 1]) + Num(items, users[|users| - 1])
  }

  function SumTaken(rows: seq<Participant>, users: seq<string>): nat {
    if users == [] then 0 else SumTaken(rows, users[..|users| - 1]) + Taken(rows, users[|users| - 1])
  }

  lemma FloorStep(pool: nat, sum: int, num: nat, den: int, before: int, n: nat)
    requires den > 0 && 0 <= pool * sum - den * before <= n * (den - 1)
    ensures 0 <= pool * (sum + num) - den * (before + pool * num / den) <= (n + 1) * (den - 1)
  {
    var q, r := pool * num / den, pool * num % den;
    assert pool * num == den * q + r && 0 <= r <= den - 1;
    assert pool * (sum + num) == pool * sum + pool * num;
    assert den * (before + q) == den * before + den * q;
    assert (n + 1) * (den - 1) == n * (den - 1) + (den - 1);
  }

  /** Flooring each share loses less than one unit a member. */
  lemma {:induction false} FloorsLoseLittle(items: seq<PayoutItem>, pool: nat, users: seq<string>)
    requires Den(items) > 0
    ensures 0 <= pool * SumNums(items, users) - Den(items) * SumAmounts(RowsFor(items, pool, users))
                 <= |users| * (Den(items) - 1)
  {
    if users != [] {
      var n := |users| - 1;
      FloorsLoseLittle(items, pool, users[..n]);
      var rows, before := RowsFor(items, pool, users), RowsFor(items, pool, users[..n]);
      assert rows[..n] == before;
      FloorStep(pool, SumNums(items, users[..n]), Num(items, users[n]), Den(items), SumAmounts(before), n);
    }
  }

  /** If the members' values add up to the denominator, what truncation leaves is below one unit a member. */
  lemma RemainderBound(pool: nat, distributed: int, den: int, nums: nat, n: nat)
    requires den > 0 && 0 <= pool * nums - den * distributed <= n * (den - 1)
    ensures nums <= den ==> distributed <= pool
    ensures nums == den ==> pool - distributed <= if n > 0 then n - 1 else 0
  {
    var left := pool - distributed;
    assert den * left == pool * den - den * distributed;
    SameSign(den, left);
    if nums <= den {
      MulMonotone(nums, den, pool);
    }
    if nums == den {
      assert den * (n - left) == den * n - den * left;
      assert n * (den - 1) == den * n - n;
      SameSign(den, n - left);
    }
  }

  /** Rows of one item: members listed once each collect everything delivered, if every deliverer is listed. */
  lemma {:induction false} TakenAddsUp(rows: seq<Participant>, users: seq<string>)
    requires Ascending(users)
    requires forall k :: 0 <= k < |rows| ==> rows[k].delivered >= 0
    requires forall k :: 0 <= k < |rows| && rows[k].delivered > 0 ==> rows[k].user in users
    ensures SumTaken(rows, users) == SumDelivered(rows)
  {
    if rows == [] {
      NothingTaken(users);
    } else {
      var n := |rows| - 1;
      TakenAddsUp(rows[..n], users);
      SumsAppend(rows[..n], rows[n]);
      assert rows == rows[..n] + [rows[n]];
      LastRowTaken(rows, users);
    }
  }

  lemma {:induction false} NothingTaken(users: seq<string>)
    ensures SumTaken([], users) == 0
  {
    if users != [] { NothingTaken(users[..|users| - 1]); }
  }

  lemma {:induction false} LastRowTaken(rows: seq<Participant>, users: seq<string>)
    requires rows != [] && rows[|rows| - 1].delivered >= 0 && Ascending(users)
    ensures var last := rows[|rows| - 1];
      SumTaken(rows, users)
      == SumTaken(rows[..|rows| - 1], users) + if last.user in users then last.delivered else 0
  {
    if users != [] {
      var m := |users| - 1;
      LastRowTaken(rows, users[..m]);
      assert users == users[..m] + [users[m]];
      forall k | 0 <= k < m ensures users[k] != users[m] { LessIsTotal(users[k], users[m]); }
    }
  }

  lemma {:induction false} NumsSplit(items: seq<PayoutItem>, users: seq<string>)
    requires items != []
    ensures var last := items[|items| - 1];
      SumNums(items, users)
      == SumNums(items[..|items| - 1], users) + if last.unit > 0 then last.unit * SumTaken(last.delivered, users) else 0
  {
    var last := items[|items| - 1];
    if users != [] {
      var m := |users| - 1;
      NumsSplit(items, users[..m]);
      if last.unit > 0 {
        assert last.unit * (SumTaken(last.delivered, users[..m]) + Taken(last.delivered, users[m]))
            == last.unit * SumTaken(last.delivered, users[..m]) + last.unit * Taken(last.delivered, users[m]);
      }
    }
  }

  lemma {:induction false} NoNums(users: seq<string>)
    ensures SumNums([], users) == 0
  {
    if users != [] { NoNums(users[..|users| - 1]); }
  }

  /** Every row's deliverer is listed and no row is negative. */
  predicate Lists(users: seq<string>, items: seq<PayoutItem>) {
    forall i, k :: 0 <= i < |items| && 0 <= k < |items[i].delivered| ==>
      items[i].delivered[k].delivered >= 0
      && (items[i].delivered[k].delivered > 0 ==> items[i].delivered[k].user in users)
  }

  /** The members' values add up to at most the denominator, and to exactly it when everything was delivered. */
  lemma {:induction false} NumsAddUp(items: seq<PayoutItem>, users: seq<string>)
    requires Ascending(users) && Lists(users, items)
    requires forall i :: 0 <= i < |items| ==> SumDelivered(items[i].delivered) <= items[i].required
    ensures SumNums(items, users) <= Den(items)
    ensures (forall i :: 0 <= i < |items| ==> SumDelivered(items[i].delivered) == items[i].required)
            ==> SumNums(items, users) == Den(items)
  {
    if items == [] {
      NoNums(users);
    } else {
      var n := |items| - 1;
      var last := items[n];
      assert Lists(users, items[..n]) by {
        forall i, k | 0 <= i < n && 0 <= k < |items[..n][i].delivered|
          ensures items[i].delivered[k].delivered >= 0
          ensures items[i].delivered[k].delivered > 0 ==> items[i].delivered[k].user in users {}
      }
      NumsAddUp(items[..n], users);
      NumsSplit(items, users);
      TakenAddsUp(last.delivered, users);
      if last.unit > 0 { MulMonotone(SumDelivered(last.delivered), last.required, last.unit); }
    }
  }

  lemma {:induction false} TakenIsNet(rows: seq<Participant>, user: string)
    requires forall k :: 0 <= k < |rows| ==> rows[k].delivered >= 0
    ensures NetTaken(rows, user) == Taken(rows, user)
    ensures NetTaken(rows, user) > 0 <==> exists k :: 0 <= k < |rows| && rows[k].user == user && rows[k].delivered > 0
  {
    if rows != [] {
      var n := |rows| - 1;
      TakenIsNet(rows[..n], user);
      if k :| 0 <= k < n && rows[..n][k].user == user && rows[..n][k].delivered > 0 {
        assert rows[k].user == user;
      }
    }
  }

  lemma {:induction false} QtyFindsDeliverers(items: seq<PayoutItem>, i: nat, k: nat)
    requires i < |items| && k < |items[i].delivered| && items[i].delivered[k].delivered > 0
    requires forall i, k :: 0 <= i < |items| && 0 <= k < |items[i].delivered| ==> items[i].delivered[k].delivered >= 0
    ensures Qty(items, items[i].delivered[k].user) > 0
  {
    var n := |items| - 1;
    var user := items[i].delivered[k].user;
    TakenIsNet(items[n].delivered, user);
    QtyNonNegative(items[..n], user);
    if i < n { QtyFindsDeliverers(items[..n], i, k); }
  }

  lemma {:induction false} QtyNonNegative(items: seq<PayoutItem>, user: string)
    requires forall i, k :: 0 <= i < |items| && 0 <= k < |items[i].delivered| ==> items[i].delivered[k].delivered >= 0
    ensures Qty(items, user) >= 0
  {
    if items != [] {
      TakenIsNet(items[|items| - 1].delivered, user);
      QtyNonNegative(items[..|items| - 1], user);
    }
  }

  /** Deliveries as the ledger guarantees them: no negative row, never more than required. */
  predicate Delivered(items: seq<PayoutItem>) {
    && (forall i, k :: 0 <= i < |items| && 0 <= k < |items[i].delivered| ==> items[i].delivered[k].delivered >= 0)
    && (forall i :: 0 <= i < |items| ==> SumDelivered(items[i].delivered) <= items[i].required)
  }

  predicate InFull(items: seq<PayoutItem>) {
    forall i :: 0 <= i < |items| ==> SumDelivered(items[i].delivered) == items[i].required
  }

  lemma {:induction false} ZeroAmounts(items: seq<PayoutItem>, pool: nat, users: seq<string>)
    requires Den(items) <= 0
    ensures SumAmounts(RowsFor(items, pool, users)) == 0
  {
    if users != [] {
      assert RowsFor(items, pool, users)[..|users| - 1] == RowsFor(items, pool, users[..|users| - 1]);
      ZeroAmounts(items, pool, users[..|users| - 1]);
    }
  }

  /** The deliverers' values sum to at most the value required, and to all of it when everything was delivered. */
  lemma DeliverersAddUp(items: seq<PayoutItem>, users: seq<string>)
    requires AreDeliverers(users, items) && Delivered(items)
    ensures SumNums(items, users) <= Den(items)
    ensures InFull(items) ==> SumNums(items, users) == Den(items)
  {
    forall i, k | 0 <= i < |items| && 0 <= k < |items[i].delivered| && items[i].delivered[k].delivered > 0
      ensures items[i].delivered[k].user in users
    {
      QtyFindsDeliverers(items, i, k);
    }
    NumsAddUp(items, users);
  }

  /**
   * Conservation. The amounts never exceed the pool; when everything required was delivered and some item is
   * priced, at most n - 1 units are left over among n deliverers; with no priced item nothing is paid.
   */
  lemma PoolIsConserved(res: PayoutResult, credits: nat, factor: nat, items: seq<PayoutItem>, decimals: nat)
    requires IsSplit(res, credits, factor, items, decimals) && Delivered(items)
    ensures res.remainder == res.pool - SumAmounts(res.shares) >= 0
    ensures Den(items) > 0 && InFull(items) ==> |res.shares| > 0 && res.remainder <= |res.shares| - 1
    ensures Den(items) <= 0 ==> res.remainder == res.pool
                                && forall k :: 0 <= k < |res.shares| ==> res.shares[k].amount == 0
  {
    var pool := Pool(credits, factor, decimals);
    var users :| AreDeliverers(users, items) && res.shares == RowsFor(items, pool, users);
    if Den(items) <= 0 {
      ZeroAmounts(items, pool, users);
    } else {
      PricedSplitIsConserved(items, pool, users);
    }
  }

  lemma PricedSplitIsConserved(items: seq<PayoutItem>, pool: nat, users: seq<string>)
    requires AreDeliverers(users, items) && Delivered(items) && Den(items) > 0
    ensures SumAmounts(RowsFor(items, pool, users)) <= pool
    ensures InFull(items) ==> |users| > 0 && pool - SumAmounts(RowsFor(items, pool, users)) <= |users| - 1
  {
    DeliverersAddUp(items, users);
    FloorsLoseLittle(items, pool, users);
    if |users| == 0 { assert SumNums(items, users) == 0; }
    hide Delivered, InFull, AreDeliverers, SumNums;
    RemainderBound(pool, SumAmounts(RowsFor(items, pool, users)), Den(items), SumNums(items, users), |users|);
  }

  // ---- The figures later renders recover ----

  datatype Figures = Figures(pool: int, remainder: int, zeroValue: bool)

  function FiguresOf(credits: Option<nat>, factor: nat, rows: seq<Payout>, decimals: nat): Figures {
    var pool := match credits case None => 0 case Some(c) => Pool(c, factor, decimals);
    Figures(pool, pool - SumAmounts(rows), pool > 0 && forall k :: 0 <= k < |rows| ==> rows[k].share <= 0)
  }

  method PayoutFigures(credits: Option<nat>, factor: nat, rows: seq<Payout>, decimals: nat) returns (f: Figures)
    ensures f == FiguresOf(credits, factor, rows, decimals)
    ensures if credits.Some? then IsPool(f.pool, credits.value, factor, decimals) else f.pool == 0
    ensures f.remainder == f.pool - SumAmounts(rows)
    ensures f.zeroValue <==> f.pool > 0 && forall k :: 0 <= k < |rows| ==> rows[k].share <= 0
  {
    hide Pool, IsPool;
    var pool := 0;
    if credits.Some? {
      PoolIsTheRewardsPart(credits.value, factor, decimals);
      pool := Pool(credits.value, factor, decimals);
    }
    var distributed := 0;
    var zeroValue := pool > 0;
    for k := 0 to |rows|
      invariant distributed == SumAmounts(rows[..k])
      invariant zeroValue == (pool > 0 && forall j :: 0 <= j < k ==> rows[j].share <= 0)
    {
      assert rows[..k + 1][..k] == rows[..k];
      distributed := distributed + rows[k].amount;
      if rows[k].share > 0 { zeroValue := false; }
    }
    assert rows[..|rows|] == rows;
    f := Figures(pool, pool - distributed, zeroValue);
  }

  /** Nothing to weigh shares by: a positive pool and no priced item. */
  ghost predicate NothingToWeighBy(res: PayoutResult) { res.pool > 0 && res.zeroValue }

  lemma SharePositive(num: nat, den: int)
    requires den > 0
    ensures Share(num, den) > 0 <==> 2 * num * 100000000 >= den
  {
    var x := 2 * num * 100000000 + den;
    if 2 * num * 100000000 >= den {
      DivAtLeast(x, 1, 2 * den);
    } else {
      assert x < 2 * den;
      assert x / (2 * den) == 0;
    }
  }

  /** The largest deliverer's percentage is too small to show at six decimals. */
  ghost predicate SharesVanish(items: seq<PayoutItem>) {
    Den(items) > 0 && forall u :: Qty(items, u) > 0 ==> 2 * Num(items, u) * 100000000 < Den(items)
  }

  /**
   * Recovery is exact for the pool and the remainder. The recovered flag is right if and only if it is not the
   * case that the pool is positive, something is priced, and every deliverer's share vanishes.
   */
  lemma FiguresRecover(res: PayoutResult, credits: nat, factor: nat, items: seq<PayoutItem>, decimals: nat)
    requires IsSplit(res, credits, factor, items, decimals)
    ensures var f := FiguresOf(Some(credits), factor, res.shares, decimals);
      && f.pool == res.pool
      && f.remainder == res.remainder
      && (f.zeroValue == NothingToWeighBy(res) <==> !(res.pool > 0 && SharesVanish(items)))
  {
    var pool := Pool(credits, factor, decimals);
    var users :| AreDeliverers(users, items) && res.shares == RowsFor(items, pool, users);
    if Den(items) > 0 {
      forall k | 0 <= k < |users|
        ensures res.shares[k].share > 0 <==> 2 * Num(items, users[k]) * 100000000 >= Den(items)
      {
        SharePositive(Num(items, users[k]), Den(items));
      }
      if SharesVanish(items) {
        assert forall k :: 0 <= k < |users| ==> users[k] in users;
      } else {
        var u :| Qty(items, u) > 0 && 2 * Num(items, u) * 100000000 >= Den(items);
        var k :| 0 <= k < |users| && users[k] == u;
        assert res.shares[k].share > 0;
      }
    }
  }

  /** Among n members whose values sum to the denominator one has at least an n-th of it. */
  lemma {:induction false} SomeoneHasTheirPart(items: seq<PayoutItem>, users: seq<string>, bound: int)
    requires forall k :: 0 <= k < |users| ==> 2 * Num(items, users[k]) * 100000000 <= bound
    ensures 2 * SumNums(items, users) * 100000000 <= |users| * bound
  {
    if users != [] {
      SomeoneHasTheirPart(items, users[..|users| - 1], bound);
      assert |users| * bound == (|users| - 1) * bound + bound;
    }
  }

  /** With everything delivered and at most 200,000,000 deliverers no split has vanishing shares. */
  lemma SharesShowForAnyRealCrowd(res: PayoutResult, credits: nat, factor: nat, items: seq<PayoutItem>, decimals: nat)
    requires IsSplit(res, credits, factor, items, decimals) && Delivered(items) && InFull(items)
    requires |res.shares| <= 200000000
    ensures FiguresOf(Some(credits), factor, res.shares, decimals)
            == Figures(res.pool, res.remainder, NothingToWeighBy(res))
  {
    FiguresRecover(res, credits, factor, items, decimals);
    var pool := Pool(credits, factor, decimals);
    var users :| AreDeliverers(users, items) && res.shares == RowsFor(items, pool, users);
    DeliverersAddUp(items, users);
    if SharesVanish(items) {
      VanishingSharesNeedACrowd(items, users);
      assert false;
    }
  }

  lemma VanishingSharesNeedACrowd(items: seq<PayoutItem>, users: seq<string>)
    requires AreDeliverers(users, items) && SharesVanish(items) && SumNums(items, users) == Den(items)
    ensures |users| > 200000000
  {
    forall k | 0 <= k < |users| ensures 2 * Num(items, users[k]) * 100000000 <= Den(items) - 1 {
      assert users[k] in users;
    }
    SomeoneHasTheirPart(items, users, Den(items) - 1);
    MoreThanBound(|users|, Den(items));
  }

  lemma MoreThanBound(n: nat, den: int)
    requires den > 0 && 200000000 * den <= n * (den - 1)
    ensures n > 200000000
  {
    assert n * (den - 1) == den * n - n;
    if n <= 200000000 {
      MulMonotone(n, 200000000, den);
    }
  }

  // ---- Both bounds are sharp ----

  /** Member number i of a crowd. */
  function Member(i: nat): string { seq(i, _ => 'm') }

  function CrowdRows(n: nat): (r: seq<Participant>)
    ensures |r| == n
  {
    seq(n, i requires 0 <= i < n => Participant(Member(i), 1, 1))
  }

  /** One priced item of which each of n members delivered one unit. */
  function Crowd(n: nat): seq<PayoutItem> { [PayoutItem("item", 1, n, CrowdRows(n))] }

  lemma {:induction false} CrowdSums(n: nat, user: string)
    ensures Taken(CrowdRows(n), user) == NetTaken(CrowdRows(n), user)
            == if |user| < n && user == Member(|user|) then 1 else 0
    ensures SumDelivered(CrowdRows(n)) == n
  {
    var rows := CrowdRows(n);
    if n > 0 {
      assert rows[..n - 1] == CrowdRows(n - 1);
      CrowdSums(n - 1, user);
      assert rows == CrowdRows(n - 1) + [rows[n - 1]];
      SumsAppend(CrowdRows(n - 1), rows[n - 1]);
      assert |Member(n - 1)| == n - 1;
    }
  }

  lemma CrowdValues(n: nat, user: string)
    ensures Den(Crowd(n)) == n
    ensures Num(Crowd(n), user) == Qty(Crowd(n), user) == if |user| < n && user == Member(|user|) then 1 else 0
  {
    CrowdSums(n, user);
    assert Crowd(n)[..0] == [];
  }

  lemma {:induction false} EqualAmounts(rows: seq<Payout>, each: nat)
    requires forall k :: 0 <= k < |rows| ==> rows[k].amount == each
    ensures SumAmounts(rows) == |rows| * each
  {
    if rows != [] {
      EqualAmounts(rows[..|rows| - 1], each);
      assert |rows| * each == (|rows| - 1) * each + each;
    }
  }

  lemma {:induction false} SumTakenOfCrowd(n: nat, users: seq<string>)
    requires forall k :: 0 <= k < |users| ==> Qty(Crowd(n), users[k]) > 0
    ensures SumNums(Crowd(n), users) == |users|
  {
    if users != [] {
      SumTakenOfCrowd(n, users[..|users| - 1]);
      CrowdValues(n, users[|users| - 1]);
    }
  }

  lemma CrowdIsListed(users: seq<string>, n: nat)
    requires AreDeliverers(users, Crowd(n))
    ensures Lists(users, Crowd(n))
  {
    forall k | 0 <= k < n ensures CrowdRows(n)[k].user in users {
      CrowdValues(n, Member(k));
      assert |Member(k)| == k;
    }
  }

  lemma CrowdShares(users: seq<string>, n: nat, pool: nat, k: nat)
    requires AreDeliverers(users, Crowd(n)) && k < |users| && n > 0
    ensures RowFor(Crowd(n), pool, users[k]).amount == pool / n
  {
    assert users[k] in users;
    CrowdValues(n, users[k]);
  }

  lemma CrowdSize(users: seq<string>, n: nat)
    requires AreDeliverers(users, Crowd(n))
    ensures |users| == n
  {
    CrowdIsListed(users, n);
    CrowdSums(n, "");
    CrowdValues(n, "");
    forall k | 0 <= k < |users| ensures Qty(Crowd(n), users[k]) > 0 { assert users[k] in users; }
    SumTakenOfCrowd(n, users);
    NumsAddUp(Crowd(n), users);
    hide Qty, Num, AreDeliverers, Lists;
  }

  lemma CrowdDelivers(n: nat)
    ensures Delivered(Crowd(n)) && InFull(Crowd(n)) && Den(Crowd(n)) == n
  {
    CrowdSums(n, "");
    CrowdValues(n, "");
  }

  /** Every crowd splits among exactly its n members. */
  lemma CrowdSplit(res: PayoutResult, credits: nat, factor: nat, n: nat, decimals: nat)
    requires IsSplit(res, credits, factor, Crowd(n), decimals) && n > 0
    ensures |res.shares| == n && res.pool == Pool(credits, factor, decimals)
    ensures res.remainder == res.pool - n * (res.pool / n)
  {
    var items, pool := Crowd(n), Pool(credits, factor, decimals);
    var users :| AreDeliverers(users, items) && res.shares == RowsFor(items, pool, users)
                 && res.remainder == pool - SumAmounts(res.shares);
    hide AreDeliverers, RowFor;
    CrowdSize(users, n);
    forall k | 0 <= k < n ensures res.shares[k].amount == pool / n { CrowdShares(users, n, pool, k); }
    EqualAmounts(res.shares, pool / n);
  }

  /**
   * The remainder bound is attained: for every n there is a split in full of something priced, among n members,
   * that leaves n - 1 units.
   */
  lemma RemainderBoundIsAttained(n: nat) returns (res: PayoutResult)
    requires n > 0
    ensures IsSplit(res, (n - 1) * 100, 10000, Crowd(n), 0)
    ensures Delivered(Crowd(n)) && InFull(Crowd(n)) && Den(Crowd(n)) > 0
    ensures |res.shares| == n && res.remainder == n - 1
  {
    res := SplitExists((n - 1) * 100, 10000, Crowd(n), 0);
    CrowdSplit(res, (n - 1) * 100, 10000, n, 0);
    CrowdDelivers(n);
    CrowdPool(n);
    hide *;
  }

  lemma CrowdPool(n: nat)
    requires n > 0
    ensures Pool((n - 1) * 100, 10000, 0) == n - 1
    ensures n * ((n - 1) / n) == 0
  {
    assert Pow10(0) == 1;
    assert (n - 1) * 100 * 10000 == (n - 1) * 1000000;
  }

  /** Among n equal deliverers the recovered flag goes wrong exactly beyond 200,000,000 of them. */
  lemma FlagFailsBeyondTheCrowd(res: PayoutResult, credits: nat, factor: nat, n: nat, decimals: nat)
    requires n > 0 && IsSplit(res, credits, factor, Crowd(n), decimals) && res.pool > 0
    ensures FiguresOf(Some(credits), factor, res.shares, decimals).zeroValue != NothingToWeighBy(res)
            <==> n > 200000000
  {
    FiguresRecover(res, credits, factor, Crowd(n), decimals);
    CrowdValues(n, Member(0));
    forall u | Qty(Crowd(n), u) > 0 ensures Num(Crowd(n), u) == 1 { CrowdValues(n, u); }
    assert |Member(0)| == 0;
    if n <= 200000000 { assert !(2 * Num(Crowd(n), Member(0)) * 100000000 < Den(Crowd(n))); }
  }

  // ---- The split of a ledger contract ----

  /** Each item with its catalog price; an item without a catalog id or without a price is worth zero. */
  function PayoutItems(items: seq<Item>, prices: map<string, nat>): (r: seq<PayoutItem>)
    ensures |r| == |items|
  {
    seq(|items|, k requires 0 <= k < |items| =>
      var it := items[k];
      PayoutItem(it.name, if it.gdid != "" && it.gdid in prices then prices[it.gdid] else 0, it.required, it.rows))
  }

  lemma LedgerDelivers(c: Contract, prices: map<string, nat>)
    requires Sound(c)
    ensures Delivered(PayoutItems(c.items, prices))
    ensures c.status == Completed ==> InFull(PayoutItems(c.items, prices))
  {
    var items := PayoutItems(c.items, prices);
    forall k | 0 <= k < |items| ensures SumDelivered(items[k].delivered) <= items[k].required {
      SumsOrdered(c.items[k].rows);
    }
    forall i, k | 0 <= i < |items| && 0 <= k < |items[i].delivered| ensures items[i].delivered[k].delivered >= 0 {
      assert ItemOk(c.items[i]);
    }
  }

  /** A completed contract has a deliverer, so the task's empty-report branch is dead. */
  lemma CompletedHasDeliverers(c: Contract, res: PayoutResult, credits: nat, prices: map<string, nat>, decimals: nat)
    requires Sound(c) && c.status == Completed
    requires IsSplit(res, credits, c.factor, PayoutItems(c.items, prices), decimals)
    ensures |res.shares| > 0
  {
    var items := PayoutItems(c.items, prices);
    LedgerDelivers(c, prices);
    assert SumDelivered(c.items[0].rows) == c.items[0].required > 0;
    var k := SomeRowDelivered(c.items[0].rows);
    assert items[0].delivered[k].delivered > 0;
    QtyFindsDeliverers(items, 0, k);
    RowsAreTheDeliverers(res, credits, c.factor, items, decimals);
  }

  lemma {:induction false} SomeRowDelivered(rows: seq<Participant>) returns (k: nat)
    requires SumDelivered(rows) > 0
    ensures k < |rows| && rows[k].delivered > 0
  {
    if rows[0].delivered > 0 {
      k := 0;
    } else {
      k := SomeRowDelivered(rows[1..]);
      k := k + 1;
    }
  }

  /** The conservation bound for a contract the ledger completed. */
  lemma CompletedContractSplit(c: Contract, res: PayoutResult, credits: nat, prices: map<string, nat>, decimals: nat)
    requires Sound(c) && c.status == Completed
    requires IsSplit(res, credits, c.factor, PayoutItems(c.items, prices), decimals)
    ensures 0 <= res.remainder <= if res.zeroValue then res.pool else |res.shares| - 1
    ensures res.remainder == res.pool - SumAmounts(res.shares)
  {
    LedgerDelivers(c, prices);
    PoolIsConserved(res, credits, c.factor, PayoutItems(c.items, prices), decimals);
  }

  /**
   * What a member's deliveries on a contract are worth: item by item the catalog price times what their cell says
   * they delivered; and the whole, the price times the requirement. Items without a price count nothing.
   */
  lemma ValueIsPriceTimesDelivered(items: seq<Item>, prices: map<string, nat>, k: nat, user: string)
    requires k < |items| && RowsOk(items[k].rows)
    ensures var it, all, rest := items[k], PayoutItems(items, prices), PayoutItems(Drop(items, k), prices);
      var price := if it.gdid != "" && it.gdid in prices then prices[it.gdid] else 0;
      var cell := CellOf(it.rows, user);
      && Num(all, user) == Num(rest, user) + price * (if cell.Some? then cell.value.delivered else 0)
      && Den(all) == Den(rest) + price * it.required
  {
    var all := PayoutItems(items, prices);
    assert PayoutItems(Drop(items, k), prices) == Drop(all, k);
    TotalsDrop(all, k, user);
    OneItem(all[k], user);
    TakenIsTheCell(items[k].rows, user);
    hide Num, Den, Taken, CellOf, RowsOk;
  }

  lemma OneItem(it: PayoutItem, user: string)
    ensures Num([it], user) == if it.unit > 0 then it.unit * Taken(it.delivered, user) else 0
    ensures Den([it]) == if it.unit > 0 then it.unit * it.required else 0
  {
    assert [it][..0] == [];
  }

  lemma {:induction false} DenIsPositive(items: seq<PayoutItem>)
    requires forall k :: 0 <= k < |items| ==> items[k].required > 0
    ensures Den(items) >= 0
    ensures Den(items) > 0 <==> exists k :: 0 <= k < |items| && items[k].unit > 0
  {
    if items != [] {
      var n := |items| - 1;
      DenIsPositive(items[..n]);
      if items[n].unit > 0 { SameSign(1, items[n].unit * items[n].required); }
      assert forall k :: 0 <= k < n ==> items[..n][k] == items[k];
    }
  }

  /** A split of a contract is flagged as worthless exactly when the catalog has a price for none of its items. */
  lemma WorthlessExactly(c: Contract, res: PayoutResult, credits: nat, prices: map<string, nat>, decimals: nat)
    requires Sound(c) && IsSplit(res, credits, c.factor, PayoutItems(c.items, prices), decimals)
    ensures res.zeroValue
            <==> forall k :: 0 <= k < |c.items| && c.items[k].gdid != "" && c.items[k].gdid in prices
                   ==> prices[c.items[k].gdid] == 0
  {
    var items := PayoutItems(c.items, prices);
    forall k | 0 <= k < |items| ensures items[k].required > 0 { assert ItemOk(c.items[k]); }
    DenIsPositive(items);
    if k :| 0 <= k < |c.items| && c.items[k].gdid != "" && c.items[k].gdid in prices && prices[c.items[k].gdid] != 0 {
      assert items[k].unit > 0;
    }
  }
}
