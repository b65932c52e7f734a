/** The contract, its items and the members' reservation rows, with the sums the queries take over them. */
module Contracts {
  import opened Prelude

  datatype Status = Open | Completed | Expired | Cancelled

  /** One row of contract_reservations: what a member pledged on an item and what they handed in. */
  datatype Participant = Participant(user: string, reserved: int, delivered: int) {
    function Outstanding(): int { reserved - delivered }
  }

  /** One row of contract_items with its reservation rows. `gdid` is "" for a free-text item. */
  datatype Item = Item(id: nat, name: string, gdid: string, required: int, rows: seq<Participant>) {
    /** Not yet reserved by anyone, floored at zero. */
    function Remaining(): int {
      var r := required - SumReserved(rows);
      if r < 0 then 0 else r
    }

    /** Reserved but not delivered, over all members, floored at zero. */
    function OutstandingReserved(): int {
      var r := SumReserved(rows) - SumDelivered(rows);
      if r < 0 then 0 else r
    }
  }

  /** One persisted payout row: `amount` in units of 10^-decimals, `share` in millionths of a percent. */
  datatype Payout = Payout(user: string, name: string, amount: int, share: int)

  /** The payout report's place on the reports channel. */
  datatype Report = Report(channel: nat, message: nat)

  /**
   * One contracts row with its items, reservations and payouts.
   * `credits` is in hundredths, `factor` in hundredths of a percent. `revision` stands for last_refreshed_at:
   * a logical clock that every visible mutation advances.
   */
  datatype Contract = Contract(
    server: nat, thread: Option<nat>, postVersion: nat, title: string, description: string, location: string,
    status: Status, deadline: Option<int>, notified: bool, revision: nat,
    credits: Option<nat>, factor: nat, items: seq<Item>,
    payouts: seq<Payout>, payoutDecimals: Option<nat>, posted: bool, report: Option<Report>, paidBy: Option<string>)

  function SumReserved(rows: seq<Participant>): int {
    if rows == [] then 0 else rows[0].reserved + SumReserved(rows[1..])
  }

  function SumDelivered(rows: seq<Participant>): int {
    if rows == [] then 0 else rows[0].delivered + SumDelivered(rows[1..])
  }

  /** The position of a member's row, or the number of rows when they have none. */
  function RowOf(rows: seq<Participant>, user: string): (k: nat)
    ensures k <= |rows|
    ensures k < |rows| ==> rows[k].user == user
    ensures forall j :: 0 <= j < k ==> rows[j].user != user
  {
    if rows == [] || rows[0].user == user then 0 else 1 + RowOf(rows[1..], user)
  }

  /** The position of an item by id, or the number of items. */
  function ItemById(items: seq<Item>, id: nat): (k: nat)
    ensures k <= |items|
    ensures k < |items| ==> items[k].id == id
    ensures forall j :: 0 <= j < k ==> items[j].id != id
  {
    if items == [] || items[0].id == id then 0 else 1 + ItemById(items[1..], id)
  }

  /** The position of an item by case-insensitive name, or the number of items. */
  function ItemByName(items: seq<Item>, name: string): (k: nat)
    ensures k <= |items|
    ensures k < |items| ==> Lower(items[k].name) == Lower(name)
    ensures forall j :: 0 <= j < k ==> Lower(items[j].name) != Lower(name)
  {
    if items == [] || Lower(items[0].name) == Lower(name) then 0 else 1 + ItemByName(items[1..], name)
  }

  // ---- Names ----

  function Lower(s: string): (r: string)
    ensures |r| == |s|
  {
    seq(|s|, i requires 0 <= i < |s| => if 'A' <= s[i] <= 'Z' then s[i] + 32 as char else s[i])
  }

  /** The same letter in either case, or the same character. */
  predicate SameLetter(a: char, b: char) {
    || a == b
    || ('A' <= a <= 'Z' && 'a' <= b <= 'z' && a as int - 'A' as int == b as int - 'a' as int)
    || ('a' <= a <= 'z' && 'A' <= b <= 'Z' && a as int - 'a' as int == b as int - 'A' as int)
  }

  /** Two names fold to the same one exactly when they differ in the case of letters only. */
  lemma FoldingIgnoresCase(s: string, t: string)
    ensures Lower(s) == Lower(t) <==> |s| == |t| && forall i :: 0 <= i < |s| ==> SameLetter(s[i], t[i])
  {
    if Lower(s) == Lower(t) {
      forall i | 0 <= i < |s| ensures SameLetter(s[i], t[i]) { assert Lower(s)[i] == Lower(t)[i]; }
    } else if |s| == |t| {
      var i :| 0 <= i < |s| && Lower(s)[i] != Lower(t)[i];
      assert !SameLetter(s[i], t[i]);
    }
  }

  predicate IsSpace(c: char) { c == ' ' || '\t' <= c <= '\r' }

  function Trim(s: string): string {
    if s != "" && IsSpace(s[0]) then Trim(s[1..])
    else if s != "" && IsSpace(s[|s| - 1]) then Trim(s[..|s| - 1])
    else s
  }

  predicate White(c: char) { c in {' ', '\t', '\n', '\U{000B}', '\U{000C}', '\r'} }

  predicate Blank(s: string) { forall i :: 0 <= i < |s| ==> White(s[i]) }

  /** Trimming takes white space off both ends, all of it and nothing else. */
  lemma {:induction false} TrimStrips(s: string) returns (front: string, back: string)
    ensures s == front + Trim(s) + back && Blank(front) && Blank(back)
    ensures Trim(s) != "" ==> !White(Trim(s)[0]) && !White(Trim(s)[|Trim(s)| - 1])
    decreases |s|
  {
    hide Blank;
    front, back := "", "";
    BlankGrows("", ' ');
    if s != "" && IsSpace(s[0]) {
      front, back := TrimStrips(s[1..]);
      BlankGrows(front, s[0]);
      assert s == ([s[0]] + front) + Trim(s) + back;
      front := [s[0]] + front;
    } else if s != "" && IsSpace(s[|s| - 1]) {
      front, back := TrimStrips(s[..|s| - 1]);
      BlankGrows(back, s[|s| - 1]);
      assert s == front + Trim(s) + (back + [s[|s| - 1]]);
      back := back + [s[|s| - 1]];
    }
  }

  lemma BlankGrows(s: string, c: char)
    ensures Blank("") && (Blank(s) && IsSpace(c) ==> Blank([c] + s) && Blank(s + [c]))
  {
  }

  /** The folded names the duplicate checks match against; blank names are dropped. */
  function LoweredNames(name: string, aliases: seq<string>): set<string> {
    (set n | n in [name] + aliases :: Lower(Trim(n))) - {""}
  }

  // ---- How the sums follow a change of one row ----

  lemma {:induction false} SumsAppend(rows: seq<Participant>, p: Participant)
    ensures SumReserved(rows + [p]) == SumReserved(rows) + p.reserved
    ensures SumDelivered(rows + [p]) == SumDelivered(rows) + p.delivered
  {
    if rows == [] {
      assert rows + [p] == [p];
    } else {
      assert (rows + [p])[1..] == rows[1..] + [p];
      SumsAppend(rows[1..], p);
    }
  }

  lemma {:induction false} SumsUpdate(rows: seq<Participant>, k: nat, p: Participant)
    requires k < |rows|
    ensures SumReserved(rows[k := p]) == SumReserved(rows) - rows[k].reserved + p.reserved
    ensures SumDelivered(rows[k := p]) == SumDelivered(rows) - rows[k].delivered + p.delivered
  {
    if k == 0 {
      assert rows[0 := p][1..] == rows[1..];
    } else {
      assert rows[k := p][1..] == rows[1..][k - 1 := p];
      SumsUpdate(rows[1..], k - 1, p);
    }
  }

  function Drop<T>(s: seq<T>, k: nat): (r: seq<T>)
    requires k < |s|
    ensures |r| == |s| - 1
    ensures forall j :: 0 <= j < |r| ==> r[j] == s[if j < k then j else j + 1]
  {
    s[..k] + s[k + 1..]
  }

  lemma {:induction false} SumsDrop(rows: seq<Participant>, k: nat)
    requires k < |rows|
    ensures SumReserved(Drop(rows, k)) == SumReserved(rows) - rows[k].reserved
    ensures SumDelivered(Drop(rows, k)) == SumDelivered(rows) - rows[k].delivered
  {
    if k == 0 {
      assert Drop(rows, 0) == rows[1..];
    } else {
      assert Drop(rows, k)[1..] == Drop(rows[1..], k - 1);
      SumsDrop(rows[1..], k - 1);
    }
  }

  /** Rows that each keep 0 <= delivered <= reserved keep the sums in the same order, and every row below the sum. */
  lemma {:induction false} SumsOrdered(rows: seq<Participant>)
    requires forall k :: 0 <= k < |rows| ==> 0 <= rows[k].delivered <= rows[k].reserved
    ensures 0 <= SumDelivered(rows) <= SumReserved(rows)
    ensures SumDelivered(rows) == SumReserved(rows)
            ==> forall k :: 0 <= k < |rows| ==> rows[k].delivered == rows[k].reserved
  {
    if rows != [] {
      SumsOrdered(rows[1..]);
      forall k | 0 <= k < |rows| && SumDelivered(rows) == SumReserved(rows)
        ensures rows[k].delivered == rows[k].reserved
      {
        if k > 0 { assert rows[k] == rows[1..][k - 1]; }
      }
    }
  }
}
