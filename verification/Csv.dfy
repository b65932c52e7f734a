/** The payout spreadsheet: the CSV writer, and a reader that follows section 2 of RFC 4180. */
module Csv {
  import opened Prelude
  import opened Contracts
  import opened Numbers

  // ---- The writer ----

  /** Every quote doubled. */
  function Doubled(f: string): string {
    if f == "" then "" else (if f[0] == '"' then "\"\"" else [f[0]]) + Doubled(f[1..])
  }

  function Quoted(f: string): string { "\"" + Doubled(f) + "\"" }

  function Cells(fields: seq<string>): string {
    if fields == [] then ""
    else Cells(fields[..|fields| - 1]) + (if |fields| > 1 then "," else "") + Quoted(fields[|fields| - 1])
  }

  const CRLF := "\r\n"

  function RowText(fields: seq<string>): string { Cells(fields) + CRLF }

  function Text(rows: seq<seq<string>>): string {
    if rows == [] then "" else RowText(rows[0]) + Text(rows[1..])
  }

  class Buffer {
    var text: string

    constructor ()
      ensures text == ""
    {
      text := "";
    }

    method Write(s: string)
      modifies this
      ensures text == old(text) + s
    {
      text := text + s;
    }

    /** One record: every field quoted, separated by commas, ended by CRLF. */
    method WriteCSVRow(fields: seq<string>)
      modifies this
      ensures text == old(text) + RowText(fields)
    {
      hide Doubled;
      for i := 0 to |fields|
        invariant text == old(text) + Cells(fields[..i])
      {
        CellsGrow(fields, i);
        if i > 0 { Write(","); }
        Write("\"");
        Write(Doubled(fields[i]));
        Write("\"");
      }
      assert fields[..|fields|] == fields;
      Write("\r\n");
    }
  }

  lemma CellsGrow(fields: seq<string>, i: nat)
    requires i < |fields|
    ensures Cells(fields[..i + 1])
            == Cells(fields[..i]) + (if i > 0 then "," else "") + ("\"" + Doubled(fields[i]) + "\"")
  {
    assert fields[..i + 1][..i] == fields[..i];
  }

  // ---- The reader ----

  datatype Parsed<T> = Parsed(value: T, rest: string)

  /** What may stand in a field without quotes. */
  predicate IsPlain(c: char) { c != '"' && c != ',' && c != '\r' && c != '\n' }

  function ReadPlain(s: string): (r: Parsed<string>)
    ensures |r.rest| <= |s|
  {
    if s == "" || !IsPlain(s[0]) then Parsed("", s)
    else
      var r := ReadPlain(s[1..]);
      Parsed([s[0]] + r.value, r.rest)
  }

  /** The inside of a quoted field, up to and past its closing quote. */
  function ReadQuoted(s: string): (r: Option<Parsed<string>>)
    ensures r.Some? ==> |r.value.rest| < |s|
  {
    if s == "" then None
    else if s[0] != '"' then Prefixed(s[0], ReadQuoted(s[1..]))
    else if |s| > 1 && s[1] == '"' then Prefixed('"', ReadQuoted(s[2..]))
    else Some(Parsed("", s[1..]))
  }

  function Prefixed(c: char, r: Option<Parsed<string>>): Option<Parsed<string>> {
    match r case None => None case Some(p) => Some(Parsed([c] + p.value, p.rest))
  }

  function ReadField(s: string): (r: Option<Parsed<string>>)
    ensures r.Some? ==> |r.value.rest| <= |s|
  {
    if s != "" && s[0] == '"' then ReadQuoted(s[1..]) else Some(ReadPlain(s))
  }

  /** One or more fields, up to and past the line break or the end of the text. */
  function ReadRecord(s: string): (r: Option<Parsed<seq<string>>>)
    ensures r.Some? && s != "" ==> |r.value.rest| < |s|
    decreases |s|
  {
    match ReadField(s)
    case None => None
    case Some(f) =>
      if f.rest == "" then Some(Parsed([f.value], ""))
      else if CRLF <= f.rest then Some(Parsed([f.value], f.rest[2..]))
      else if f.rest[0] != ',' then None
      else match ReadRecord(f.rest[1..])
        case None => None
        case Some(more) => Some(Parsed([f.value] + more.value, more.rest))
  }

  /** Every record; the line break after the last one is optional, and an empty text has none. */
  function Read(s: string): Option<seq<seq<string>>>
    decreases |s|
  {
    if s == "" then Some([])
    else match ReadRecord(s)
      case None => None
      case Some(first) =>
        match Read(first.rest)
        case None => None
        case Some(more) => Some([first.value] + more)
  }

  // ---- Reading back what was written ----

  lemma {:induction false} ReadDoubled(f: string, rest: string)
    requires rest == "" || rest[0] != '"'
    ensures ReadQuoted(Doubled(f) + "\"" + rest) == Some(Parsed(f, rest))
  {
    var s := Doubled(f) + "\"" + rest;
    if f == "" {
      assert s == "\"" + rest;
    } else {
      ReadDoubled(f[1..], rest);
      assert f == [f[0]] + f[1..];
      var next := Doubled(f[1..]) + "\"" + rest;
      assert s == (if f[0] == '"' then "\"\"" else [f[0]]) + next;
      assert f[0] == '"' ==> s[2..] == next;
      assert f[0] != '"' ==> s[1..] == next;
    }
  }

  lemma ReadQuotedField(f: string, rest: string)
    requires rest == "" || rest[0] != '"'
    ensures ReadField(Quoted(f) + rest) == Some(Parsed(f, rest))
  {
    ReadDoubled(f, rest);
    assert (Quoted(f) + rest)[1..] == Doubled(f) + "\"" + rest;
  }

  /** The cells of a row, first cell first. */
  lemma {:induction false} CellsFromFront(fields: seq<string>)
    requires |fields| > 1
    ensures Cells(fields) == Quoted(fields[0]) + "," + Cells(fields[1..])
  {
    hide Quoted;
    var n := |fields| - 1;
    var last := "," + Quoted(fields[n]);
    assert fields[1..][..n - 1] == fields[..n][1..];
    assert fields[1..][n - 1] == fields[n];
    if n == 1 {
      OneCell(fields[0]);
      OneCell(fields[1]);
      assert fields[..1] == [fields[0]] && fields[1..] == [fields[1]];
    } else {
      CellsFromFront(fields[..n]);
      assert Cells(fields) == Cells(fields[..n]) + last;
      assert Cells(fields[1..]) == Cells(fields[1..][..n - 1]) + last;
      assert fields[..n][0] == fields[0];
    }
  }

  lemma OneCell(f: string)
    ensures Cells([f]) == Quoted(f)
  {
    assert Cells([f][..0]) == "";
  }

  /** A row comes back as its fields, except that a row without fields reads as one empty field. */
  lemma {:induction false} ReadRow(fields: seq<string>, rest: string)
    ensures ReadRecord(RowText(fields) + rest) == Some(Parsed(if fields == [] then [""] else fields, rest))
    decreases |fields|
  {
    var s := RowText(fields) + rest;
    if fields == [] {
      assert s == CRLF + rest && s[2..] == rest;
      assert ReadField(s) == Some(Parsed("", s));
    } else if |fields| == 1 {
      assert Cells(fields[..0]) == "";
      assert Cells(fields) == Quoted(fields[0]);
      assert s == Quoted(fields[0]) + (CRLF + rest);
      ReadQuotedField(fields[0], CRLF + rest);
      assert (CRLF + rest)[2..] == rest;
      assert fields == [fields[0]];
    } else {
      ReadRow(fields[1..], rest);
      ReadFirst(fields, rest);
    }
  }

  lemma ReadFirst(fields: seq<string>, rest: string)
    requires |fields| > 1 && ReadRecord(RowText(fields[1..]) + rest) == Some(Parsed(fields[1..], rest))
    ensures ReadRecord(RowText(fields) + rest) == Some(Parsed(fields, rest))
  {
    hide Cells, Quoted, ReadField;
    CellsFromFront(fields);
    var s, next := RowText(fields) + rest, RowText(fields[1..]) + rest;
    assert s == Quoted(fields[0]) + ("," + next);
    ReadQuotedField(fields[0], "," + next);
    assert ("," + next)[1..] == next;
    assert fields == [fields[0]] + fields[1..];
  }

  function Seen(rows: seq<seq<string>>): (r: seq<seq<string>>)
    ensures |r| == |rows|
  {
    seq(|rows|, k requires 0 <= k < |rows| => if rows[k] == [] then [""] else rows[k])
  }

  lemma RowIsText(fields: seq<string>)
    ensures RowText(fields) != ""
  {
  }

  lemma {:induction false} ReadText(rows: seq<seq<string>>)
    ensures Read(Text(rows)) == Some(Seen(rows))
  {
    hide ReadRecord, RowText;
    if rows == [] {
      assert Seen(rows) == [];
    } else {
      RowIsText(rows[0]);
      ReadRow(rows[0], Text(rows[1..]));
      ReadText(rows[1..]);
      assert Seen(rows) == [if rows[0] == [] then [""] else rows[0]] + Seen(rows[1..]);
    }
  }

  /** For any fields at all the text reads back as the rows written, if and only if every row has a field. */
  lemma RoundTrip(rows: seq<seq<string>>)
    ensures Read(Text(rows)) == Some(rows) <==> forall k :: 0 <= k < |rows| ==> rows[k] != []
  {
    ReadText(rows);
    if Seen(rows) == rows {
      forall k | 0 <= k < |rows| ensures rows[k] != [] { assert Seen(rows)[k] == rows[k]; }
    }
  }

  lemma {:induction false} TextGrows(rows: seq<seq<string>>, k: nat)
    requires k < |rows|
    ensures Text(rows[..k + 1]) == Text(rows[..k]) + RowText(rows[k])
  {
    if k == 0 {
      assert rows[..1][1..] == [];
    } else {
      assert rows[..k + 1][1..] == rows[1..][..k] && rows[..k][1..] == rows[1..][..k - 1];
      TextGrows(rows[1..], k - 1);
    }
  }

  // ---- The export ----

  /** What a member handed in on an item; later rows win, as in the map the export builds. */
  function DeliveredBy(rows: seq<Participant>, user: string): int {
    if rows == [] then 0
    else if rows[|rows| - 1].user == user then rows[|rows| - 1].delivered
    else DeliveredBy(rows[..|rows| - 1], user)
  }

  /** The column captions around the items: four in front, two behind. */
  datatype Captions = Captions(
    contract: string, title: string, participant: string, user: string, share: string, amount: string)

  function Header(captions: Captions, names: seq<string>): seq<string> {
    [captions.contract, captions.title, captions.participant, captions.user] + names + [captions.share, captions.amount]
  }

  function Quantities(items: seq<Item>, user: string): (r: seq<string>)
    ensures |r| == |items|
  {
    seq(|items|, k requires 0 <= k < |items| => IntStr(DeliveredBy(items[k].rows, user)))
  }

  function Record(id: string, c: Contract, row: Payout, decimals: nat): seq<string>
    requires row.amount >= 0 && row.share >= 0
  {
    [id, c.title, row.name, row.user] + Quantities(c.items, row.user)
    + [Fixed(row.share, 6), Fixed(row.amount, decimals)]
  }

  function Records(id: string, c: Contract, rows: seq<Payout>, decimals: nat): (r: seq<seq<string>>)
    requires Presentable(rows)
    ensures |r| == |rows|
  {
    seq(|rows|, k requires 0 <= k < |rows| => Record(id, c, rows[k], decimals))
  }

  /** The schema's checks on persisted rows: no negative amount or share. */
  predicate Presentable(rows: seq<Payout>) {
    forall k :: 0 <= k < |rows| ==> rows[k].amount >= 0 && rows[k].share >= 0
  }

  const BOM: char := '\U{FEFF}'

  /** The export behind its byte order mark: a reader gets the header and one record per payout row. */
  method PayoutCSV(id: string, c: Contract, captions: Captions, names: seq<string>, rows: seq<Payout>, decimals: nat)
    returns (text: string)
    requires |names| == |c.items| && Presentable(rows)
    ensures Exports(text, Header(captions, names), Records(id, c, rows, decimals))
  {
    var perItem := PerItem(c.items);
    var buf := new Buffer();
    buf.Write([BOM]);
    var header := WriteHeader(captions, names);
    buf.WriteCSVRow(header);
    ghost var records := Records(id, c, rows, decimals);
    WriteRecords(buf, id, c, perItem, rows, decimals, records);
    text := buf.text;
    assert "" + [BOM] == [BOM];
    ReadExport(text, header, records);
  }

  predicate Exports(text: string, header: seq<string>, records: seq<seq<string>>) {
    text != "" && text[0] == BOM && Read(text[1..]) == Some([header] + records)
  }

  lemma ReadExport(text: string, header: seq<string>, records: seq<seq<string>>)
    requires text == [BOM] + RowText(header) + Text(records)
    requires header != [] && forall k :: 0 <= k < |records| ==> records[k] != []
    ensures Exports(text, header, records)
  {
    Behind(BOM, RowText(header), Text(records));
    ReadSheet(header, records);
  }

  lemma ReadSheet(header: seq<string>, records: seq<seq<string>>)
    requires header != [] && forall k :: 0 <= k < |records| ==> records[k] != []
    ensures Read(RowText(header) + Text(records)) == Some([header] + records)
  {
    var all := [header] + records;
    assert all[1..] == records;
    RoundTrip(all);
  }

  lemma Behind(c: char, a: string, b: string)
    ensures ([c] + a + b)[0] == c && ([c] + a + b)[1..] == a + b
  {
  }

  lemma Associative(a: string, b: string, c: string)
    ensures (a + b) + c == a + (b + c)
  {
  }

  /** The header and every record have the same number of fields: one per item and six more. */
  lemma SameNumberOfFields(
      id: string, c: Contract, captions: Captions, names: seq<string>, rows: seq<Payout>, decimals: nat, k: nat)
    requires |names| == |c.items| && Presentable(rows) && k < |rows|
    ensures |Records(id, c, rows, decimals)[k]| == |Header(captions, names)| == |c.items| + 6
  {
    assert Records(id, c, rows, decimals)[k] == Record(id, c, rows[k], decimals);
  }

  ghost predicate Tallied(perItem: seq<map<string, int>>, items: seq<Item>) {
    && |perItem| == |items|
    && forall k, u :: 0 <= k < |items| ==> Qty(perItem[k], u) == DeliveredBy(items[k].rows, u)
  }

  method WriteRecords(
      buf: Buffer, id: string, c: Contract, perItem: seq<map<string, int>>, rows: seq<Payout>, decimals: nat,
      ghost records: seq<seq<string>>)
    requires Tallied(perItem, c.items) && Presentable(rows)
    requires |records| == |rows| && forall k :: 0 <= k < |rows| ==> records[k] == Record(id, c, rows[k], decimals)
    modifies buf
    ensures buf.text == old(buf.text) + Text(records)
  {
    for k := 0 to |rows|
      invariant buf.text == old(buf.text) + Text(records[..k])
    {
      WriteRecord(buf, id, c, perItem, rows[k], decimals);
      TextGrows(records, k);
      Associative(old(buf.text), Text(records[..k]), RowText(records[k]));
    }
    assert records[..|rows|] == records;
  }

  method PerItem(items: seq<Item>) returns (perItem: seq<map<string, int>>)
    ensures Tallied(perItem, items)
  {
    perItem := [];
    for i := 0 to |items|
      invariant |perItem| == i
      invariant forall k, u :: 0 <= k < i ==> Qty(perItem[k], u) == DeliveredBy(items[k].rows, u)
    {
      var m := ByUser(items[i].rows);
      perItem := perItem + [m];
    }
  }

  method WriteHeader(captions: Captions, names: seq<string>) returns (header: seq<string>)
    ensures header == Header(captions, names)
  {
    header := [captions.contract, captions.title, captions.participant, captions.user];
    for i := 0 to |names|
      invariant header == [captions.contract, captions.title, captions.participant, captions.user] + names[..i]
    {
      header := header + [names[i]];
    }
    header := header + [captions.share, captions.amount];
  }

  function Qty(m: map<string, int>, user: string): int { if user in m then m[user] else 0 }

  method ByUser(rows: seq<Participant>) returns (m: map<string, int>)
    ensures forall u :: Qty(m, u) == DeliveredBy(rows, u)
  {
    m := map[];
    for j := 0 to |rows|
      invariant forall u :: Qty(m, u) == DeliveredBy(rows[..j], u)
    {
      assert rows[..j + 1][..j] == rows[..j];
      m := m[rows[j].user := rows[j].delivered];
    }
    assert rows[..|rows|] == rows;
  }

  method WriteRecord(
      buf: Buffer, id: string, c: Contract, perItem: seq<map<string, int>>, row: Payout, decimals: nat)
    requires row.amount >= 0 && row.share >= 0 && Tallied(perItem, c.items)
    modifies buf
    ensures buf.text == old(buf.text) + RowText(Record(id, c, row, decimals))
  {
    var rec := [id, c.title, row.name, row.user];
    for i := 0 to |c.items|
      invariant rec == [id, c.title, row.name, row.user] + Quantities(c.items, row.user)[..i]
    {
      rec := rec + [IntStr(Qty(perItem[i], row.user))];
    }
    rec := rec + [Fixed(row.share, 6), Fixed(row.amount, decimals)];
    assert rec == Record(id, c, row, decimals);
    buf.WriteCSVRow(rec);
  }

  lemma RecordLayout(id: string, c: Contract, row: Payout, decimals: nat, k: nat)
    requires row.amount >= 0 && row.share >= 0 && k < |c.items|
    ensures var rec, n := Record(id, c, row, decimals), |c.items|;
      && rec[0] == id && rec[1] == c.title && rec[2] == row.name && rec[3] == row.user
      && rec[4 + k] == IntStr(DeliveredBy(c.items[k].rows, row.user))
      && rec[4 + n] == Fixed(row.share, 6) && rec[5 + n] == Fixed(row.amount, decimals)
  {
    Columns([id, c.title, row.name, row.user], Quantities(c.items, row.user),
            [Fixed(row.share, 6), Fixed(row.amount, decimals)], k);
  }

  lemma Columns(front: seq<string>, middle: seq<string>, back: seq<string>, k: nat)
    requires |front| == 4 && |back| == 2 && k < |middle|
    ensures var all := front + middle + back;
      && all[..4] == front && all[..4][0] == all[0] && all[..4][1] == all[1] && all[..4][2] == all[2]
      && all[..4][3] == all[3] && all[4 + k] == middle[k]
      && all[4 + |middle|] == back[0] && all[5 + |middle|] == back[1]
  {
  }

  /** Each caption stands above its cells. */
  lemma CaptionsStandAbove(captions: Captions, names: seq<string>, k: nat)
    requires k < |names|
    ensures var header, n := Header(captions, names), |names|;
      && header[0] == captions.contract && header[1] == captions.title && header[2] == captions.participant
      && header[3] == captions.user && header[4 + k] == names[k]
      && header[4 + n] == captions.share && header[5 + n] == captions.amount
  {
    Columns([captions.contract, captions.title, captions.participant, captions.user], names,
            [captions.share, captions.amount], k);
  }

  /** The export counts a member's own row: with a row a member, what that row delivered, and else nothing. */
  lemma {:induction false} OwnDeliveriesCount(rows: seq<Participant>, k: nat, user: string)
    requires forall i, j :: 0 <= i < j < |rows| ==> rows[i].user != rows[j].user
    ensures k < |rows| && rows[k].user == user ==> DeliveredBy(rows, user) == rows[k].delivered
    ensures (forall j :: 0 <= j < |rows| ==> rows[j].user != user) ==> DeliveredBy(rows, user) == 0
  {
    if rows != [] && rows[|rows| - 1].user != user { OwnDeliveriesCount(rows[..|rows| - 1], k, user); }
  }

  /** Nothing is lost in the cells: from a record a reader recovers the texts, every quantity, share and amount. */
  lemma RecordRoundTrip(id: string, c: Contract, row: Payout, decimals: nat, k: nat)
    requires row.amount >= 0 && row.share >= 0 && k < |c.items|
    ensures var rec, n, quantity := Record(id, c, row, decimals), |c.items|, DeliveredBy(c.items[k].rows, row.user);
      && rec[0] == id && rec[1] == c.title && rec[2] == row.name && rec[3] == row.user
      && (quantity >= 0 ==> Units(rec[4 + k]) == quantity)
      && Units(rec[4 + n]) == row.share && Units(rec[5 + n]) == row.amount
  {
    RecordLayout(id, c, row, decimals, k);
    IntStrRoundTrip(DeliveredBy(c.items[k].rows, row.user));
    FixedRoundTrip(row.share, 6);
    FixedRoundTrip(row.amount, decimals);
  }
}
