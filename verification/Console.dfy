/** The console's stateless navigation: the CustomID grammar and the search-query token it carries. */
module Console {
  import opened Prelude

  /** Text is handled byte by byte; a byte is a character below 256. */
  type Octet = c: char | c as int < 256

  type Bytes = seq<Octet>

  // ---- CustomIDs ----

  const PREFIX: Bytes := "contract"

  datatype CustomID = CustomID(seg: Bytes, parts: seq<Bytes>)

  predicate ColonFree(s: Bytes) { ':' !in s }

  function Join(fields: seq<Bytes>): Bytes
    requires fields != []
  {
    if |fields| == 1 then fields[0] else fields[0] + ":" + Join(fields[1..])
  }

  /** strings.Split on the colon: always at least one field. */
  function Split(s: Bytes): (fields: seq<Bytes>)
    ensures fields != [] && forall k :: 0 <= k < |fields| ==> ColonFree(fields[k])
  {
    if s == "" then [""]
    else if s[0] == ':' then [""] + Split(s[1..])
    else
      var rest := Split(s[1..]);
      [[s[0]] + rest[0]] + rest[1..]
  }

  function BuildID(id: CustomID): Bytes {
    if id.parts == [] then PREFIX + ":" + id.seg else PREFIX + ":" + id.seg + ":" + Join(id.parts)
  }

  function ParseID(s: Bytes): Option<CustomID> {
    var fields := Split(s);
    if |fields| < 2 || fields[0] != PREFIX then None else Some(CustomID(fields[1], fields[2..]))
  }

  predicate Clean(id: CustomID) { ColonFree(id.seg) && forall k :: 0 <= k < |id.parts| ==> ColonFree(id.parts[k]) }

  lemma {:induction false} SplitField(f: Bytes, rest: Bytes)
    requires ColonFree(f)
    ensures Split(f) == [f]
    ensures Split(f + ":" + rest) == [f] + Split(rest)
  {
    var s := f + ":" + rest;
    if f == "" {
      assert s[1..] == rest;
    } else {
      SplitField(f[1..], rest);
      assert s[1..] == f[1..] + ":" + rest;
      assert f == [f[0]] + f[1..];
      assert Split(s) == [[f[0]] + f[1..]] + ([f[1..]] + Split(rest))[1..];
    }
  }

  lemma {:induction false} SplitJoin(fields: seq<Bytes>)
    requires fields != [] && forall k :: 0 <= k < |fields| ==> ColonFree(fields[k])
    ensures Split(Join(fields)) == fields
  {
    if |fields| == 1 {
      SplitField(fields[0], "");
      assert fields == [fields[0]];
    } else {
      SplitJoin(fields[1..]);
      SplitField(fields[0], Join(fields[1..]));
      assert fields == [fields[0]] + fields[1..];
    }
  }

  lemma {:induction false} JoinSplit(s: Bytes)
    ensures Join(Split(s)) == s
  {
    if s != "" {
      JoinSplit(s[1..]);
      assert s == [s[0]] + s[1..];
      if s[0] == ':' { JoinEmpty(Split(s[1..])); } else { JoinLonger(s[0], Split(s[1..])); }
    }
  }

  lemma JoinEmpty(rest: seq<Bytes>)
    requires rest != []
    ensures Join([""] + rest) == ":" + Join(rest)
  {
    assert ([""] + rest)[1..] == rest;
  }

  lemma JoinLonger(c: Octet, rest: seq<Bytes>)
    requires rest != []
    ensures Join([[c] + rest[0]] + rest[1..]) == [c] + Join(rest)
  {
    var fields := [[c] + rest[0]] + rest[1..];
    assert fields[1..] == rest[1..];
    if |rest| > 1 { assert Join(fields) == ([c] + rest[0]) + ":" + Join(rest[1..]); }
  }

  /** The grammar behind an id: the prefix, the segment, then the parts. */
  function Fields(id: CustomID): seq<Bytes> { [PREFIX, id.seg] + id.parts }

  lemma BuildJoins(id: CustomID)
    ensures BuildID(id) == Join(Fields(id))
  {
    assert Fields(id)[1..] == [id.seg] + id.parts;
    assert ([id.seg] + id.parts)[1..] == id.parts;
  }

  /** Parsing undoes building, empty trailing parts included, if and only if no field holds the separator. */
  lemma ParseUndoesBuild(id: CustomID)
    ensures ParseID(BuildID(id)) == Some(id) <==> Clean(id)
  {
    BuildJoins(id);
    if Clean(id) {
      SplitJoin(Fields(id));
      assert Fields(id)[2..] == id.parts;
    }
    var fields := Split(BuildID(id));
    assert forall k :: 0 <= k < |fields| - 2 ==> fields[2..][k] == fields[k + 2];
  }

  /** Whatever parses was built from what it parses to. */
  lemma BuildUndoesParse(s: Bytes)
    requires ParseID(s).Some?
    ensures BuildID(ParseID(s).value) == s && Clean(ParseID(s).value)
  {
    var fields := Split(s);
    JoinSplit(s);
    BuildJoins(ParseID(s).value);
    assert fields == [fields[0], fields[1]] + fields[2..];
    assert forall k :: 0 <= k < |fields| - 2 ==> fields[2..][k] == fields[k + 2];
  }

  // ---- Percent-encoding (section 2.1 of RFC 3986, with '+' for a space) ----

  predicate Unreserved(c: Octet) {
    'a' <= c <= 'z' || 'A' <= c <= 'Z' || '0' <= c <= '9' || c == '-' || c == '_' || c == '.' || c == '~'
  }

  function Hex(n: nat): (c: Octet)
    requires n < 16
    ensures c != '%' && c != ':'
  {
    if n < 10 then (n + 48) as char else (n + 55) as char
  }

  function Unhex(c: Octet): (n: Option<nat>)
    ensures n.Some? ==> n.value < 16
  {
    if '0' <= c <= '9' then Some(c as int - 48)
    else if 'A' <= c <= 'F' then Some(c as int - 55)
    else if 'a' <= c <= 'f' then Some(c as int - 87)
    else None
  }

  function Unit(c: Octet): (u: Bytes)
    ensures (|u| == 1 && u[0] != '%') || (|u| == 3 && u[0] == '%' && u[1] != '%' && u[2] != '%')
    ensures ColonFree(u)
  {
    if Unreserved(c) then [c]
    else if c == ' ' then ['+']
    else ['%', Hex(c as int / 16), Hex(c as int % 16)]
  }

  function Escape(s: Bytes): Bytes {
    if s == [] then [] else Unit(s[0]) + Escape(s[1..])
  }

  /** None when a percent sign is not followed by two hex digits. */
  function Unescape(s: Bytes): Option<Bytes> {
    if s == [] then Some([])
    else if s[0] == '%' then
      if |s| < 3 || Unhex(s[1]).None? || Unhex(s[2]).None? then None
      else Prepend((16 * Unhex(s[1]).value + Unhex(s[2]).value) as char, Unescape(s[3..]))
    else Prepend(if s[0] == '+' then ' ' else s[0], Unescape(s[1..]))
  }

  function Prepend(c: Octet, r: Option<Bytes>): Option<Bytes> {
    match r case None => None case Some(t) => Some([c] + t)
  }

  lemma UnhexHex(n: nat)
    requires n < 16
    ensures Unhex(Hex(n)) == Some(n)
  {
  }

  lemma {:induction false} UnescapeEscape(s: Bytes)
    ensures Unescape(Escape(s)) == Some(s)
  {
    if s != [] {
      UnescapeEscape(s[1..]);
      UnescapeUnit(s[0], Escape(s[1..]));
      assert s == [s[0]] + s[1..];
    }
  }

  /** One escaped byte decodes to itself, whatever follows. */
  lemma UnescapeUnit(c: Octet, rest: Bytes)
    ensures Unescape(Unit(c) + rest) == Prepend(c, Unescape(rest))
  {
    var u := Unit(c);
    if |u| == 3 {
      hide Hex, Unhex, Unreserved, Prepend;
      UnhexHex(c as int / 16);
      UnhexHex(c as int % 16);
      assert (u + rest)[3..] == rest;
    } else {
      assert (u + rest)[1..] == rest;
    }
  }

  lemma {:induction false} EscapeHasNoColon(s: Bytes)
    ensures ColonFree(Escape(s))
  {
    if s != [] { EscapeHasNoColon(s[1..]); }
  }

  /** Letters, digits and the four marks that need no escape, by their codes in ASCII. */
  predicate IsPlain(c: Octet) {
    var n := c as int;
    65 <= n <= 90 || 97 <= n <= 122 || 48 <= n <= 57 || n == 45 || n == 95 || n == 46 || n == 126
  }

  lemma PlainIsUnreserved(c: Octet)
    ensures IsPlain(c) <==> Unreserved(c)
  {
  }

  /** Plain bytes stand for themselves; nothing but plain bytes, the plus and the percent sign is left of the others. */
  lemma {:induction false} EscapeAlphabet(s: Bytes)
    ensures (forall i :: 0 <= i < |s| ==> IsPlain(s[i])) ==> Escape(s) == s
    ensures forall i :: 0 <= i < |Escape(s)| ==> IsPlain(Escape(s)[i]) || Escape(s)[i] == '+' || Escape(s)[i] == '%'
  {
    hide IsPlain, Unreserved;
    if s != [] {
      EscapeAlphabet(s[1..]);
      PlainIsUnreserved(s[0]);
      UnitAlphabet(s[0]);
      assert s == [s[0]] + s[1..];
    }
  }

  lemma UnitAlphabet(c: Octet)
    ensures forall i :: 0 <= i < |Unit(c)| ==> IsPlain(Unit(c)[i]) || Unit(c)[i] == '+' || Unit(c)[i] == '%'
  {
    PlainIsUnreserved(c);
    forall n: nat | n < 16 ensures IsPlain(Hex(n)) { PlainIsUnreserved(Hex(n)); }
    hide IsPlain;
  }

  // ---- Trimming ----

  /** The white space of Unicode, as it is encoded in UTF-8: the length of the space the text starts with. */
  function LeadingSpace(s: Bytes): (n: nat)
    ensures n <= |s|
  {
    if |s| >= 1 && (s[0] == ' ' || '\t' <= s[0] <= '\r') then 1
    else if |s| >= 2 && IsSpace2(s[0], s[1]) then 2
    else if |s| >= 3 && IsSpace3(s[0], s[1], s[2]) then 3
    else 0
  }

  function TrailingSpace(s: Bytes): (n: nat)
    ensures n <= |s|
  {
    var k := |s|;
    if k >= 1 && (s[k - 1] == ' ' || '\t' <= s[k - 1] <= '\r') then 1
    else if k >= 2 && IsSpace2(s[k - 2], s[k - 1]) then 2
    else if k >= 3 && IsSpace3(s[k - 3], s[k - 2], s[k - 1]) then 3
    else 0
  }

  /** U+0085 and U+00A0. */
  predicate IsSpace2(a: Octet, b: Octet) { a as int == 0xC2 && (b as int == 0x85 || b as int == 0xA0) }

  /** U+1680, U+2000 to U+200A, U+2028, U+2029, U+202F, U+205F and U+3000. */
  predicate IsSpace3(a: Octet, b: Octet, c: Octet) {
    var x, y, z := a as int, b as int, c as int;
    || (x == 0xE1 && y == 0x9A && z == 0x80)
    || (x == 0xE2 && y == 0x80 && (0x80 <= z <= 0x8A || z == 0xA8 || z == 0xA9 || z == 0xAF))
    || (x == 0xE2 && y == 0x81 && z == 0x9F)
    || (x == 0xE3 && y == 0x80 && z == 0x80)
  }

  function TrimSpace(s: Bytes): Bytes
    decreases |s|
  {
    if LeadingSpace(s) > 0 then TrimSpace(s[LeadingSpace(s)..])
    else if TrailingSpace(s) > 0 then TrimSpace(s[..|s| - TrailingSpace(s)])
    else s
  }

  /** White space from end to end. */
  predicate Blank(s: Bytes)
    decreases |s|
  {
    s == [] || (LeadingSpace(s) > 0 && Blank(s[LeadingSpace(s)..]))
  }

  /** One space in front of a text leads it. */
  lemma SpaceLeads(space: Bytes, rest: Bytes)
    requires LeadingSpace(space) == |space| > 0
    ensures LeadingSpace(space + rest) == |space| && (space + rest)[|space|..] == rest
  {
  }

  lemma {:induction false} BlankGrows(front: Bytes, space: Bytes)
    requires Blank(front) && LeadingSpace(space) == |space| > 0
    ensures Blank(front + space) && Blank(space + front)
    decreases |front|
  {
    hide LeadingSpace;
    SpaceLeads(space, front);
    SpaceLeads(space, []);
    if front == [] {
      assert front + space == space && space + [] == space;
    } else {
      var n := LeadingSpace(front);
      LeadsAlone(front);
      SpaceLeads(front[..n], front[n..] + space);
      assert front[..n] + (front[n..] + space) == front + space;
      BlankGrows(front[n..], space);
    }
  }

  lemma LeadsAlone(s: Bytes)
    ensures LeadingSpace(s) > 0 ==> LeadingSpace(s[..LeadingSpace(s)]) == LeadingSpace(s)
    ensures TrailingSpace(s) > 0 ==> LeadingSpace(s[|s| - TrailingSpace(s)..]) == TrailingSpace(s)
  {
  }

  /** Trimming takes white space off both ends of a query, all of it and nothing else. */
  lemma {:induction false} TrimStrips(s: Bytes) returns (front: Bytes, back: Bytes)
    ensures s == front + TrimSpace(s) + back && Blank(front) && Blank(back)
    ensures LeadingSpace(TrimSpace(s)) == 0 && TrailingSpace(TrimSpace(s)) == 0
    decreases |s|
  {
    hide Blank, LeadingSpace, TrailingSpace;
    front, back := [], [];
    NothingIsBlank();
    LeadsAlone(s);
    if LeadingSpace(s) > 0 {
      var n := LeadingSpace(s);
      front, back := TrimStrips(s[n..]);
      BlankGrows(front, s[..n]);
      assert s == (s[..n] + front) + TrimSpace(s) + back;
      front := s[..n] + front;
    } else if TrailingSpace(s) > 0 {
      var n := |s| - TrailingSpace(s);
      front, back := TrimStrips(s[..n]);
      BlankGrows(back, s[n..]);
      assert s == front + TrimSpace(s) + (back + s[n..]);
      back := back + s[n..];
    }
  }

  lemma NothingIsBlank()
    ensures Blank([])
  {
  }

  // ---- The query token ----

  const QUERY_TOKEN_MAX := 48

  /** Escapes the trimmed query and cuts it to size, backing up over an escape the cut would split. */
  method EncQuery(q: Bytes) returns (token: Bytes)
    ensures IsToken(token, TrimSpace(q))
  {
    var enc := Escape(TrimSpace(q));
    if |enc| <= QUERY_TOKEN_MAX {
      WholeFits(TrimSpace(q));
      return enc;
    }
    var cut := QUERY_TOKEN_MAX;
    var i := cut - 2;
    while i < cut && i >= 0
      invariant 46 <= i <= 48 && cut == 48
      invariant forall j :: 46 <= j < i ==> enc[j] != '%'
    {
      if enc[i] == '%' {
        cut := i;
        break;
      }
      i := i + 1;
    }
    CutIsLongest(TrimSpace(q), cut);
    token := enc[..cut];
  }

  /** The escape of the longest prefix whose escape fits. */
  ghost predicate IsToken(token: Bytes, text: Bytes) { exists n: nat :: IsTokenOf(token, text, n) }

  predicate IsTokenOf(token: Bytes, text: Bytes, n: nat) {
    && n <= |text| && token == Escape(text[..n]) && |token| <= QUERY_TOKEN_MAX
    && (n < |text| ==> |Escape(text[..n + 1])| > QUERY_TOKEN_MAX)
  }

  lemma WholeFits(text: Bytes)
    requires |Escape(text)| <= QUERY_TOKEN_MAX
    ensures IsToken(Escape(text), text)
  {
    assert text[..|text|] == text;
    assert IsTokenOf(Escape(text), text, |text|);
  }

  lemma {:induction false} EscapeGrows(s: Bytes, n: nat)
    requires n < |s|
    ensures Escape(s[..n + 1]) == Escape(s[..n]) + Unit(s[n])
    ensures Escape(s[..n + 1]) <= Escape(s)
  {
    hide Unit;
    if n == 0 {
      assert s[..1][1..] == [];
    } else {
      assert s[..n + 1][1..] == s[1..][..n] && s[..n][1..] == s[1..][..n - 1];
      EscapeGrows(s[1..], n - 1);
    }
  }

  lemma {:induction false} EscapeIsMonotone(s: Bytes, m: nat, n: nat)
    requires m <= n <= |s|
    ensures |Escape(s[..m])| <= |Escape(s[..n])|
  {
    if m < n {
      EscapeIsMonotone(s, m, n - 1);
      EscapeGrows(s, n - 1);
    }
  }

  lemma CutIsLongest(text: Bytes, cut: nat)
    requires QUERY_TOKEN_MAX < |Escape(text)| && 46 <= cut <= 48
    requires if cut < 48 then Escape(text)[cut] == '%' else Escape(text)[46] != '%' && Escape(text)[47] != '%'
    ensures IsToken(Escape(text)[..cut], text)
  {
    hide Unit, Hex, Unreserved;
    CutIsClean(text, cut);
    var n :| 0 <= n <= |text| && Escape(text)[..cut] == Escape(text[..n]);
    assert text[..|text|] == text;
    assert n < |text|;
    EscapeGrows(text, n);
    assert Escape(text)[cut] == Escape(text[..n + 1])[cut] == Unit(text[n])[0];
    assert IsTokenOf(Escape(text)[..cut], text, n);
  }

  /** A cut in front of an escape, or with no percent sign in the two bytes before it. */
  predicate CleanCut(t: Bytes, cut: nat) {
    && cut <= |t|
    && (cut == |t| || t[cut] != '%' ==> forall i :: cut - 2 <= i < cut && 0 <= i ==> t[i] != '%')
  }

  /** Such a cut splits no escape. */
  lemma {:induction false} CutIsClean(s: Bytes, cut: nat)
    requires CleanCut(Escape(s), cut)
    ensures exists n | 0 <= n <= |s| :: Escape(s)[..cut] == Escape(s[..n])
  {
    hide Unit, CleanCut;
    if cut == 0 {
      assert Escape(s)[..0] == Escape(s[..0]);
    } else {
      CutInside(Escape(s), cut);
      var u, rest := Unit(s[0]), Escape(s[1..]);
      CutMoves(u, rest, cut);
      CutIsClean(s[1..], cut - |u|);
      var n :| 0 <= n <= |s[1..]| && rest[..cut - |u|] == Escape(s[1..][..n]);
      assert s[..n + 1][1..] == s[1..][..n];
      assert Escape(s)[..cut] == Escape(s[..n + 1]);
    }
  }

  lemma CutInside(t: Bytes, cut: nat)
    requires CleanCut(t, cut)
    ensures cut <= |t|
  {
  }

  /** A clean cut behind an escaped byte is a clean cut of what follows it. */
  lemma CutMoves(u: Bytes, rest: Bytes, cut: nat)
    requires CleanCut(u + rest, cut) && cut > 0
    requires (|u| == 1 && u[0] != '%') || (|u| == 3 && u[0] == '%' && u[1] != '%' && u[2] != '%')
    ensures |u| <= cut <= |u| + |rest| && CleanCut(rest, cut - |u|)
    ensures (u + rest)[..cut] == u + rest[..cut - |u|]
  {
    var t := u + rest;
    assert forall i :: 0 <= i < |rest| ==> rest[i] == t[i + |u|];
    assert forall i :: 0 <= i < |u| ==> t[i] == u[i];
  }

  /** The decoded token at a position; empty when absent or corrupt. */
  function ArgQuery(parts: seq<Bytes>, idx: nat): Bytes {
    if idx >= |parts| then []
    else match Unescape(parts[idx])
      case None => []
      case Some(q) => q
  }

  lemma TokenDecodes(token: Bytes, text: Bytes)
    requires IsToken(token, text)
    ensures |token| <= QUERY_TOKEN_MAX && ColonFree(token)
    ensures Unescape(token).Some? && Unescape(token).value <= text
    ensures |Escape(text)| <= QUERY_TOKEN_MAX ==> Unescape(token).value == text
  {
    var n: nat :| IsTokenOf(token, text, n);
    UnescapeEscape(text[..n]);
    EscapeHasNoColon(text[..n]);
    assert text[..|text|] == text;
    if n < |text| { EscapeIsMonotone(text, n + 1, |text|); }
  }

  /**
   * A query through the console: its token rides last in an id, never disturbs the parts before it, and decodes to
   * a prefix of the trimmed query, the whole of it when its escaped form fits.
   */
  lemma QueryRoundTrip(id: CustomID, q: Bytes, token: Bytes)
    requires Clean(id) && IsToken(token, TrimSpace(q))
    ensures var carrier := CustomID(id.seg, id.parts + [token]);
      && ParseID(BuildID(carrier)) == Some(carrier)
      && ArgQuery(carrier.parts, |id.parts|) <= TrimSpace(q)
      && (|Escape(TrimSpace(q))| <= QUERY_TOKEN_MAX ==> ArgQuery(carrier.parts, |id.parts|) == TrimSpace(q))
  {
    TokenDecodes(token, TrimSpace(q));
    ParseUndoesBuild(CustomID(id.seg, id.parts + [token]));
    assert (id.parts + [token])[|id.parts|] == token;
  }
}
