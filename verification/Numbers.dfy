/** Decimal rendering of whole and scaled numbers, and reading them back. */
module Numbers {

  function Digit(n: nat): (c: char)
    requires n < 10
    ensures '0' <= c <= '9'
  {
    n as char + '0'
  }

  /** strconv.Itoa on a quantity. */
  function Digits(n: nat): (s: string)
    ensures s != "" && forall k :: 0 <= k < |s| ==> '0' <= s[k] <= '9'
  {
    if n < 10 then [Digit(n)] else Digits(n / 10) + [Digit(n % 10)]
  }

  function IntStr(n: int): string { if n < 0 then "-" + Digits(-n) else Digits(n) }

  /** The last `width` digits, with leading zeros. */
  function Padded(n: nat, width: nat): (s: string)
    ensures |s| == width && forall k :: 0 <= k < |s| ==> '0' <= s[k] <= '9'
  {
    if width == 0 then "" else Padded(n / 10, width - 1) + [Digit(n % 10)]
  }

  /** Drops the last `places` digits. */
  function Whole(units: nat, places: nat): nat {
    if places == 0 then units else Whole(units / 10, places - 1)
  }

  /** A number of units of 10^-places as fixed-point text; without places there is no point. */
  function Fixed(units: nat, places: nat): string {
    if places == 0 then Digits(units) else Digits(Whole(units, places)) + "." + Padded(units, places)
  }

  /** Reads digits left to right, skipping the decimal point. */
  function Units(s: string): nat {
    if s == "" then 0
    else
      var init, c := Units(s[..|s| - 1]), s[|s| - 1];
      if '0' <= c <= '9' then 10 * init + (c - '0') as nat else init
  }

  lemma {:induction false} DigitsRoundTrip(n: nat)
    ensures Units(Digits(n)) == n
  {
    if n >= 10 {
      DigitsRoundTrip(n / 10);
      assert Digits(n)[..|Digits(n)| - 1] == Digits(n / 10);
    } else {
      assert Digits(n)[..0] == "";
    }
  }

  lemma {:induction false} UnitsAppend(s: string, n: nat, width: nat)
    requires Units(s) == Whole(n, width)
    ensures Units(s + Padded(n, width)) == n
  {
    if width == 0 {
      assert s + "" == s;
    } else {
      var t := s + Padded(n, width);
      assert t[..|t| - 1] == s + Padded(n / 10, width - 1);
      UnitsAppend(s, n / 10, width - 1);
    }
  }

  /** A rendered amount reads back as exactly its units, so equal texts mean equal amounts. */
  lemma FixedRoundTrip(units: nat, places: nat)
    ensures Units(Fixed(units, places)) == units
  {
    if places == 0 {
      DigitsRoundTrip(units);
    } else {
      var whole := Digits(Whole(units, places));
      DigitsRoundTrip(Whole(units, places));
      assert (whole + ".")[..|whole|] == whole;
      UnitsAppend(whole + ".", units, places);
    }
  }

  function Pow10(n: nat): (r: nat)
    ensures r > 0
  {
    if n == 0 then 1 else 10 * Pow10(n - 1)
  }

  lemma {:induction false} WholeAndRest(units: nat, places: nat)
    ensures Whole(units, places) == units / Pow10(places)
    ensures Units(Padded(units, places)) == units % Pow10(places)
  {
    if places > 0 {
      var tail := Padded(units, places);
      assert tail[..places - 1] == Padded(units / 10, places - 1);
      WholeAndRest(units / 10, places - 1);
      TenTimes(units, Pow10(places - 1));
    }
  }

  lemma TenTimes(n: nat, p: nat)
    requires p > 0
    ensures n / 10 / p == n / (10 * p)
    ensures 10 * (n / 10 % p) + n % 10 == n % (10 * p)
  {
    var q, r := n / 10 / p, 10 * (n / 10 % p) + n % 10;
    assert n / 10 == p * q + n / 10 % p;
    assert n == (10 * p) * q + r && 0 <= r < 10 * p;
    DivisionIsUnique(n, 10 * p, q, r);
  }

  lemma DivisionIsUnique(n: nat, d: nat, q: nat, r: nat)
    requires d > 0 && n == d * q + r && r < d
    ensures n / d == q && n % d == r
  {
    var x := n / d - q;
    assert d * x == r - n % d;
    MulAtLeast(d, x);
  }

  lemma MulAtLeast(d: int, x: int)
    requires d >= 0
    ensures x >= 1 ==> d * x >= d
    ensures x <= -1 ==> d * x <= -d
  {
    if x >= 1 { assert d * (x - 1) >= 0; }
    if x <= -1 { assert d * (-x - 1) >= 0; }
  }

  lemma Joined(a: string, b: string)
    requires forall k :: 0 <= k < |a| ==> '0' <= a[k] <= '9'
    requires forall k :: 0 <= k < |b| ==> '0' <= b[k] <= '9'
    ensures var s := a + "." + b;
      && |s| == |a| + 1 + |b| && s[|a|] == '.' && s[..|a|] == a && s[|a| + 1..] == b
      && '.' !in a && '.' !in b
  {
  }

  /** Where the point stands: in front of the last `places` digits, with the whole units before and the rest behind. */
  lemma PointStandsInPlace(units: nat, places: nat)
    ensures var s := Fixed(units, places);
      if places == 0 then '.' !in s
      else
        var point := |s| - places - 1;
        && point > 0 && s[point] == '.' && '.' !in s[..point] && '.' !in s[point + 1..]
        && Units(s[..point]) == units / Pow10(places) && Units(s[point + 1..]) == units % Pow10(places)
  {
    hide Digits, Padded, Whole, Units, Pow10;
    Joined(Digits(Whole(units, places)), Padded(units, places));
    Joined(Digits(units), "");
    WholeAndRest(units, places);
    DigitsRoundTrip(Whole(units, places));
  }

  lemma IntStrRoundTrip(n: int)
    ensures n >= 0 ==> Units(IntStr(n)) == n
    ensures n < 0 ==> IntStr(n)[0] == '-' && Units(IntStr(n)[1..]) == -n
    ensures n >= 0 ==> IntStr(n)[0] != '-'
  {
    DigitsRoundTrip(if n < 0 then -n else n);
    if n < 0 { assert IntStr(n)[1..] == Digits(-n); }
  }
}
