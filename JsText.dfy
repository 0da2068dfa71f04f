/** The JavaScript built-ins the client leans on when it turns values into text
    and text into numbers: `null`, `Number(s)`, `String(n)`, `toLocaleString()`
    (en-US grouping), `toFixed(1)`, `String.prototype.includes` and
    `String.prototype.replaceAll` with a one-character pattern.
    Numbers are modelled as integers; see README for what that leaves out. */
module JsText {

  /** A JSON/JS value that may be `null` (or a missing property). */
  datatype Nullable<+T> = Null | NonNull(value: T)

  /** The result of `Number(...)`: a finite (integer) value or `NaN`. */
  datatype JsNumber = Finite(value: int) | NaN

  predicate IsDigit(c: char) {
    '0' <= c <= '9'
  }

  predicate AllDigits(s: string) {
    forall i :: 0 <= i < |s| ==> IsDigit(s[i])
  }

  function DigitChar(d: nat): (c: char)
    requires d < 10
    ensures IsDigit(c) && c as int - '0' as int == d
  {
    ('0' as int + d) as char
  }

  function DigitValue(c: char): (d: nat)
    requires IsDigit(c)
    ensures d < 10 && DigitChar(d) == c
  {
    c as int - '0' as int
  }

  // ---------------------------------------------------------------------------
  // String(n) and Number(s) on integers
  // ---------------------------------------------------------------------------

  /** `String(n)` for a natural number: its shortest decimal text. */
  function NatText(n: nat): (s: string)
    ensures |s| >= 1 && AllDigits(s)
    ensures s[0] == '0' <==> n == 0
    ensures n < 10 ==> |s| == 1
    decreases n
  {
    if n < 10 then [DigitChar(n)] else NatText(n / 10) + [DigitChar(n % 10)]
  }

  /** `String(n)` (and `${n}`) for an integer: a '-' exactly when `n` is
      negative, then the shortest decimal digits of `|n|`. */
  function IntText(n: int): (s: string)
    ensures |s| >= 1 && (s[0] == '-' <==> n < 0)
    ensures var digits := if n < 0 then s[1..] else s;
      |digits| >= 1 && AllDigits(digits) && (digits[0] == '0' <==> n == 0) &&
      DigitsValue(digits) == (if n < 0 then -n else n)
  {
    var m := if n < 0 then -n else n;
    DigitsValueOfNatText(m);
    if n < 0 then
      var s := "-" + NatText(m);
      assert s[1..] == NatText(m);
      s
    else
      NatText(m)
  }

  /** The value of a string of decimal digits, most significant first. */
  function DigitsValue(s: string): nat
    requires AllDigits(s)
    decreases |s|
  {
    if s == [] then 0 else DigitsValue(s[..|s| - 1]) * 10 + DigitValue(s[|s| - 1])
  }

  /** `Number(s)` on the strings an integer input field holds: the empty string
      is 0, an optional sign followed by at least one ASCII digit is that
      integer, anything else is NaN here. */
  function IntegerNumber(s: string): (r: JsNumber)
    ensures s == "" ==> r == Finite(0)
    ensures AllDigits(s) ==> r.Finite? && r.value >= 0
    ensures s != "" && AllDigits(s) ==> r == Finite(DigitsValue(s))
    ensures |s| > 1 && s[0] == '+' && AllDigits(s[1..]) ==> r == Finite(DigitsValue(s[1..]))
    ensures |s| > 1 && s[0] == '-' && AllDigits(s[1..]) ==> r == Finite(-(DigitsValue(s[1..]) as int))
    ensures r == NaN <==>
      s != "" && !AllDigits(s) && !(|s| > 1 && (s[0] == '-' || s[0] == '+') && AllDigits(s[1..]))
  {
    if s == "" then Finite(0)
    else if s[0] == '-' || s[0] == '+' then
      if |s| > 1 && AllDigits(s[1..]) then
        var m: int := DigitsValue(s[1..]);
        Finite(if s[0] == '-' then -m else m)
      else NaN
    else if AllDigits(s) then Finite(DigitsValue(s))
    else NaN
  }

  lemma {:induction false} DigitsValueOfNatText(n: nat)
    ensures DigitsValue(NatText(n)) == n
    decreases n
  {
    var s := NatText(n);
    if n >= 10 {
      DigitsValueOfNatText(n / 10);
      assert s[..|s| - 1] == NatText(n / 10);
    }
  }

  /** A leading zero does not change the value of a digit string. */
  lemma {:induction false} LeadingZeroValue(t: string)
    requires AllDigits(t)
    ensures AllDigits("0" + t) && DigitsValue("0" + t) == DigitsValue(t)
    decreases |t|
  {
    var z := "0" + t;
    assert forall i :: 0 <= i < |z| ==> z[i] == (if i == 0 then '0' else t[i - 1]);
    if t != [] {
      assert z[..|z| - 1] == "0" + t[..|t| - 1];
      LeadingZeroValue(t[..|t| - 1]);
    }
  }

  /** `Number` ignores leading zeros, signed or not: "007" is 7 and "-007" is -7. */
  lemma {:induction false} LeadingZerosIgnored(t: string)
    requires t != "" && AllDigits(t)
    ensures IntegerNumber("0" + t) == IntegerNumber(t)
    ensures IntegerNumber("-0" + t) == IntegerNumber("-" + t)
    ensures IntegerNumber("+0" + t) == IntegerNumber(t)
  {
    LeadingZeroValue(t);
    assert ("-0" + t)[1..] == "0" + t && ("+0" + t)[1..] == "0" + t;
    assert ("-" + t)[1..] == t;
  }

  /** Text typed into a numeric input: "007" is 7, "+5" is 5 and "-007" is -7. */
  lemma TypedNumbers()
    ensures IntegerNumber("007") == Finite(7)
    ensures IntegerNumber("+5") == Finite(5)
    ensures IntegerNumber("-007") == Finite(-7)
  {
    LeadingZerosIgnored("7");
    LeadingZerosIgnored("07");
    assert "0" + "07" == "007" && "-0" + "07" == "-007" && "0" + "7" == "07";
    assert ("-" + "07")[1..] == "07";
    assert DigitsValue("7") == 7;
    assert DigitsValue("5") == 5 && "+5"[1..] == "5";
  }

  /** `Number(String(n)) === n` for every integer. */
  lemma IntTextRoundTrip(n: int)
    ensures IntegerNumber(IntText(n)) == Finite(n)
  {
    if n < 0 {
      var t := NatText(-n);
      var s := "-" + t;
      assert s == IntText(n);
      assert s[1..] == t;
      DigitsValueOfNatText(-n);
      assert IntegerNumber(s) == Finite(-(DigitsValue(t) as int));
    } else {
      var t := NatText(n);
      DigitsValueOfNatText(n);
      assert IsDigit(t[0]);
      assert IntegerNumber(t) == Finite(DigitsValue(t));
    }
  }

  /** `n.toFixed(1)` for an integer `n`: its decimal text followed by ".0". */
  function FixedOne(n: int): (s: string)
    ensures |s| >= 3 && s[|s| - 2..] == ".0"
    ensures s[..|s| - 2] == IntText(n)
    ensures IntegerNumber(s[..|s| - 2]) == Finite(n)
  {
    IntTextRoundTrip(n);
    var s := IntText(n) + ".0";
    assert s[..|s| - 2] == IntText(n);
    s
  }

  // ---------------------------------------------------------------------------
  // toLocaleString() with en-US grouping
  // ---------------------------------------------------------------------------

  /** The three digits of `r`, zero-padded. */
  function Pad3(r: nat): (s: string)
    requires r < 1000
    ensures |s| == 3 && AllDigits(s)
  {
    [DigitChar(r / 100), DigitChar(r / 10 % 10), DigitChar(r % 10)]
  }

  lemma NatTextBelowThousand(n: nat)
    requires n < 1000
    ensures |NatText(n)| <= 3
  {
  }

  /** A comma sits exactly where a group of three digits starts, counting
      from the right; every other character is a digit; the leftmost group is
      not empty. */
  predicate GroupedShape(s: string) {
    |s| % 4 != 0 &&
    forall i :: 0 <= i < |s| ==>
      (s[i] == ',' <==> i > 0 && (|s| - i) % 4 == 0) && (s[i] != ',' ==> IsDigit(s[i]))
  }

  /** en-US `toLocaleString()` of a natural number. */
  function Grouped(n: nat): (s: string)
    ensures |s| >= 1 && GroupedShape(s)
    decreases n
  {
    if n < 1000 then
      NatTextBelowThousand(n);
      NatText(n)
    else
      var g, p := Grouped(n / 1000), Pad3(n % 1000);
      GroupedAppend(g, p);
      g + "," + p
  }

  /** One more group of three digits after a comma keeps the grouped shape. */
  lemma GroupedAppend(g: string, p: string)
    requires GroupedShape(g) && |p| == 3 && AllDigits(p)
    ensures GroupedShape(g + "," + p)
  {
    var s := g + "," + p;
    assert |s| == |g| + 4;
    assert forall i :: 0 <= i < |g| ==> s[i] == g[i] && (|s| - i) % 4 == (|g| - i) % 4;
    assert forall i :: |g| < i < |s| ==> s[i] == p[i - |g| - 1];
  }

  /** en-US `toLocaleString()` of an integer: a '-' exactly when `n` is
      negative, then the grouped digits of `|n|`, which are `String(n)` once the
      commas are removed. */
  function LocaleText(n: int): (s: string)
    ensures |s| >= 1 && (s[0] == '-' <==> n < 0)
    ensures GroupedShape(if n < 0 then s[1..] else s)
    ensures StripCommas(s) == IntText(n)
  {
    var m := if n < 0 then -n else n;
    var g := Grouped(m);
    GroupedDigits(m);
    assert IsDigit(g[0]);
    if n < 0 then
      var s := "-" + g;
      StripCommasAppend("-", g);
      assert s[1..] == g;
      s
    else
      g
  }

  /** The string with every ',' removed. */
  function StripCommas(s: string): (r: string)
    ensures ',' !in r
  {
    if s == [] then [] else (if s[0] == ',' then [] else [s[0]]) + StripCommas(s[1..])
  }

  lemma {:induction false} StripCommasAppend(a: string, b: string)
    ensures StripCommas(a + b) == StripCommas(a) + StripCommas(b)
    decreases |a|
  {
    if a != [] {
      assert (a + b)[1..] == a[1..] + b;
      StripCommasAppend(a[1..], b);
    } else {
      assert a + b == b;
    }
  }

  lemma {:induction false} StripCommasOfDigits(s: string)
    requires AllDigits(s)
    ensures StripCommas(s) == s
    decreases |s|
  {
    if s != [] {
      StripCommasOfDigits(s[1..]);
    }
  }

  /** Appending three more digits to a positive number appends them to its text. */
  lemma NatTextSplit(q: nat, r: nat)
    requires q >= 1 && r < 1000
    ensures NatText(q * 1000 + r) == NatText(q) + Pad3(r)
  {
    var n := q * 1000 + r;
    assert n / 10 == q * 100 + r / 10 && n % 10 == r % 10;
    var m := q * 100 + r / 10;
    assert m / 10 == q * 10 + r / 100 && m % 10 == r / 10 % 10;
    var k := q * 10 + r / 100;
    assert k / 10 == q && k % 10 == r / 100;
    calc {
      NatText(n);
      NatText(m) + [DigitChar(r % 10)];
      NatText(k) + [DigitChar(r / 10 % 10)] + [DigitChar(r % 10)];
      NatText(q) + [DigitChar(r / 100)] + [DigitChar(r / 10 % 10)] + [DigitChar(r % 10)];
      NatText(q) + Pad3(r);
    }
  }

  /** Grouping only inserts commas: without them the digits are `String(n)`. */
  lemma {:induction false} GroupedDigits(n: nat)
    ensures StripCommas(Grouped(n)) == NatText(n)
    decreases n
  {
    if n < 1000 {
      StripCommasOfDigits(NatText(n));
    } else {
      var q, r := n / 1000, n % 1000;
      GroupedDigits(q);
      StripCommasAppend(Grouped(q) + ",", Pad3(r));
      StripCommasAppend(Grouped(q), ",");
      StripCommasOfDigits(Pad3(r));
      assert StripCommas(",") == "";
      NatTextSplit(q, r);
      assert n == q * 1000 + r;
    }
  }

  /** `Number(n.toLocaleString().replaceAll(',', '')) === n`. */
  lemma LocaleTextRoundTrip(n: int)
    ensures IntegerNumber(StripCommas(LocaleText(n))) == Finite(n)
  {
    IntTextRoundTrip(n);
  }

  // ---------------------------------------------------------------------------
  // includes and replaceAll
  // ---------------------------------------------------------------------------

  predicate OccursAt(s: string, sub: string, i: nat) {
    i + |sub| <= |s| && s[i..i + |sub|] == sub
  }

  /** `s.includes(sub)`. */
  function Includes(s: string, sub: string): (b: bool)
    ensures b <==> exists i :: 0 <= i && OccursAt(s, sub, i)
    decreases |s|
  {
    if |sub| > |s| then
      assert forall i :: 0 <= i ==> !OccursAt(s, sub, i);
      false
    else if s[..|sub|] == sub then
      assert OccursAt(s, sub, 0);
      true
    else
      var rest := Includes(s[1..], sub);
      assert forall i :: 1 <= i ==> (OccursAt(s, sub, i) <==> OccursAt(s[1..], sub, i - 1));
      assert !OccursAt(s, sub, 0);
      if rest then
        var j :| 0 <= j && OccursAt(s[1..], sub, j);
        assert OccursAt(s, sub, j + 1);
        true
      else
        false
  }

  /** `s.replaceAll(from, to)` for one-character strings `from` and `to`. */
  function ReplaceChar(s: string, from: char, to: char): (r: string)
    ensures |r| == |s|
    ensures forall i :: 0 <= i < |s| ==> r[i] == (if s[i] == from then to else s[i])
    decreases |s|
  {
    if s == [] then [] else [if s[0] == from then to else s[0]] + ReplaceChar(s[1..], from, to)
  }
}
