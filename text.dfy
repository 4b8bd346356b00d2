/**
 * The string handling the bot relies on: decimal printing of numbers (template
 * literals such as `ledger_page:${page + 1}` and the balance written to the
 * sheet), the prefix of decimal digits that `parseInt`/`parseFloat` read back,
 * `s.split(":")[1]`, and the unanchored command regular expressions.
 */
module Text {
  import opened Wrappers

  predicate IsDigit(c: char)
  {
    '0' <= c <= '9'
  }

  predicate AllDigits(s: string)
  {
    forall i :: 0 <= i < |s| ==> IsDigit(s[i])
  }

  function DigitChar(d: nat): (c: char)
    requires d < 10
    ensures IsDigit(c) && c as int - '0' as int == d
  {
    (d + '0' as int) as char
  }

  /** Decimal text of a natural number, without leading zeros. */
  function NatToString(n: nat): (s: string)
    ensures |s| > 0 && AllDigits(s)
    ensures s[0] == '0' ==> n == 0
    decreases n
  {
    if n < 10 then [DigitChar(n)] else NatToString(n / 10) + [DigitChar(n % 10)]
  }

  /** The number a non-empty run of decimal digits stands for. */
  function DigitsValue(s: string): nat
    requires AllDigits(s)
    decreases |s|
  {
    if s == [] then 0 else DigitsValue(s[..|s| - 1]) * 10 + (s[|s| - 1] as int - '0' as int)
  }

  lemma {:induction false} DigitsRoundTrip(n: nat)
    ensures DigitsValue(NatToString(n)) == n
    decreases n
  {
    if n >= 10 {
      DigitsRoundTrip(n / 10);
      var s := NatToString(n);
      assert s[..|s| - 1] == NatToString(n / 10);
    }
  }

  /** Length of the run of decimal digits at the start of `s`. */
  function LeadingDigits(s: string): (k: nat)
    ensures k <= |s| && AllDigits(s[..k])
    ensures k < |s| ==> !IsDigit(s[k])
    decreases |s|
  {
    if s == [] || !IsDigit(s[0]) then 0
    else
      var k := 1 + LeadingDigits(s[1..]);
      assert forall i :: 1 <= i < k ==> s[..k][i] == s[1..][..k - 1][i - 1];
      k
  }

  /**
   * `parseInt(s, 10)` as far as the bot's own tokens need it: the value of the
   * leading decimal digits, or None (JavaScript's NaN) when `s` does not start
   * with a digit.
   */
  function ParseNat(s: string): (r: Option<nat>)
    ensures r.Some? <==> |s| > 0 && IsDigit(s[0])
  {
    var k := LeadingDigits(s);
    if k == 0 then None else Some(DigitsValue(s[..k]))
  }

  lemma NatRoundTrip(n: nat)
    ensures ParseNat(NatToString(n)) == Some(n)
  {
    var s := NatToString(n);
    assert LeadingDigits(s) == |s|;
    assert s[..|s|] == s;
    DigitsRoundTrip(n);
  }

  /** Decimal text of an integer, with a leading '-' when it is negative. */
  function IntToString(i: int): (s: string)
    ensures |s| > 0
  {
    if i < 0 then "-" + NatToString(-i) else NatToString(i)
  }

  /**
   * `parseFloat(s)` restricted to integers: an optional sign followed by the
   * value of the leading digits, or None (NaN) when no digit follows.
   */
  function ParseNumber(s: string): (r: Option<int>)
    ensures r.Some? <==> (|s| > 0 && IsDigit(s[0])) || (|s| > 1 && s[0] in "+-" && IsDigit(s[1]))
  {
    if |s| > 0 && s[0] == '-' then
      match ParseNat(s[1..])
      case Some(n) => var v: int := n; Some(-v)
      case None => None
    else if |s| > 0 && s[0] == '+' then
      match ParseNat(s[1..])
      case Some(n) => Some(n)
      case None => None
    else
      match ParseNat(s)
      case Some(n) => Some(n)
      case None => None
  }

  lemma NumberRoundTrip(i: int)
    ensures ParseNumber(IntToString(i)) == Some(i)
  {
    if i < 0 {
      assert IntToString(i)[1..] == NatToString(-i);
      NatRoundTrip(-i);
    } else {
      NatRoundTrip(i);
    }
  }

  /** The text before the first ':' of `s` (all of `s` when it has none). */
  function UpToColon(s: string): (r: string)
    ensures ':' !in r && r <= s
    ensures |r| < |s| ==> s[|r|] == ':'
    decreases |s|
  {
    if s == [] || s[0] == ':' then "" else [s[0]] + UpToColon(s[1..])
  }

  /** The text after the first ':' of `s` ("" when it has none). */
  function AfterColon(s: string): (r: string)
    ensures |r| < |s|  || s == []
    decreases |s|
  {
    if s == [] then "" else if s[0] == ':' then s[1..] else AfterColon(s[1..])
  }

  /** `s.split(":")[1]`: the field between the first and the second ':'. */
  function SecondField(s: string): (r: string)
    ensures ':' !in r
  {
    UpToColon(AfterColon(s))
  }

  lemma {:induction false} UpToColonWhole(x: string)
    requires ':' !in x
    ensures UpToColon(x) == x
    decreases |x|
  {
    if x != [] {
      UpToColonWhole(x[1..]);
      assert [x[0]] + x[1..] == x;
    }
  }

  /** After a prefix whose only ':' is its last character, the second field is the text up to the next ':'. */
  lemma {:induction false} SecondFieldAfterPrefix(p: string, x: string)
    requires |p| > 0 && p[|p| - 1] == ':' && ':' !in p[..|p| - 1]
    ensures SecondField(p + x) == UpToColon(x)
    decreases |p|
  {
    if |p| == 1 {
      assert (p + x)[1..] == x;
    } else {
      assert p[0] in p[..|p| - 1];
      assert (p + x)[1..] == p[1..] + x;
      assert p[1..][..|p[1..]| - 1] == p[..|p| - 1][1..];
      SecondFieldAfterPrefix(p[1..], x);
    }
  }

  /** `sub` occurs in `s` starting at index `i`. */
  predicate OccursAt(s: string, sub: string, i: int)
  {
    0 <= i && i + |sub| <= |s| && s[i..i + |sub|] == sub
  }

  /** Whether `sub` occurs anywhere in `s` (an unanchored regular expression match). */
  function Contains(s: string, sub: string): (r: bool)
    ensures r <==> exists i :: OccursAt(s, sub, i)
    decreases |s|
  {
    if sub <= s then
      assert OccursAt(s, sub, 0);
      true
    else if s == [] then false
    else
      var r := Contains(s[1..], sub);
      assert r ==> exists i :: OccursAt(s, sub, i) by {
        if r {
          var i :| OccursAt(s[1..], sub, i);
          assert s[i + 1..i + 1 + |sub|] == s[1..][i..i + |sub|];
          assert OccursAt(s, sub, i + 1);
        }
      }
      assert (exists i :: OccursAt(s, sub, i)) ==> r by {
        if exists i :: OccursAt(s, sub, i) {
          var i :| OccursAt(s, sub, i);
          assert i != 0;
          assert s[i..i + |sub|] == s[1..][i - 1..i - 1 + |sub|];
          assert OccursAt(s[1..], sub, i - 1);
        }
      }
      r
  }
}
