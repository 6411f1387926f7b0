/** String helpers the client relies on: PHP's implode/explode on one
    separator character, and the decimal rendering PHP uses when an
    integer is interpolated into a string. */
module Text {
  import opened Wrappers

  /** The position of the first `c` in `s`, or `|s|` when there is none. */
  function IndexOf(s: string, c: char): (i: nat)
    ensures i <= |s|
    ensures i < |s| ==> s[i] == c
    ensures forall j :: 0 <= j < i ==> s[j] != c
  {
    if |s| == 0 then 0
    else if s[0] == c then 0
    else 1 + IndexOf(s[1..], c)
  }

  /** `implode(sep, parts)`: the parts with one `sep` between neighbours. */
  function Implode(sep: char, parts: seq<string>): string
  {
    if |parts| == 0 then ""
    else if |parts| == 1 then parts[0]
    else parts[0] + [sep] + Implode(sep, parts[1..])
  }

  /** `explode(sep, s)`: the pieces of `s` between occurrences of `sep`. */
  function Split(s: string, sep: char): (parts: seq<string>)
    ensures |parts| >= 1
    decreases |s|
  {
    var i := IndexOf(s, sep);
    if i == |s| then [s] else [s[..i]] + Split(s[i + 1..], sep)
  }

  /** True when no piece contains the separator. */
  predicate FreeOf(parts: seq<string>, sep: char)
  {
    forall k :: 0 <= k < |parts| ==> sep !in parts[k]
  }

  lemma IndexOfAbsent(s: string, c: char)
    requires c !in s
    ensures IndexOf(s, c) == |s|
  {
  }

  lemma IndexOfAfter(a: string, c: char, b: string)
    requires c !in a
    ensures IndexOf(a + [c] + b, c) == |a|
  {
    var s := a + [c] + b;
    assert forall j :: 0 <= j < |a| ==> s[j] == a[j];
    assert s[|a|] == c;
  }

  /** Splitting what was imploded gives the parts back, provided no part
      holds the separator. */
  lemma {:induction false} SplitImplode(sep: char, parts: seq<string>)
    requires |parts| >= 1 && FreeOf(parts, sep)
    ensures Split(Implode(sep, parts), sep) == parts
  {
    if |parts| == 1 {
      IndexOfAbsent(parts[0], sep);
    } else {
      var rest := Implode(sep, parts[1..]);
      var s := parts[0] + [sep] + rest;
      IndexOfAfter(parts[0], sep, rest);
      assert s[..|parts[0]|] == parts[0];
      assert s[|parts[0]| + 1..] == rest;
      SplitImplode(sep, parts[1..]);
    }
  }

  /** Imploding two non-empty lists is imploding each and joining the
      results with one separator. */
  lemma {:induction false} ImplodeAppend(sep: char, a: seq<string>, b: seq<string>)
    requires |a| >= 1 && |b| >= 1
    ensures Implode(sep, a + b) == Implode(sep, a) + [sep] + Implode(sep, b)
  {
    if |a| == 1 {
      assert (a + b)[1..] == b;
    } else {
      assert (a + b)[1..] == a[1..] + b;
      ImplodeAppend(sep, a[1..], b);
    }
  }

  /** The separator occurs in an implosion only between parts. */
  lemma {:induction false} ImplodeFree(sep: char, c: char, parts: seq<string>)
    requires c != sep && FreeOf(parts, c)
    ensures c !in Implode(sep, parts)
  {
    if |parts| > 1 {
      ImplodeFree(sep, c, parts[1..]);
    }
  }

  function DigitChar(d: nat): (c: char)
    requires d < 10
    ensures '0' <= c <= '9' && c as int - '0' as int == d
  {
    ('0' as int + d) as char
  }

  /** Decimal digits of a natural number, most significant first, without
      leading zeros. */
  function NatToString(n: nat): (s: string)
    ensures |s| >= 1 && forall k :: 0 <= k < |s| ==> '0' <= s[k] <= '9'
    ensures |s| > 1 ==> s[0] != '0'
  {
    if n < 10 then [DigitChar(n)] else NatToString(n / 10) + [DigitChar(n % 10)]
  }

  /** What PHP writes for an integer interpolated into a string. */
  function IntToString(n: int): (s: string)
    ensures |s| >= 1 && forall k :: 0 < k < |s| ==> '0' <= s[k] <= '9'
    ensures (n < 0) == (s[0] == '-') && (n >= 0 ==> '0' <= s[0] <= '9')
  {
    if n < 0 then "-" + NatToString(-n) else NatToString(n)
  }

  /** The value of a string of decimal digits. */
  function DigitsValue(s: string): nat
    requires forall k :: 0 <= k < |s| ==> '0' <= s[k] <= '9'
  {
    if |s| == 0 then 0
    else DigitsValue(s[..|s| - 1]) * 10 + (s[|s| - 1] as int - '0' as int)
  }

  /** Reads back an optionally signed decimal integer. */
  function ParseInt(s: string): int
    requires forall k :: 0 < k < |s| ==> '0' <= s[k] <= '9'
    requires |s| > 0 && s[0] != '-' ==> '0' <= s[0] <= '9'
  {
    if |s| > 0 && s[0] == '-' then 0 - DigitsValue(s[1..]) else DigitsValue(s)
  }

  /** An optionally signed decimal integer: at least one digit, after at
      most one leading `-`. */
  predicate IsDecimal(s: string)
  {
    var start := if |s| > 0 && s[0] == '-' then 1 else 0;
    |s| > start && forall k :: start <= k < |s| ==> '0' <= s[k] <= '9'
  }

  /** Reads a decimal integer; anything else reads as nothing. */
  function ReadInt(s: string): Option<int>
  {
    if IsDecimal(s) then Some(ParseInt(s)) else None
  }

  lemma {:induction false} NatToStringValue(n: nat)
    ensures DigitsValue(NatToString(n)) == n
  {
    if n >= 10 {
      var s := NatToString(n);
      assert s[..|s| - 1] == NatToString(n / 10);
      NatToStringValue(n / 10);
    }
  }

  /** The decimal rendering of an integer reads back as that integer. */
  lemma {:induction false} IntToStringRoundTrip(n: int)
    ensures ReadInt(IntToString(n)) == Some(n)
  {
    var s := IntToString(n);
    if n >= 0 {
      assert IsDecimal(s);
      NatToStringValue(n);
    } else {
      var digits := NatToString(-n);
      assert s == "-" + digits;
      assert s[1..] == digits;
      assert IsDecimal(s) by {
        assert forall k :: 1 <= k < |s| ==> s[k] == digits[k - 1];
      }
      NatToStringValue(-n);
    }
  }
}
