/** String helpers standing in for the PHP built-ins the library relies on:
    `implode`, `rtrim` and the decimal conversion `(string) $int`. */
module Text {
  import opened Wrappers

  // ---------------------------------------------------------------------------
  // implode($separator, $parts)
  // ---------------------------------------------------------------------------

  /** `implode(sep, parts)`: the parts in order with `sep` between neighbours. */
  function Join(sep: string, parts: seq<string>): (r: string)
  {
    if |parts| == 0 then ""
    else if |parts| == 1 then parts[0]
    else
      var rest := parts[1..];
      parts[0] + sep + Join(sep, rest)
  }

  /** The parts one after another. */
  function Concat(parts: seq<string>): string
  {
    if |parts| == 0 then ""
    else
      var rest := parts[1..];
      parts[0] + Concat(rest)
  }

  /** The lengths of the parts, added up. */
  function TotalLength(parts: seq<string>): nat
  {
    if |parts| == 0 then 0 else |parts[0]| + TotalLength(parts[1..])
  }

  /** The result is as long as the parts together plus one separator per gap. */
  lemma {:induction false} JoinLength(sep: string, parts: seq<string>)
    ensures |parts| > 0 ==> |Join(sep, parts)| == TotalLength(parts) + (|parts| - 1) * |sep|
  {
    if |parts| > 1 {
      JoinLength(sep, parts[1..]);
    }
  }

  lemma {:induction false} JoinCons(sep: string, head: string, tail: seq<string>)
    requires tail != []
    ensures Join(sep, [head] + tail) == head + sep + Join(sep, tail)
  {
    assert ([head] + tail)[1..] == tail;
  }

  lemma JoinTwo(sep: string, a: string, b: string)
    ensures Join(sep, [a, b]) == a + sep + b
  {
    JoinCons(sep, a, [b]);
    assert [a, b] == [a] + [b];
  }

  lemma JoinThree(sep: string, a: string, b: string, c: string)
    ensures Join(sep, [a, b, c]) == a + sep + b + sep + c
  {
    JoinCons(sep, a, [b, c]);
    JoinCons(sep, b, [c]);
    assert [a, b, c] == [a] + [b, c];
    assert [b, c] == [b] + [c];
  }

  lemma JoinFour(sep: string, a: string, b: string, c: string, d: string)
    ensures Join(sep, [a, b, c, d]) == a + sep + b + sep + c + sep + d
  {
    JoinCons(sep, a, [b, c, d]);
    JoinThree(sep, b, c, d);
    assert [a, b, c, d] == [a] + [b, c, d];
  }

  lemma JoinFive(sep: string, a: string, b: string, c: string, d: string, e: string)
    ensures Join(sep, [a, b, c, d, e]) == a + sep + b + sep + c + sep + d + sep + e
  {
    JoinCons(sep, a, [b, c, d, e]);
    JoinFour(sep, b, c, d, e);
    assert [a, b, c, d, e] == [a] + [b, c, d, e];
  }

  /** Joining is empty only when there is nothing to join or the one part is empty. */
  lemma {:induction false} JoinEmpty(sep: string, parts: seq<string>)
    requires sep != []
    ensures Join(sep, parts) == [] <==> (|parts| == 0 || (|parts| == 1 && parts[0] == []))
  {
    if |parts| >= 2 {
      assert |Join(sep, parts)| >= |sep|;
    }
  }

  // ---------------------------------------------------------------------------
  // Decimal conversion of integers: PHP's (string) $int
  // ---------------------------------------------------------------------------

  predicate IsDigit(c: char) { '0' <= c <= '9' }

  function DigitChar(d: nat): (c: char)
    requires d < 10
    ensures IsDigit(c)
  {
    ('0' as int + d) as char
  }

  function DigitValue(c: char): (d: nat)
    requires IsDigit(c)
    ensures d < 10
  {
    (c as int - '0' as int) as nat
  }

  lemma DigitRoundTrip(d: nat)
    requires d < 10
    ensures DigitValue(DigitChar(d)) == d
  {
  }

  predicate AllDigits(s: string) { forall i :: 0 <= i < |s| ==> IsDigit(s[i]) }

  /** Reads a string of decimal digits back as a number. */
  function DigitsValue(s: string): nat
    requires AllDigits(s)
  {
    if |s| == 0 then 0 else DigitsValue(s[..|s| - 1]) * 10 + DigitValue(s[|s| - 1])
  }

  /** The decimal digits of `n`, most significant first, without leading zeros;
      they read back as `n`. */
  function NatToString(n: nat): (s: string)
    ensures |s| > 0
    ensures AllDigits(s)
    ensures |s| > 1 ==> s[0] != '0'
    ensures DigitsValue(s) == n
    decreases n
  {
    if n < 10 then
      DigitRoundTrip(n);
      [DigitChar(n)]
    else
      var t := NatToString(n / 10);
      var s := t + [DigitChar(n % 10)];
      DigitRoundTrip(n % 10);
      assert s[..|s| - 1] == t;
      s
  }

  /** Reads the output of IntToString back: an optional minus sign and at least one digit. */
  function ParseInt(s: string): Option<int>
  {
    if |s| > 0 && s[0] == '-' then
      (if |s| > 1 && AllDigits(s[1..]) then Some(-(DigitsValue(s[1..]) as int)) else None)
    else if |s| > 0 && AllDigits(s) then Some(DigitsValue(s) as int)
    else None
  }

  /** `(string) $i` for a PHP integer: a minus sign exactly for negatives, then the
      digits without a leading zero. The text reads back as `i`. */
  function IntToString(i: int): (s: string)
    ensures |s| > 0 && (s[0] == '-' || IsDigit(s[0]))
    ensures (s[0] == '-') <==> i < 0
    ensures var d := if i < 0 then s[1..] else s; |d| > 1 ==> d[0] != '0'
    ensures ParseInt(s) == Some(i)
  {
    if i < 0 then
      var t := NatToString(-i);
      var s := "-" + t;
      assert s[1..] == t;
      s
    else
      NatToString(i)
  }

  /** Three-digit numbers are written with their three digits. */
  lemma HundredsExample()
    ensures IntToString(100) == "100" && IntToString(101) == "101" && IntToString(102) == "102"
  {
    ThreeDigits(100);
    ThreeDigits(101);
    ThreeDigits(102);
  }

  /** Single digits are written as themselves. */
  lemma DigitsExample()
    ensures IntToString(1) == "1" && IntToString(2) == "2" && IntToString(3) == "3"
  {
  }

  /** A number of three digits, written out digit by digit. */
  lemma ThreeDigits(n: nat)
    requires 100 <= n < 1000
    ensures IntToString(n) == [DigitChar(n / 100), DigitChar(n / 10 % 10), DigitChar(n % 10)]
  {
    var m := n / 10;
    assert 10 <= m < 100 && m / 10 == n / 100;
    assert NatToString(m) == [DigitChar(m / 10), DigitChar(m % 10)];
  }

  // ---------------------------------------------------------------------------
  // rtrim($s, '/')
  // ---------------------------------------------------------------------------

  /** `rtrim(s, [c])`: `s` with every trailing copy of `c` removed. What it
      leaves is a prefix of the input that does not end in `c`, and everything it
      removed was `c`. */
  function TrimRight(s: string, c: char): (r: string)
    ensures r <= s
    ensures |r| == 0 || r[|r| - 1] != c
    ensures forall i :: |r| <= i < |s| ==> s[i] == c
    decreases |s|
  {
    if |s| > 0 && s[|s| - 1] == c then TrimRight(s[..|s| - 1], c) else s
  }

  /** One more trailing `c` makes no difference. */
  lemma TrimRightExtra(s: string, c: char)
    ensures TrimRight(s + [c], c) == TrimRight(s, c)
  {
    assert (s + [c])[..|s + [c]| - 1] == s;
  }

  /** Trimming twice is trimming once. */
  lemma TrimRightIdempotent(s: string, c: char)
    ensures TrimRight(TrimRight(s, c), c) == TrimRight(s, c)
  {
  }
}
