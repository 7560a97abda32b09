/** The text operations the database layer relies on: SQLite's BINARY comparison of
    TEXT values, Rust's decimal rendering of integers with SQLite's conversion back
    (INTEGER affinity), and the joining and placeholder counting of SQL fragments. */
module Text {
  import opened Results

  // ---------------------------------------------------------------------------
  // BINARY collation: code point by code point; a proper prefix sorts first.
  // (UTF-8 byte order and code point order agree.)

  predicate TextLe(a: string, b: string)
    ensures a <= b ==> TextLe(a, b)
    ensures b < a ==> !TextLe(a, b)
    decreases |a|
  {
    if a == [] then true
    else if b == [] then false
    else if a[0] != b[0] then a[0] < b[0]
    else TextLe(a[1..], b[1..])
  }

  lemma {:induction false} TextLeTotal(a: string, b: string)
    ensures TextLe(a, b) || TextLe(b, a)
    decreases |a|
  {
    if a != [] && b != [] && a[0] == b[0] {
      TextLeTotal(a[1..], b[1..]);
    }
  }

  lemma {:induction false} TextLeTransitive(a: string, b: string, c: string)
    requires TextLe(a, b) && TextLe(b, c)
    ensures TextLe(a, c)
    decreases |a|
  {
    if a != [] && b != [] && c != [] && a[0] == b[0] && b[0] == c[0] {
      TextLeTransitive(a[1..], b[1..], c[1..]);
    }
  }

  lemma {:induction false} TextLeAntisymmetric(a: string, b: string)
    requires TextLe(a, b) && TextLe(b, a)
    ensures a == b
    decreases |a|
  {
    if a != [] && b != [] {
      TextLeAntisymmetric(a[1..], b[1..]);
      assert a == [a[0]] + a[1..] && b == [b[0]] + b[1..];
    }
  }

  // ---------------------------------------------------------------------------
  // Integers as decimal text.

  function DigitChar(d: nat): char
    requires d < 10
  {
    ('0' as int + d) as char
  }

  function DigitValue(c: char): Option<nat> {
    if '0' <= c <= '9' then Some(c as int - '0' as int) else None
  }

  predicate IsDigit(c: char) {
    '0' <= c <= '9'
  }

  /** At least one character, and only decimal digits. */
  predicate AllDigits(s: string) {
    |s| > 0 && forall i :: 0 <= i < |s| ==> IsDigit(s[i])
  }

  /** Decimal digits of n, most significant first, without leading zeros. */
  function NatToDecimal(n: nat): (s: string)
    ensures |s| >= 1 && forall i :: 0 <= i < |s| ==> IsDigit(s[i])
    decreases n
  {
    if n < 10 then [DigitChar(n)] else NatToDecimal(n / 10) + [DigitChar(n % 10)]
  }

  /** Rust's `to_string` on an integer: a minus sign for negative values. */
  function IntToDecimal(n: int): (s: string)
    ensures |s| >= 1 && (s[0] == '-' <==> n < 0)
    ensures n < 0 ==> |s| >= 2
    ensures forall i :: 0 <= i < |s| && (i > 0 || n >= 0) ==> IsDigit(s[i])
  {
    if n < 0 then "-" + NatToDecimal(-n) else NatToDecimal(n)
  }

  /** The value of a non-empty string of decimal digits; None for anything else. */
  function ParseDigits(s: string): (r: Option<nat>)
    ensures r.Some? <==> AllDigits(s)
    decreases |s|
  {
    if s == [] then None
    else
      var d := DigitValue(s[|s| - 1]);
      if d.None? then None
      else if |s| == 1 then d
      else match ParseDigits(s[..|s| - 1])
        case None => None
        case Some(p) => Some(p * 10 + d.value)
  }

  /** An optional minus sign followed by at least one decimal digit. */
  predicate IsIntegerLiteral(s: string) {
    if |s| > 0 && s[0] == '-' then AllDigits(s[1..]) else AllDigits(s)
  }

  /** How an INTEGER column reads back text of the form `to_string` produces for an
      in-range integer: an optional minus sign followed by decimal digits. The value is
      that integer. None stands for every other text; the model says nothing about how
      SQLite converts it. */
  function IntegerAffinity(s: string): (r: Option<int>)
    ensures r.Some? <==> IsIntegerLiteral(s)
    ensures r.Some? && r.value < 0 ==> s[0] == '-'
    ensures r.Some? && s[0] != '-' ==> r.value >= 0
  {
    if |s| > 0 && s[0] == '-' then
      match ParseDigits(s[1..])
      case Some(n) => var v: int := n; Some(-v)
      case None => None
    else
      match ParseDigits(s)
      case Some(n) => Some(n)
      case None => None
  }

  lemma {:induction false} ParseNatToDecimal(n: nat)
    ensures ParseDigits(NatToDecimal(n)) == Some(n)
    decreases n
  {
    if n >= 10 {
      ParseNatToDecimal(n / 10);
      var s := NatToDecimal(n / 10);
      var t := s + [DigitChar(n % 10)];
      assert t[..|t| - 1] == s;
    }
  }

  /** Rendering an integer as text and reading it back with INTEGER affinity gives the
      integer back, for every integer. */
  lemma {:induction false} IntegerAffinityRoundTrip(n: int)
    ensures IntegerAffinity(IntToDecimal(n)) == Some(n)
  {
    if n < 0 {
      var d := NatToDecimal(-n);
      ParseNatToDecimal(-n);
      var s := "-" + d;
      assert |s| > 0 && s[0] == '-' && s[1..] == d;
      assert IntegerAffinity(s) == Some(-(-n));
    } else {
      var d := NatToDecimal(n);
      ParseNatToDecimal(n);
      assert IsDigit(d[0]);
      assert IntegerAffinity(d) == Some(n);
    }
  }

  // ---------------------------------------------------------------------------
  // SQL fragments.

  function Occurrences(s: string, c: char): nat
    decreases |s|
  {
    if s == [] then 0 else (if s[0] == c then 1 else 0) + Occurrences(s[1..], c)
  }

  lemma {:induction false} OccurrencesAppend(a: string, b: string, c: char)
    ensures Occurrences(a + b, c) == Occurrences(a, c) + Occurrences(b, c)
    decreases |a|
  {
    if a != [] {
      assert (a + b)[1..] == a[1..] + b;
      OccurrencesAppend(a[1..], b, c);
    } else {
      assert a + b == b;
    }
  }

  /** Rust's `join`: the parts with `sep` between neighbours. */
  function Join(parts: seq<string>, sep: string): (r: string)
    ensures |parts| > 0 ==> parts[0] <= r
    ensures |r| == TotalLength(parts) + if parts == [] then 0 else (|parts| - 1) * |sep|
    decreases |parts|
  {
    if |parts| == 0 then ""
    else if |parts| == 1 then parts[0]
    else parts[0] + sep + Join(parts[1..], sep)
  }

  function TotalLength(parts: seq<string>): nat
    decreases |parts|
  {
    if parts == [] then 0 else |parts[0]| + TotalLength(parts[1..])
  }

  function TotalOccurrences(parts: seq<string>, c: char): nat
    decreases |parts|
  {
    if parts == [] then 0 else Occurrences(parts[0], c) + TotalOccurrences(parts[1..], c)
  }

  lemma {:induction false} OccurrencesJoin(parts: seq<string>, sep: string, c: char)
    requires Occurrences(sep, c) == 0
    ensures Occurrences(Join(parts, sep), c) == TotalOccurrences(parts, c)
    decreases |parts|
  {
    if |parts| == 1 {
      assert TotalOccurrences(parts[1..], c) == 0;
    } else if |parts| > 1 {
      OccurrencesJoin(parts[1..], sep, c);
      OccurrencesAppend(parts[0] + sep, Join(parts[1..], sep), c);
      OccurrencesAppend(parts[0], sep, c);
    }
  }

  lemma {:induction false} TotalOccurrencesAppend(a: seq<string>, b: seq<string>, c: char)
    ensures TotalOccurrences(a + b, c) == TotalOccurrences(a, c) + TotalOccurrences(b, c)
    decreases |a|
  {
    if a != [] {
      assert (a + b)[1..] == a[1..] + b;
      TotalOccurrencesAppend(a[1..], b, c);
    } else {
      assert a + b == b;
    }
  }
}
