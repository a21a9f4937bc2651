/** Helpers shared by the puzzle models: an Option type, Python's list
    indexing, Python's truncating `int(a / b)`, `str.split` on one
    separator character, and decimal conversion between strings and
    naturals. */
module Common {

  datatype Option<T> = None | Some(value: T) {
    predicate IsFailure() { None? }

    function PropagateFailure<U>(): Option<U>
      requires None?
    {
      None
    }

    function Extract(): T
      requires Some?
    {
      value
    }
  }

  // ---------------------------------------------------------------------
  // Python list indexing: `xs[i]` accepts -len(xs) <= i < len(xs), where a
  // negative index counts from the end; anything else raises IndexError,
  // which is None here.

  predicate InRange<T>(xs: seq<T>, i: int) {
    -|xs| <= i < |xs|
  }

  function Slot<T>(xs: seq<T>, i: int): (k: nat)
    requires InRange(xs, i)
    ensures k < |xs|
  {
    if i >= 0 then i else |xs| + i
  }

  function Get<T>(xs: seq<T>, i: int): Option<T> {
    if InRange(xs, i) then Some(xs[Slot(xs, i)]) else None
  }

  function Set<T>(xs: seq<T>, i: int, v: T): Option<seq<T>> {
    if InRange(xs, i) then Some(xs[Slot(xs, i) := v]) else None
  }

  /** `a[i]` on a list held in an array. */
  method ArrayGet(a: array<int>, i: int) returns (v: Option<int>)
    ensures v == Get(a[..], i)
  {
    if 0 <= i < a.Length {
      v := Some(a[i]);
    } else if -a.Length <= i < 0 {
      v := Some(a[a.Length + i]);
    } else {
      v := None;
    }
  }

  /** `a[i] = x` on a list held in an array; false when it raises IndexError,
      in which case nothing is written. */
  method ArraySet(a: array<int>, i: int, x: int) returns (ok: bool)
    modifies a
    ensures ok == InRange(old(a[..]), i)
    ensures ok ==> a[..] == Set(old(a[..]), i, x).value
    ensures !ok ==> a[..] == old(a[..])
  {
    ok := -a.Length <= i < a.Length;
    if ok {
      a[Slot(a[..], i)] := x;
    }
  }

  // ---------------------------------------------------------------------
  // Python's `int(a / b)` for a positive divisor: the quotient rounded
  // toward zero (Dafny's `/` rounds toward negative infinity there).

  function TruncDiv(a: int, b: int): int
    requires b > 0
  {
    if a >= 0 then a / b else -((-a) / b)
  }

  /** The truncated quotient loses less than one divisor in magnitude,
      and keeps the sign of the dividend. */
  lemma TruncDivBounds(a: int, b: int)
    requires b > 0
    ensures var q := TruncDiv(a, b);
      (a >= 0 ==> q * b <= a < q * b + b) && (a < 0 ==> q * b - b < a <= q * b)
  {
  }

  lemma {:induction false} MulAtLeast(n: int, d: int)
    requires n > 0 && d >= 1
    ensures n * d >= n
    decreases d
  {
    if d > 1 {
      MulAtLeast(n, d - 1);
      assert n * d == n * (d - 1) + n;
    }
  }

  /** Quotient and remainder are the only such pair. */
  lemma DivUnique(a: int, n: int, q: int, r: int)
    requires n > 0 && 0 <= r < n && a == n * q + r
    ensures a / n == q && a % n == r
  {
    var q', r' := a / n, a % n;
    var d := q' - q;
    assert n * q' == n * q + n * d;
    if d >= 1 {
      MulAtLeast(n, d);
    } else if d <= -1 {
      MulAtLeast(n, -d);
    }
  }

  /** Taking n away takes one from the quotient and keeps the remainder. */
  lemma DivSub(a: int, n: int)
    requires n > 0 && a >= n
    ensures (a - n) / n == a / n - 1 && (a - n) % n == a % n
  {
    DivUnique(a, n, (a - n) / n + 1, (a - n) % n);
  }

  /** Python's `max` on a non-empty list. */
  function Max(xs: seq<nat>): (m: nat)
    requires |xs| > 0
    ensures m in xs && forall k :: 0 <= k < |xs| ==> xs[k] <= m
  {
    if |xs| == 1 then xs[0]
    else
      var rest := Max(xs[1..]);
      assert xs[1..][0] in xs;
      if xs[0] >= rest then xs[0] else rest
  }

  /** Dropping decimal digits one at a time is dropping them all at once. */
  lemma DropDigits(a: nat)
    ensures (a / 100) / 10 == a / 1000
    ensures ((a / 100) / 10) / 10 == a / 10000
  {
  }

  // ---------------------------------------------------------------------
  // Sequences.

  /** `list.reverse()`. */
  function Reverse<T>(xs: seq<T>): (r: seq<T>)
    ensures |r| == |xs|
    ensures forall k :: 0 <= k < |xs| ==> r[k] == xs[|xs| - 1 - k]
    decreases |xs|
  {
    if |xs| == 0 then [] else Reverse(xs[1..]) + [xs[0]]
  }

  /** Popping the end of the reversed list takes the head of the original:
      reverse-then-pop consumes a list in its original order. */
  lemma ReversePop<T>(xs: seq<T>)
    requires |xs| > 0
    ensures Reverse(xs)[|xs| - 1] == xs[0]
    ensures Reverse(xs)[..|xs| - 1] == Reverse(xs[1..])
  {
  }

  /** `list.index`: the position of the first occurrence. */
  function IndexOf<T(==)>(xs: seq<T>, x: T): (i: nat)
    requires x in xs
    ensures i < |xs| && xs[i] == x
    ensures forall j :: 0 <= j < i ==> xs[j] != x
    decreases |xs|
  {
    if xs[0] == x then 0 else 1 + IndexOf(xs[1..], x)
  }

  // ---------------------------------------------------------------------
  // `s.split(sep)` for a single separator character.

  function Split(s: string, sep: char): (parts: seq<string>)
    ensures |parts| >= 1
    ensures forall k :: 0 <= k < |parts| ==> sep !in parts[k]
    decreases |s|
  {
    if |s| == 0 then [""]
    else
      var rest := Split(s[1..], sep);
      if s[0] == sep then [""] + rest
      else [[s[0]] + rest[0]] + rest[1..]
  }

  /** `sep.join(parts)`. */
  function Join(parts: seq<string>, sep: char): string
    requires |parts| >= 1
    decreases |parts|
  {
    if |parts| == 1 then parts[0] else parts[0] + [sep] + Join(parts[1..], sep)
  }

  /** Gluing a character to the front of the first piece glues it to the
      front of the joined string. */
  lemma JoinConsHead(c: char, parts: seq<string>, sep: char)
    requires |parts| >= 1
    ensures Join([[c] + parts[0]] + parts[1..], sep) == [c] + Join(parts, sep)
  {
    var glued := [[c] + parts[0]] + parts[1..];
    if |parts| > 1 {
      assert glued[1..] == parts[1..];
    }
  }

  /** Splitting loses nothing: joining the pieces back gives the string. */
  lemma {:induction false} JoinSplit(s: string, sep: char)
    ensures Join(Split(s, sep), sep) == s
    decreases |s|
  {
    if |s| > 0 {
      var rest := Split(s[1..], sep);
      JoinSplit(s[1..], sep);
      if s[0] == sep {
        assert ([""] + rest)[1..] == rest;
        assert Join([""] + rest, sep) == [sep] + s[1..];
      } else {
        JoinConsHead(s[0], rest, sep);
      }
      assert [s[0]] + s[1..] == s;
    }
  }

  /** There is more than one piece exactly when the separator occurs. */
  lemma {:induction false} SplitCount(s: string, sep: char)
    ensures |Split(s, sep)| >= 2 <==> sep in s
    decreases |s|
  {
    if |s| > 0 {
      SplitCount(s[1..], sep);
      assert sep in s <==> s[0] == sep || sep in s[1..];
    }
  }

  /** Splitting two separator-free pieces joined by the separator gives
      the two pieces. */
  lemma {:induction false} SplitPair(a: string, b: string, sep: char)
    requires sep !in a && sep !in b
    ensures Split(a + [sep] + b, sep) == [a, b]
    decreases |a|
  {
    var s := a + [sep] + b;
    if |a| == 0 {
      assert s[1..] == b;
      SplitWhole(b, sep);
    } else {
      assert s[1..] == a[1..] + [sep] + b;
      SplitPair(a[1..], b, sep);
      assert [a[0]] + a[1..] == a;
    }
  }

  /** A string without the separator is one piece. */
  lemma {:induction false} SplitWhole(s: string, sep: char)
    requires sep !in s
    ensures Split(s, sep) == [s]
    decreases |s|
  {
    if |s| > 0 {
      SplitWhole(s[1..], sep);
      assert [s[0]] + s[1..] == s;
    }
  }

  // ---------------------------------------------------------------------
  // Decimal text.

  predicate IsDigit(c: char) {
    '0' <= c <= '9'
  }

  predicate IsNumeral(s: string) {
    |s| > 0 && forall k :: 0 <= k < |s| ==> IsDigit(s[k])
  }

  function DigitValue(c: char): (d: nat)
    requires IsDigit(c)
    ensures d < 10
  {
    c as int - '0' as int
  }

  function DigitChar(d: nat): (c: char)
    requires d < 10
    ensures IsDigit(c) && DigitValue(c) == d
  {
    ('0' as int + d) as char
  }

  /** The value of a string of decimal digits, most significant first. */
  function NumeralValue(s: string): nat
    requires forall k :: 0 <= k < |s| ==> IsDigit(s[k])
    decreases |s|
  {
    if |s| == 0 then 0 else 10 * NumeralValue(s[..|s| - 1]) + DigitValue(s[|s| - 1])
  }

  /** Python's `int(s)` on plain decimal text (None for anything else). */
  function ParseNat(s: string): Option<nat> {
    if IsNumeral(s) then Some(NumeralValue(s)) else None
  }

  /** Python's `str(n)` for a natural: no sign and no leading zero. */
  function NatToString(n: nat): (s: string)
    ensures IsNumeral(s)
    ensures |s| > 1 ==> s[0] != '0'
    decreases n
  {
    if n < 10 then [DigitChar(n)] else NatToString(n / 10) + [DigitChar(n % 10)]
  }

  /** Python's `str(n)` for any integer: a minus sign before a negative. */
  function IntToString(n: int): (s: string)
    ensures |s| > 0
    ensures 0 <= n < 10 ==> s == [DigitChar(n)]
  {
    if n >= 0 then NatToString(n) else "-" + NatToString(-n)
  }

  lemma {:induction false} ParseNatToString(n: nat)
    ensures ParseNat(NatToString(n)) == Some(n)
    decreases n
  {
    var s := NatToString(n);
    if n >= 10 {
      ParseNatToString(n / 10);
      assert s[..|s| - 1] == NatToString(n / 10);
      assert NumeralValue(s) == 10 * (n / 10) + n % 10;
    }
  }

  function Pow10(k: nat): (p: nat)
    ensures p >= 1
  {
    if k == 0 then 1 else 10 * Pow10(k - 1)
  }

  /** `str(n)` has at most k digits exactly when n < 10^k. */
  lemma {:induction false} LengthBound(n: nat, k: nat)
    requires k >= 1
    ensures |NatToString(n)| <= k <==> n < Pow10(k)
    decreases n
  {
    if n >= 10 && k > 1 {
      LengthBound(n / 10, k - 1);
      assert n / 10 < Pow10(k - 1) <==> n < 10 * Pow10(k - 1);
    } else if n >= 10 {
      assert Pow10(1) == 10;
    }
  }

  /** A number has exactly six decimal digits iff it lies in [100000, 999999]. */
  lemma SixDigitLength(n: nat)
    ensures |NatToString(n)| == 6 <==> 100000 <= n <= 999999
  {
    LengthBound(n, 6);
    LengthBound(n, 5);
    assert Pow10(5) == 100000 && Pow10(6) == 1000000;
  }

  // ---------------------------------------------------------------------
  // `str.strip()`.

  /** The ASCII characters `str.strip()` removes: space, tab to carriage
      return, and the four separators 0x1C to 0x1F. */
  predicate IsSpace(c: char) {
    c == ' ' || '\t' <= c <= '\r' || '\U{001C}' <= c <= '\U{001F}'
  }

  function StripLeft(s: string): (r: string)
    ensures |r| <= |s| && (|r| > 0 ==> !IsSpace(r[0]))
    decreases |s|
  {
    if |s| > 0 && IsSpace(s[0]) then StripLeft(s[1..]) else s
  }

  function StripRight(s: string): (r: string)
    ensures |r| <= |s| && (|r| > 0 ==> !IsSpace(r[|r| - 1]))
    decreases |s|
  {
    if |s| > 0 && IsSpace(s[|s| - 1]) then StripRight(s[..|s| - 1]) else s
  }

  /** `str.strip()`. */
  function Strip(s: string): string {
    StripRight(StripLeft(s))
  }

  /** A string without surrounding whitespace is its own strip. */
  lemma StripClean(s: string)
    requires |s| > 0 ==> !IsSpace(s[0]) && !IsSpace(s[|s| - 1])
    ensures Strip(s) == s
  {
  }
}
