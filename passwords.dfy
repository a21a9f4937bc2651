/** Day 4: six-digit passwords whose digits never decrease from left to
    right and contain two equal adjacent digits. Part 1 scans the digits
    arithmetically, least significant first; part 2 reads the decimal
    text and additionally asks that some pair of equal digits is not part
    of a longer run. */
module Passwords {
  import opened Common

  // ---------------------------------------------------------------------
  // Part 1: `password % 10`, then `password = int(password / 10)`, six times.

  /** The k lowest decimal digits, least significant first, as the source
      peels them off (Python's `%` and truncating `int(a / 10)`). */
  function LowDigits(password: int, k: nat): (ds: seq<int>)
    ensures |ds| == k
    ensures forall i :: 0 <= i < k ==> 0 <= ds[i] < 10
    decreases k
  {
    if k == 0 then [] else [password % 10] + LowDigits(TruncDiv(password, 10), k - 1)
  }

  /** Read from the right, no digit exceeds the one before it (so they
      never decrease from the left), and some neighbours are equal. */
  predicate ValidPassword(password: int) {
    FallingWithDouble(LowDigits(password, 6))
  }

  predicate FallingWithDouble(ds: seq<int>)
    requires |ds| == 6
  {
    FallsUpTo(ds, 6) && PairUpTo(ds, 6)
  }

  /** Among the first n digits none exceeds the one before it. */
  predicate FallsUpTo(ds: seq<int>, n: nat)
    requires n <= |ds|
  {
    forall i :: 0 < i < n ==> ds[i] <= ds[i - 1]
  }

  /** Among the first n digits two neighbours are equal. */
  predicate PairUpTo(ds: seq<int>, n: nat)
    requires n <= |ds|
  {
    exists i :: 0 < i < n && ds[i] == ds[i - 1]
  }

  lemma LowDigitsHead(password: int, k: nat)
    requires k > 0
    ensures LowDigits(password, k)[0] == password % 10
    ensures LowDigits(password, k)[1..] == LowDigits(TruncDiv(password, 10), k - 1)
  {
  }

  /** One more digit of the scan: a fall ends it, an equal neighbour is a pair. */
  lemma ScanStep(ds: seq<int>, i: nat)
    requires i < |ds| == 6 && FallsUpTo(ds, i)
    ensures i > 0 && ds[i] > ds[i - 1] ==> !FallsUpTo(ds, 6)
    ensures (i == 0 || ds[i] <= ds[i - 1]) ==> FallsUpTo(ds, i + 1)
    ensures PairUpTo(ds, i + 1) <==> PairUpTo(ds, i) || (i > 0 && ds[i] == ds[i - 1])
  {
    if PairUpTo(ds, i + 1) && !PairUpTo(ds, i) {
      var j :| 0 < j < i + 1 && ds[j] == ds[j - 1];
      assert j == i;
    }
    if i > 0 && ds[i] == ds[i - 1] {
      assert PairUpTo(ds, i + 1);
    }
  }

  /** `isValidPassword` of part 1. The first digit is compared with 10,
      which never rejects it and never pairs with it. */
  method IsValidPassword(password: int) returns (valid: bool)
    ensures valid == ValidPassword(password)
  {
    ghost var ds := LowDigits(password, 6);
    var foundDouble := false;
    var previousDigit := 10;
    var rest := password;
    for i := 0 to 6
      invariant LowDigits(rest, 6 - i) == ds[i..]
      invariant previousDigit == if i == 0 then 10 else ds[i - 1]
      invariant FallsUpTo(ds, i)
      invariant foundDouble <==> PairUpTo(ds, i)
    {
      LowDigitsHead(rest, 6 - i);
      assert ds[i..][1..] == ds[i + 1..];
      var currentDigit := rest % 10;
      ScanStep(ds, i);
      if currentDigit > previousDigit {
        return false;
      }
      if currentDigit == previousDigit {
        foundDouble := true;
      }
      previousDigit := currentDigit;
      rest := TruncDiv(rest, 10);
    }
    valid := foundDouble;
  }

  /** Strictly increasing. */
  predicate Ascending(xs: seq<int>) {
    forall i, j :: 0 <= i < j < |xs| ==> xs[i] < xs[j]
  }

  /** `[x for x in range(start, end + 1) if test(x)]`. */
  function FilterRange(test: int -> bool, start: int, end: int): (r: seq<int>)
    ensures forall x :: x in r <==> start <= x <= end && test(x)
    decreases end - start
  {
    if start > end then []
    else (if test(start) then [start] else []) + FilterRange(test, start + 1, end)
  }

  /** Every value below the rest of the range precedes all of it. */
  lemma Before(x: int, rest: seq<int>)
    requires forall y :: y in rest ==> x < y
    ensures forall j :: 0 <= j < |rest| ==> x < rest[j]
  {
    forall j | 0 <= j < |rest|
      ensures x < rest[j]
    {
      assert rest[j] in rest;
    }
  }

  lemma ConsAscending(x: int, rest: seq<int>)
    requires Ascending(rest) && forall y :: y in rest ==> x < y
    ensures Ascending([x] + rest)
  {
    Before(x, rest);
    var r := [x] + rest;
    forall i, j | 0 <= i < j < |r|
      ensures r[i] < r[j]
    {
      if i > 0 {
        assert r[i] == rest[i - 1];
      }
      assert r[j] == rest[j - 1];
    }
  }

  /** The list is in ascending order. */
  lemma {:induction false} FilterRangeAscending(test: int -> bool, start: int, end: int)
    ensures Ascending(FilterRange(test, start, end))
    decreases end - start
  {
    if start <= end {
      var rest := FilterRange(test, start + 1, end);
      FilterRangeAscending(test, start + 1, end);
      if test(start) {
        ConsAscending(start, rest);
      } else {
        assert [] + rest == rest;
      }
    }
  }

  /** `getPossiblePasswords` of part 1: the passing values of [start, end],
      in ascending order. */
  function PossiblePasswords(start: int, end: int): seq<int> {
    FilterRange(ValidPassword, start, end)
  }

  // ---------------------------------------------------------------------
  // Part 2: `str(password)` (IntToString), its first six characters read as digits.


  /** `[int(text[x]) for x in range(6)]`: None when the text is shorter
      than six characters (IndexError) or one of them is not a digit
      (ValueError). */
  function ReadDigits(text: string): (r: Option<seq<nat>>)
    ensures r.Some? ==> |r.value| == 6 && forall k :: 0 <= k < 6 ==> r.value[k] < 10
  {
    if |text| >= 6 && forall k :: 0 <= k < 6 ==> IsDigit(text[k]) then
      Some(seq(6, k requires 0 <= k < 6 && IsDigit(text[k]) => DigitValue(text[k])))
    else None
  }

  /** Left to right no digit is below the one before it (the first is
      compared with -1), and some neighbours are equal. */
  predicate AscendingWithDouble(ds: seq<nat>)
    requires |ds| == 6
  {
    (forall i :: 0 < i < 6 ==> ds[i - 1] <= ds[i]) && (exists i :: 0 < i < 6 && ds[i - 1] == ds[i])
  }

  function ValidPassword2(password: int): Option<bool> {
    var ds :- ReadDigits(IntToString(password));
    Some(AscendingWithDouble(ds))
  }

  /** `isValidPassword` of part 2; None where it raises. */
  method IsValidPassword2(password: int) returns (r: Option<bool>)
    ensures r == ValidPassword2(password)
  {
    var text := IntToString(password);
    var read := ReadDigits(text);
    if read.None? {
      return None;
    }
    var digits := read.value;
    var foundDouble := false;
    for i := 0 to 6
      invariant forall j :: 0 < j < i ==> digits[j - 1] <= digits[j]
      invariant foundDouble <==> exists j :: 0 < j < i && digits[j - 1] == digits[j]
    {
      var currentDigit: int := digits[i];
      var previousDigit: int := if i > 0 then digits[i - 1] else -1;
      if currentDigit < previousDigit {
        return Some(false);
      }
      if currentDigit == previousDigit {
        foundDouble := true;
      }
    }
    r := Some(foundDouble);
  }

  /** The digits of `str(n)` are the arithmetic digits read backwards. */
  lemma {:induction false} TextDigits(n: nat, len: nat)
    requires |NatToString(n)| == len
    ensures forall i :: 0 <= i < len ==> DigitValue(NatToString(n)[len - 1 - i]) == LowDigits(n, len)[i]
    decreases n
  {
    var s := NatToString(n);
    if n >= 10 {
      TextDigits(n / 10, len - 1);
      assert TruncDiv(n, 10) == n / 10;
      forall i | 0 <= i < len
        ensures DigitValue(s[len - 1 - i]) == LowDigits(n, len)[i]
      {
        if i > 0 {
          assert s[len - 1 - i] == NatToString(n / 10)[(len - 1) - 1 - (i - 1)];
        }
      }
    }
  }

  /** Scanning a digit list from the right for falls is scanning its
      reverse from the left for rises. */
  lemma ReversedScansAgree(digits: seq<nat>, ds: seq<int>)
    requires |digits| == 6 && |ds| == 6
    requires forall k :: 0 <= k < 6 ==> digits[k] == ds[5 - k]
    ensures AscendingWithDouble(digits) == FallingWithDouble(ds)
  {
    if AscendingWithDouble(digits) {
      var i :| 0 < i < 6 && digits[i - 1] == digits[i];
      assert ds[6 - i] == ds[6 - i - 1];
      assert PairUpTo(ds, 6);
      forall j | 0 < j < 6
        ensures ds[j] <= ds[j - 1]
      {
        assert digits[5 - j] <= digits[6 - j];
      }
      assert FallsUpTo(ds, 6);
    }
    if FallingWithDouble(ds) {
      var i :| 0 < i < 6 && ds[i] == ds[i - 1];
      assert digits[6 - i] == digits[6 - i - 1];
      forall j | 0 < j < 6
        ensures digits[j - 1] <= digits[j]
      {
        assert ds[6 - j] <= ds[6 - j - 1];
      }
    }
  }

  /** On six-digit numbers the two parts' digit scans agree. */
  lemma ValidPasswordsAgree(n: int)
    requires 100000 <= n <= 999999
    ensures ValidPassword2(n) == Some(ValidPassword(n))
  {
    SixDigitLength(n);
    TextDigits(n, 6);
    var text := IntToString(n);
    assert text == NatToString(n);
    var read := ReadDigits(text);
    assert read.Some?;
    var digits := read.value;
    forall k | 0 <= k < 6
      ensures digits[k] == LowDigits(n, 6)[5 - k]
    {
      assert DigitValue(text[6 - 1 - (5 - k)]) == LowDigits(n, 6)[5 - k];
    }
    ReversedScansAgree(digits, LowDigits(n, 6));
  }

  // ---------------------------------------------------------------------
  // Part 2's second test: after each run of three or more equal digits is
  // replaced by 'x', an equal pair must remain. Runs of a string:

  datatype Run = Run(c: char, n: nat)

  function Repeat(c: char, n: nat): (s: string)
    ensures |s| == n
  {
    if n == 0 then [] else [c] + Repeat(c, n - 1)
  }

  /** Every character of `Repeat(c, n)` is c. */
  lemma {:induction false} RepeatChars(c: char, n: nat)
    ensures forall k :: 0 <= k < n ==> Repeat(c, n)[k] == c
  {
    if n > 0 {
      RepeatChars(c, n - 1);
      assert forall k :: 0 < k < n ==> Repeat(c, n)[k] == Repeat(c, n - 1)[k - 1];
    }
  }

  function Expand(rs: seq<Run>): string
    decreases |rs|
  {
    if |rs| == 0 then [] else Repeat(rs[0].c, rs[0].n) + Expand(rs[1..])
  }

  /** How many copies of c the string starts with. */
  function LeadingCount(s: string, c: char): (k: nat)
    ensures k <= |s| && forall i :: 0 <= i < k ==> s[i] == c
    ensures k < |s| ==> s[k] != c
    decreases |s|
  {
    if |s| > 0 && s[0] == c then 1 + LeadingCount(s[1..], c) else 0
  }

  /** The maximal runs of a string, left to right. */
  function Encode(s: string): (rs: seq<Run>)
    ensures forall i :: 0 <= i < |rs| ==> rs[i].n > 0
    decreases |s|
  {
    if |s| == 0 then []
    else
      var k := LeadingCount(s, s[0]);
      [Run(s[0], k)] + Encode(s[k..])
  }

  /** Neighbouring runs never share a character: the runs are maximal. */
  predicate Maximal(rs: seq<Run>) {
    forall i :: 0 < i < |rs| ==> rs[i - 1].c != rs[i].c
  }

  /** Runs are maximal exactly when their tail is and the first two differ. */
  lemma ConsMaximal(r: Run, rest: seq<Run>)
    ensures Maximal([r] + rest) <==> Maximal(rest) && (|rest| > 0 ==> rest[0].c != r.c)
  {
    var rs := [r] + rest;
    if Maximal(rest) && (|rest| > 0 ==> rest[0].c != r.c) {
      forall i | 0 < i < |rs|
        ensures rs[i - 1].c != rs[i].c
      {
        if i > 1 {
          assert rs[i - 1] == rest[i - 2] && rs[i] == rest[i - 1];
        }
      }
    }
    if Maximal(rs) {
      forall i | 0 < i < |rest|
        ensures rest[i - 1].c != rest[i].c
      {
        assert rest[i - 1] == rs[i] && rest[i] == rs[i + 1];
      }
      if |rest| > 0 {
        assert rs[0] == r && rs[1] == rest[0];
        assert rs[0].c != rs[1].c;
      }
    }
  }

  /** The leading copies of c are a run of c. */
  lemma LeadingRun(s: string, c: char)
    ensures s[..LeadingCount(s, c)] == Repeat(c, LeadingCount(s, c))
  {
    RepeatChars(c, LeadingCount(s, c));
  }

  lemma EncodeCons(s: string)
    requires |s| > 0
    ensures Encode(s) == [Run(s[0], LeadingCount(s, s[0]))] + Encode(s[LeadingCount(s, s[0])..])
  {
  }

  lemma SplitAt(s: string, k: nat)
    requires k <= |s|
    ensures s[..k] + s[k..] == s
  {
  }

  /** Expanding the encoding gives the string back. */
  lemma {:induction false} ExpandEncode(s: string)
    ensures Expand(Encode(s)) == s
    decreases |s|
  {
    if |s| > 0 {
      var k := LeadingCount(s, s[0]);
      var head := s[..k];
      var tail := s[k..];
      var rest := Encode(tail);
      ExpandEncode(tail);
      LeadingRun(s, s[0]);
      ExpandConsRun(Run(s[0], k), rest);
      EncodeCons(s);
      SplitAt(s, k);
    }
  }

  /** The run of a non-empty string starts with its first character. */
  lemma EncodeStart(s: string)
    requires |s| > 0
    ensures |Encode(s)| > 0 && Encode(s)[0].c == s[0]
  {
  }

  /** The encoding consists of maximal runs. */
  lemma {:induction false} EncodeMaximal(s: string)
    ensures Maximal(Encode(s))
    decreases |s|
  {
    if |s| > 0 {
      var k := LeadingCount(s, s[0]);
      var rest := Encode(s[k..]);
      EncodeMaximal(s[k..]);
      if k < |s| {
        EncodeStart(s[k..]);
      }
      ConsMaximal(Run(s[0], k), rest);
    }
  }

  lemma EncodeIsMaximal(s: string)
    ensures Expand(Encode(s)) == s
    ensures Maximal(Encode(s))
  {
    ExpandEncode(s);
    EncodeMaximal(s);
  }

  /** Conversely, maximal runs are the encoding of their own text. */
  lemma {:induction false} EncodeExpand(rs: seq<Run>)
    requires Maximal(rs) && forall i :: 0 <= i < |rs| ==> rs[i].n > 0
    ensures Encode(Expand(rs)) == rs
    decreases |rs|
  {
    if |rs| > 0 {
      var r := rs[0];
      var rest := rs[1..];
      var s := Expand(rs);
      ExpandCons(rs);
      if |rest| > 0 {
        ExpandStart(rest);
        assert rest[0] == rs[1];
      }
      RepeatChars(r.c, r.n);
      LeadingCountAppend(Repeat(r.c, r.n), Expand(rest), r.c);
      assert s[0] == r.c;
      assert s[r.n..] == Expand(rest);
      assert Maximal(rest) by {
        forall i | 0 < i < |rest|
          ensures rest[i - 1].c != rest[i].c
        {
          assert rest[i - 1] == rs[i] && rest[i] == rs[i + 1];
        }
      }
      EncodeExpand(rest);
      assert rs == [r] + rest;
    }
  }

  /** `re.sub(c + '{3,}', 'x', s)`: scanning from the left, a run of at
      least three c is replaced by one 'x' as a whole. */
  function ReplaceRuns(s: string, c: char): string
    decreases |s|
  {
    if |s| == 0 then []
    else
      var k := LeadingCount(s, c);
      if k >= 3 then "x" + ReplaceRuns(s[k..], c)
      else if k > 0 then s[..k] + ReplaceRuns(s[k..], c)
      else [s[0]] + ReplaceRuns(s[1..], c)
  }

  /** `re.search(c + '{2}', s)`. */
  predicate ContainsPair(s: string, c: char) {
    exists i :: 0 < i < |s| && s[i - 1] == c && s[i] == c
  }

  /** After each digit below k has had its long runs replaced. */
  function ReplaceDigitRuns(s: string, k: nat): string
    requires k <= 10
  {
    if k == 0 then s else ReplaceRuns(ReplaceDigitRuns(s, k - 1), DigitChar(k - 1))
  }

  /** A password passes when one of its maximal runs of a digit has
      length exactly two. */
  predicate TripleFree(password: int) {
    HasDigitPair(Encode(IntToString(password)))
  }

  /** Some run is of a digit and has length exactly two. */
  predicate HasDigitPair(rs: seq<Run>) {
    exists i :: 0 <= i < |rs| && IsDigit(rs[i].c) && rs[i].n == 2
  }

  /** `isTripleFree`: the two loops over the ten digits. */
  method IsTripleFree(password: int) returns (stillHasDouble: bool)
    ensures stillHasDouble == TripleFree(password)
  {
    var original := IntToString(password);
    var text := original;
    for i := 0 to 10
      invariant text == ReplaceDigitRuns(original, i)
    {
      text := ReplaceRuns(text, DigitChar(i));
    }
    stillHasDouble := false;
    for i := 0 to 10
      invariant stillHasDouble <==> exists j :: 0 <= j < i && ContainsPair(text, DigitChar(j))
    {
      if ContainsPair(text, DigitChar(i)) {
        stillHasDouble := true;
      }
    }
    ReplacedPairs(original);
  }

  // The proof that replacing and searching finds exactly the digit runs
  // of length two: on runs, each replacement maps runs one to one.

  function Squash(r: Run, k: nat): Run {
    if IsDigit(r.c) && DigitValue(r.c) < k && r.n >= 3 then Run('x', 1) else r
  }

  function SquashAll(rs: seq<Run>, k: nat): (r: seq<Run>)
    ensures |r| == |rs| && forall i :: 0 <= i < |rs| ==> r[i] == Squash(rs[i], k)
  {
    seq(|rs|, i requires 0 <= i < |rs| => Squash(rs[i], k))
  }

  /** Squashing keeps a run's digit only where the original run had it. */
  lemma SquashKeepsDigit(r: Run, k: nat, d: char)
    requires IsDigit(d)
    ensures Squash(r, k).c == d ==> r.c == d
    ensures Squash(r, k).n > 0 <== r.n > 0
  {
  }

  lemma ExpandCons(rs: seq<Run>)
    requires |rs| > 0
    ensures Expand(rs) == Repeat(rs[0].c, rs[0].n) + Expand(rs[1..])
  {
  }

  lemma ExpandConsRun(r: Run, rs: seq<Run>)
    ensures Expand([r] + rs) == Repeat(r.c, r.n) + Expand(rs)
  {
    assert ([r] + rs)[1..] == rs;
  }

  /** Runs whose digit-c neighbours are never both c. */
  predicate Apart(rs: seq<Run>, c: char) {
    (forall i :: 0 <= i < |rs| ==> rs[i].n > 0)
    && forall i :: 0 < i < |rs| ==> !(rs[i - 1].c == c && rs[i].c == c)
  }

  lemma LeadingCountAppend(a: string, b: string, c: char)
    requires forall i :: 0 <= i < |a| ==> a[i] == c
    requires |b| > 0 ==> b[0] != c
    ensures LeadingCount(a + b, c) == |a|
    decreases |a|
  {
    if |a| > 0 {
      assert (a + b)[1..] == a[1..] + b;
      LeadingCountAppend(a[1..], b, c);
    }
  }

  lemma ExpandStart(rs: seq<Run>)
    requires |rs| > 0 && rs[0].n > 0
    ensures |Expand(rs)| > 0 && Expand(rs)[0] == rs[0].c
  {
  }

  /** No replacement starts at a character other than c. */
  lemma {:induction false} ReplaceSkips(a: char, n: nat, t: string, c: char)
    requires a != c
    ensures ReplaceRuns(Repeat(a, n) + t, c) == Repeat(a, n) + ReplaceRuns(t, c)
    decreases n
  {
    if n > 0 {
      var s := Repeat(a, n) + t;
      var shorter := Repeat(a, n - 1);
      assert Repeat(a, n) == [a] + shorter;
      assert s == [a] + (shorter + t);
      ReplaceRunsSkipsOne(s, c);
      assert s[1..] == shorter + t;
      ReplaceSkips(a, n - 1, t, c);
    } else {
      assert Repeat(a, n) + t == t;
    }
  }

  lemma ReplaceRunsSkipsOne(s: string, c: char)
    requires |s| > 0 && s[0] != c
    ensures ReplaceRuns(s, c) == [s[0]] + ReplaceRuns(s[1..], c)
  {
    assert LeadingCount(s, c) == 0;
  }

  /** A whole run of c followed by something else is replaced at once. */
  lemma ReplaceWholeRun(n: nat, t: string, c: char)
    requires n > 0 && (|t| > 0 ==> t[0] != c)
    ensures ReplaceRuns(Repeat(c, n) + t, c) == (if n >= 3 then "x" else Repeat(c, n)) + ReplaceRuns(t, c)
  {
    var s := Repeat(c, n) + t;
    RepeatChars(c, n);
    LeadingCountAppend(Repeat(c, n), t, c);
    assert s[n..] == t;
    assert s[..n] == Repeat(c, n);
  }

  /** A replacement on the text of the runs is a replacement run by run. */
  lemma {:induction false} ReplaceOnRuns(rs: seq<Run>, c: char)
    requires Apart(rs, c)
    ensures ReplaceRuns(Expand(rs), c) == Expand(SquashRun(rs, c))
    decreases |rs|
  {
    if |rs| > 0 {
      var r := rs[0];
      var rest := rs[1..];
      ExpandCons(rs);
      assert Apart(rest, c);
      ReplaceOnRuns(rest, c);
      ExpandConsRun(SquashOne(r, c), SquashRun(rest, c));
      assert SquashRun(rs, c) == [SquashOne(r, c)] + SquashRun(rest, c);
      if r.c == c {
        if |rest| > 0 {
          ExpandStart(rest);
        }
        ReplaceWholeRun(r.n, Expand(rest), c);
      } else {
        ReplaceSkips(r.c, r.n, Expand(rest), c);
      }
    }
  }

  function SquashOne(r: Run, c: char): Run {
    if r.c == c && r.n >= 3 then Run('x', 1) else r
  }

  function SquashRun(rs: seq<Run>, c: char): (r: seq<Run>)
    ensures |r| == |rs| && forall i :: 0 <= i < |rs| ==> r[i] == SquashOne(rs[i], c)
  {
    seq(|rs|, i requires 0 <= i < |rs| => SquashOne(rs[i], c))
  }

  /** A pair of c in the text of the runs is a run of c of length two or more. */
  lemma {:induction false} PairOnRuns(rs: seq<Run>, c: char)
    requires Apart(rs, c)
    ensures ContainsPair(Expand(rs), c) <==> exists i :: 0 <= i < |rs| && rs[i].c == c && rs[i].n >= 2
    decreases |rs|
  {
    if |rs| > 0 {
      var r := rs[0];
      var rest := rs[1..];
      var head := Repeat(r.c, r.n);
      RepeatChars(r.c, r.n);
      var tail := Expand(rest);
      ExpandCons(rs);
      assert Apart(rest, c);
      PairOnRuns(rest, c);
      var s := head + tail;
      if ContainsPair(s, c) {
        var i :| 0 < i < |s| && s[i - 1] == c && s[i] == c;
        if i < |head| {
          assert rs[0].c == c && rs[0].n >= 2;
        } else if i > |head| {
          assert tail[i - |head| - 1] == c && tail[i - |head|] == c;
          assert rest[1..] == rs[2..];
          var j :| 0 <= j < |rest| && rest[j].c == c && rest[j].n >= 2;
          assert rs[j + 1] == rest[j];
        }
      }
      if exists i :: 0 <= i < |rs| && rs[i].c == c && rs[i].n >= 2 {
        var i :| 0 <= i < |rs| && rs[i].c == c && rs[i].n >= 2;
        if i == 0 {
          assert s[0] == c && s[1] == c;
        } else {
          assert rest[i - 1] == rs[i];
          var j :| 0 < j < |tail| && tail[j - 1] == c && tail[j] == c;
          assert s[|head| + j - 1] == c && s[|head| + j] == c;
        }
      }
    }
  }

  /** Squashed maximal runs still never put two runs of a digit side by side. */
  lemma SquashAllApart(rs: seq<Run>, k: nat, d: char)
    requires Maximal(rs) && (forall i :: 0 <= i < |rs| ==> rs[i].n > 0) && IsDigit(d)
    ensures Apart(SquashAll(rs, k), d)
  {
    var after := SquashAll(rs, k);
    forall i | 0 < i < |after|
      ensures !(after[i - 1].c == d && after[i].c == d)
    {
      SquashKeepsDigit(rs[i - 1], k, d);
      SquashKeepsDigit(rs[i], k, d);
    }
    forall i | 0 <= i < |after|
      ensures after[i].n > 0
    {
      SquashKeepsDigit(rs[i], k, d);
    }
  }

  /** Replacing the runs of digit k squashes one more digit. */
  lemma SquashNext(rs: seq<Run>, k: nat)
    requires k < 10
    ensures SquashRun(SquashAll(rs, k), DigitChar(k)) == SquashAll(rs, k + 1)
  {
    var before := SquashAll(rs, k);
    forall i | 0 <= i < |rs|
      ensures SquashOne(before[i], DigitChar(k)) == Squash(rs[i], k + 1)
    {
    }
  }

  /** The runs after the digits below k have been replaced. */
  lemma {:induction false} ReplaceDigitRunsOnRuns(s: string, k: nat)
    requires k <= 10
    ensures ReplaceDigitRuns(s, k) == Expand(SquashAll(Encode(s), k))
    decreases k
  {
    var rs := Encode(s);
    if k == 0 {
      EncodeIsMaximal(s);
      assert SquashAll(rs, 0) == rs;
    } else {
      ReplaceDigitRunsOnRuns(s, k - 1);
      EncodeIsMaximal(s);
      SquashAllApart(rs, k - 1, DigitChar(k - 1));
      ReplaceOnRuns(SquashAll(rs, k - 1), DigitChar(k - 1));
      SquashNext(rs, k - 1);
    }
  }

  /** After every digit is squashed, a pair of digit d is a maximal run
      of d of length exactly two. */
  lemma PairAfterSquash(rs: seq<Run>, d: char)
    requires Maximal(rs) && (forall i :: 0 <= i < |rs| ==> rs[i].n > 0) && IsDigit(d)
    ensures ContainsPair(Expand(SquashAll(rs, 10)), d) <==> exists i :: 0 <= i < |rs| && rs[i].c == d && rs[i].n == 2
  {
    var after := SquashAll(rs, 10);
    SquashAllApart(rs, 10, d);
    PairOnRuns(after, d);
    if exists i :: 0 <= i < |after| && after[i].c == d && after[i].n >= 2 {
      var i :| 0 <= i < |after| && after[i].c == d && after[i].n >= 2;
      assert rs[i].c == d && rs[i].n == 2;
    }
    if exists i :: 0 <= i < |rs| && rs[i].c == d && rs[i].n == 2 {
      var i :| 0 <= i < |rs| && rs[i].c == d && rs[i].n == 2;
      assert after[i].c == d && after[i].n >= 2;
    }
  }

  /** Over all ten digits: a digit pair remains after squashing exactly
      when some maximal digit run has length two. */
  lemma PairsOfSquashed(rs: seq<Run>)
    requires Maximal(rs) && (forall i :: 0 <= i < |rs| ==> rs[i].n > 0)
    ensures (exists j :: 0 <= j < 10 && ContainsPair(Expand(SquashAll(rs, 10)), DigitChar(j)))
      <==> exists i :: 0 <= i < |rs| && IsDigit(rs[i].c) && rs[i].n == 2
  {
    var text := Expand(SquashAll(rs, 10));
    if exists j :: 0 <= j < 10 && ContainsPair(text, DigitChar(j)) {
      var j :| 0 <= j < 10 && ContainsPair(text, DigitChar(j));
      PairAfterSquash(rs, DigitChar(j));
      var i :| 0 <= i < |rs| && rs[i].c == DigitChar(j) && rs[i].n == 2;
      assert IsDigit(rs[i].c);
    }
    if exists i :: 0 <= i < |rs| && IsDigit(rs[i].c) && rs[i].n == 2 {
      var i :| 0 <= i < |rs| && IsDigit(rs[i].c) && rs[i].n == 2;
      var j := DigitValue(rs[i].c);
      assert DigitChar(j) == rs[i].c;
      PairAfterSquash(rs, DigitChar(j));
    }
  }

  /** Replacing all long digit runs, a digit pair remains exactly when a
      maximal run of that digit had length two. */
  lemma ReplacedPairs(original: string)
    ensures (exists j :: 0 <= j < 10 && ContainsPair(ReplaceDigitRuns(original, 10), DigitChar(j)))
      <==> exists i :: 0 <= i < |Encode(original)| && IsDigit(Encode(original)[i].c) && Encode(original)[i].n == 2
  {
    EncodeIsMaximal(original);
    ReplaceDigitRunsOnRuns(original, 10);
    PairsOfSquashed(Encode(original));
  }

  // ---------------------------------------------------------------------
  // Part 2's list.

  /** `[x for x in range(start, end + 1) if test(x)]` for a test that may
      raise (None); the first value on which it raises ends the list. */
  function TryFilterRange(test: int -> Option<bool>, start: int, end: int): (r: Option<seq<int>>)
    ensures r.Some? <==> forall x :: start <= x <= end ==> test(x).Some?
    ensures r.Some? ==> forall x :: x in r.value <==> start <= x <= end && test(x) == Some(true)
    decreases end - start
  {
    if start > end then Some([])
    else
      match test(start)
      case None => None
      case Some(valid) =>
        match TryFilterRange(test, start + 1, end)
        case None => None
        case Some(rest) => Some(if valid then [start] + rest else rest)
  }

  lemma {:induction false} TryFilterRangeAscending(test: int -> Option<bool>, start: int, end: int)
    requires TryFilterRange(test, start, end).Some?
    ensures Ascending(TryFilterRange(test, start, end).value)
    decreases end - start
  {
    if start <= end {
      var rest := TryFilterRange(test, start + 1, end).value;
      TryFilterRangeAscending(test, start + 1, end);
      if test(start).value {
        ConsAscending(start, rest);
      }
    }
  }

  /** Part 2's first filter, which raises on values without six digits. */
  function ValidList2(start: int, end: int): Option<seq<int>> {
    TryFilterRange(ValidPassword2, start, end)
  }

  /** `[x for x in xs if test(x)]`. */
  function Filter(test: int -> bool, xs: seq<int>): (r: seq<int>)
    ensures forall x :: x in r <==> x in xs && test(x)
    decreases |xs|
  {
    if |xs| == 0 then []
    else (if test(xs[0]) then [xs[0]] else []) + Filter(test, xs[1..])
  }

  /** Filtering keeps the order of the list it filters. */
  lemma {:induction false} FilterKeepsOrder(test: int -> bool, xs: seq<int>)
    requires Ascending(xs)
    ensures Ascending(Filter(test, xs))
    decreases |xs|
  {
    if |xs| > 0 {
      var tail := xs[1..];
      assert Ascending(tail) by {
        forall i, j | 0 <= i < j < |tail|
          ensures tail[i] < tail[j]
        {
          assert tail[i] == xs[i + 1] && tail[j] == xs[j + 1];
        }
      }
      FilterKeepsOrder(test, tail);
      var rest := Filter(test, tail);
      forall j | 0 <= j < |rest|
        ensures xs[0] < rest[j]
      {
        assert rest[j] in rest;
        var k :| 0 <= k < |tail| && tail[k] == rest[j];
        assert xs[k + 1] == rest[j];
      }
      var r := Filter(test, xs);
      assert r == (if test(xs[0]) then [xs[0]] else []) + rest;
      forall i, j | 0 <= i < j < |r|
        ensures r[i] < r[j]
      {
        if !test(xs[0]) {
          assert r[i] == rest[i] && r[j] == rest[j];
        } else if i > 0 {
          assert r[i] == rest[i - 1] && r[j] == rest[j - 1];
        } else {
          assert r[j] == rest[j - 1];
        }
      }
    }
  }

  /** `getPossiblePasswords` of part 2. */
  function PossiblePasswords2(start: int, end: int): Option<seq<int>> {
    var part1 :- ValidList2(start, end);
    Some(Filter(TripleFree, part1))
  }

  /** Part 2's list is an ascending sublist of its first filter's list,
      holding exactly the values that pass both tests. */
  lemma PossiblePasswords2IsSublist(start: int, end: int)
    requires ValidList2(start, end).Some?
    ensures var part1 := ValidList2(start, end).value;
      var r := PossiblePasswords2(start, end).value;
      Ascending(r) && (forall x :: x in r <==> x in part1 && TripleFree(x))
  {
    TryFilterRangeAscending(ValidPassword2, start, end);
    FilterKeepsOrder(TripleFree, ValidList2(start, end).value);
  }

  /** Within six digits part 2's first filter is part 1's whole test. */
  lemma {:induction false} ValidListsAgree(start: int, end: int)
    requires 100000 <= start && end <= 999999
    ensures ValidList2(start, end) == Some(PossiblePasswords(start, end))
    decreases end - start
  {
    if start <= end {
      ValidPasswordsAgree(start);
      ValidListsAgree(start + 1, end);
      var rest := PossiblePasswords(start + 1, end);
      assert ValidList2(start, end) == Some(if ValidPassword(start) then [start] + rest else rest);
      assert PossiblePasswords(start, end) == (if ValidPassword(start) then [start] else []) + rest;
      assert [] + rest == rest;
    }
  }

  // ---------------------------------------------------------------------
  // The samples.

  /** One value passes exactly when part 1's list for it holds it alone. */
  lemma SingleRange1(x: int)
    ensures PossiblePasswords(x, x) == if ValidPassword(x) then [x] else []
  {
    assert FilterRange(ValidPassword, x + 1, x) == [];
  }

  lemma Digits111111()
    ensures LowDigits(111111, 6) == [1, 1, 1, 1, 1, 1]
  {
  }

  lemma Valid111111()
    ensures ValidPassword(111111)
  {
    Digits111111();
    var ds := [1, 1, 1, 1, 1, 1];
    assert FallsUpTo(ds, 6);
    assert PairUpTo(ds, 6) by {
      assert ds[1] == ds[0];
    }
  }

  /** 111111 has six equal digits. */
  lemma Part1Sample1()
    ensures PossiblePasswords(111111, 111111) == [111111]
  {
    Valid111111();
    SingleRange1(111111);
  }

  /** 223450 has a falling pair, 5 then 0. */
  lemma Part1Sample2()
    ensures PossiblePasswords(223450, 223450) == []
  {
    var ds := LowDigits(223450, 6);
    assert ds == [0, 5, 4, 3, 2, 2];
    assert !FallsUpTo(ds, 6) by {
      assert ds[1] > ds[0];
    }
    SingleRange1(223450);
  }

  /** 123789 has no equal neighbours. */
  lemma Part1Sample3()
    ensures PossiblePasswords(123789, 123789) == []
  {
    var ds := LowDigits(123789, 6);
    assert ds == [9, 8, 7, 3, 2, 1];
    assert !PairUpTo(ds, 6);
    SingleRange1(123789);
  }

  /** Part 2's list for one six-digit value. */
  lemma SingleRange2(x: int)
    requires ValidPassword2(x).Some?
    ensures PossiblePasswords2(x, x) == Some(if ValidPassword2(x).value && TripleFree(x) then [x] else [])
  {
    assert TryFilterRange(ValidPassword2, x + 1, x) == Some([]);
    assert [x] + [] == [x];
    var part1 := if ValidPassword2(x).value then [x] else [];
    assert ValidList2(x, x) == Some(part1);
    if ValidPassword2(x).value {
      assert part1[1..] == [];
      assert Filter(TripleFree, part1) == (if TripleFree(x) then [x] else []) + [];
    } else {
      assert Filter(TripleFree, part1) == [];
    }
  }

  lemma Text112233()
    ensures IntToString(112233) == "112233"
  {
    assert NatToString(1) == "1";
    assert NatToString(11) == "11";
    assert NatToString(112) == "112";
    assert NatToString(1122) == "1122";
    assert NatToString(11223) == "11223";
    assert NatToString(112233) == "112233";
  }

  lemma Digits112233()
    ensures ValidPassword2(112233) == Some(true)
  {
    Text112233();
    var ds := ReadDigits("112233").value;
    assert ds == [1, 1, 2, 2, 3, 3];
    assert ds[0] == ds[1];
  }

  lemma Runs112233()
    ensures Encode(IntToString(112233)) == [Run('1', 2), Run('2', 2), Run('3', 2)]
  {
    Text112233();
    EncodeSample("112233", [Run('1', 2), Run('2', 2), Run('3', 2)]);
  }

  lemma Part2Sample1()
    ensures PossiblePasswords2(112233, 112233) == Some([112233])
  {
    Digits112233();
    Runs112233();
    assert Encode(IntToString(112233))[0].n == 2;
    SingleRange2(112233);
  }

  lemma Text123444()
    ensures IntToString(123444) == "123444"
  {
    assert NatToString(1) == "1";
    assert NatToString(12) == "12";
    assert NatToString(123) == "123";
    assert NatToString(1234) == "1234";
    assert NatToString(12344) == "12344";
    assert NatToString(123444) == "123444";
  }

  lemma Digits123444()
    ensures ValidPassword2(123444) == Some(true)
  {
    Text123444();
    var ds := ReadDigits("123444").value;
    assert ds == [1, 2, 3, 4, 4, 4];
    assert ds[3] == ds[4];
  }

  lemma Runs123444()
    ensures Encode(IntToString(123444)) == [Run('1', 1), Run('2', 1), Run('3', 1), Run('4', 3)]
  {
    Text123444();
    EncodeSample("123444", [Run('1', 1), Run('2', 1), Run('3', 1), Run('4', 3)]);
  }

  /** 123444's only run longer than one is a triple. */
  lemma Triple123444()
    ensures !TripleFree(123444)
  {
    NoPairRuns();
    Runs123444();
  }

  lemma NoPairRuns()
    ensures !HasDigitPair([Run('1', 1), Run('2', 1), Run('3', 1), Run('4', 3)])
  {
    var rs := [Run('1', 1), Run('2', 1), Run('3', 1), Run('4', 3)];
    assert forall i :: 0 <= i < 4 ==> rs[i].n != 2;
  }

  lemma Part2Sample2()
    ensures PossiblePasswords2(123444, 123444) == Some([])
  {
    Digits123444();
    Triple123444();
    SingleRange2(123444);
  }

  lemma Text111122()
    ensures IntToString(111122) == "111122"
  {
    assert NatToString(1) == "1";
    assert NatToString(11) == "11";
    assert NatToString(111) == "111";
    assert NatToString(1111) == "1111";
    assert NatToString(11112) == "11112";
    assert NatToString(111122) == "111122";
  }

  lemma Digits111122()
    ensures ValidPassword2(111122) == Some(true)
  {
    Text111122();
    var ds := ReadDigits("111122").value;
    assert ds == [1, 1, 1, 1, 2, 2];
    assert ds[0] == ds[1];
  }

  lemma Runs111122()
    ensures Encode(IntToString(111122)) == [Run('1', 4), Run('2', 2)]
  {
    Text111122();
    EncodeSample("111122", [Run('1', 4), Run('2', 2)]);
  }

  lemma Part2Sample3()
    ensures PossiblePasswords2(111122, 111122) == Some([111122])
  {
    Digits111122();
    Runs111122();
    assert Encode(IntToString(111122))[1].n == 2;
    SingleRange2(111122);
  }

  /** Encoding a sample text, run by run. */
  lemma EncodeSample(s: string, rs: seq<Run>)
    requires Maximal(rs) && (forall i :: 0 <= i < |rs| ==> rs[i].n > 0) && Expand(rs) == s
    ensures Encode(s) == rs
  {
    EncodeExpand(rs);
  }
}
