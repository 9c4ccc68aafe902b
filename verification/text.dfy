/** Strings as the sources use them: prefixes, splitting on one character, lexicographic order. */
module Text {

  predicate HasPrefix(s: string, p: string) { |p| <= |s| && s[..|p|] == p }

  predicate HasSuffix(s: string, p: string) { |p| <= |s| && s[|s| - |p|..] == p }

  function TrimPrefix(s: string, p: string): string { if HasPrefix(s, p) then s[|p|..] else s }

  function TrimSuffix(s: string, p: string): string { if HasSuffix(s, p) then s[..|s| - |p|] else s }

  /** The pieces of `s` between occurrences of `sep`; never empty. */
  function Split(s: string, sep: char): (parts: seq<string>)
    ensures |parts| >= 1
  {
    if s == "" then [""]
    else
      var rest := Split(s[1..], sep);
      if s[0] == sep then [""] + rest else [[s[0]] + rest[0]] + rest[1..]
  }

  function Join(parts: seq<string>, sep: char): string {
    if |parts| == 0 then ""
    else if |parts| == 1 then parts[0]
    else parts[0] + [sep] + Join(parts[1..], sep)
  }

  /** Joining with a longer separator. */
  function JoinedWith(parts: seq<string>, sep: string): string {
    if |parts| == 0 then ""
    else if |parts| == 1 then parts[0]
    else JoinedWith(parts[..|parts| - 1], sep) + sep + parts[|parts| - 1]
  }

  function Decimal(n: nat): string {
    (if n < 10 then "" else Decimal(n / 10)) + ["0123456789"[n % 10]]
  }

  function Signed(n: int): string { if n < 0 then "-" + Decimal(-n) else Decimal(n) }

  function LastPart(s: string, sep: char): string {
    var parts := Split(s, sep);
    parts[|parts| - 1]
  }

  /** Splitting leaves no separator inside a piece. */
  lemma {:induction false} SplitPieces(s: string, sep: char)
    ensures forall i :: 0 <= i < |Split(s, sep)| ==> sep !in Split(s, sep)[i]
  {
    if s != "" { SplitPieces(s[1..], sep); }
  }

  lemma {:induction false} JoinSplit(s: string, sep: char)
    ensures Join(Split(s, sep), sep) == s
  {
    if s != "" {
      var rest := Split(s[1..], sep);
      JoinSplit(s[1..], sep);
      if s[0] == sep {
        assert ([""] + rest)[1..] == rest;
      } else {
        var parts := [[s[0]] + rest[0]] + rest[1..];
        assert Split(s, sep) == parts;
        if |rest| > 1 { assert parts[1..] == rest[1..]; }
      }
    }
  }

  /** Pieces without separators survive joining and splitting. */
  lemma {:induction false} SplitJoin(parts: seq<string>, sep: char)
    requires |parts| >= 1 && forall i :: 0 <= i < |parts| ==> sep !in parts[i]
    ensures Split(Join(parts, sep), sep) == parts
  {
    if |parts| == 1 {
      SplitPlain(parts[0], sep);
    } else {
      SplitJoin(parts[1..], sep);
      SplitFirst(parts[0], Join(parts[1..], sep), sep);
      assert parts == [parts[0]] + parts[1..];
    }
  }

  lemma {:induction false} SplitPlain(s: string, sep: char)
    requires sep !in s
    ensures Split(s, sep) == [s]
  {
    if s != "" {
      assert s[0] in s;
      SplitPlain(s[1..], sep);
      assert s == [s[0]] + s[1..];
    }
  }

  lemma {:induction false} SplitBoth(s: string, t: string, sep: char)
    ensures Split(s + [sep] + t, sep) == Split(s, sep) + Split(t, sep)
  {
    var w := s + [sep] + t;
    if s == "" {
      assert w[1..] == t;
    } else {
      assert w[1..] == s[1..] + [sep] + t;
      SplitBoth(s[1..], t, sep);
    }
  }

  lemma SplitFirst(s: string, t: string, sep: char)
    requires sep !in s
    ensures Split(s + [sep] + t, sep) == [s] + Split(t, sep)
  {
    SplitBoth(s, t, sep);
    SplitPlain(s, sep);
  }

  // ---- lexicographic order ----

  predicate Less(a: string, b: string) {
    b != "" && (a == "" || a[0] < b[0] || (a[0] == b[0] && Less(a[1..], b[1..])))
  }

  lemma {:induction false} LessTotal(a: string, b: string)
    ensures Less(a, b) || Less(b, a) || a == b
  {
    if a != "" && b != "" && a[0] == b[0] {
      LessTotal(a[1..], b[1..]);
      assert a == [a[0]] + a[1..] && b == [b[0]] + b[1..];
    }
  }

  lemma {:induction false} LessTransitive(a: string, b: string, c: string)
    requires Less(a, b) && Less(b, c)
    ensures Less(a, c)
  {
    if a != "" && a[0] == b[0] == c[0] { LessTransitive(a[1..], b[1..], c[1..]); }
  }

  lemma {:induction false} LessAsymmetric(a: string, b: string)
    requires Less(a, b)
    ensures !Less(b, a) && a != b
  {
    if a != "" && a[0] == b[0] { LessAsymmetric(a[1..], b[1..]); }
  }

  /** What the order is: a proper prefix, or the smaller character at the first difference. */
  lemma {:induction false} LessIff(a: string, b: string)
    ensures Less(a, b) <==> exists n: nat :: FirstDifference(a, b, n)
    decreases |a|
  {
    if a != "" && b != "" && a[0] == b[0] {
      LessIff(a[1..], b[1..]);
      if n: nat :| FirstDifference(a[1..], b[1..], n) { DifferenceLater(a, b, n); }
      if n: nat :| FirstDifference(a, b, n) { DifferenceEarlier(a, b, n); }
    } else if Less(a, b) {
      assert FirstDifference(a, b, 0);
    } else {
      forall n: nat ensures !FirstDifference(a, b, n) { StartsAfter(a, b, n); }
    }
  }

  lemma StartsAfter(a: string, b: string, n: nat)
    requires b == "" || (a != "" && a[0] > b[0])
    ensures !FirstDifference(a, b, n)
  {
    if 0 < n <= |a| && n < |b| { assert a[..n][0] != b[..n][0]; }
  }

  predicate FirstDifference(a: string, b: string, n: nat) {
    n <= |a| && n < |b| && a[..n] == b[..n] && (n == |a| || a[n] < b[n])
  }

  lemma DifferenceLater(a: string, b: string, n: nat)
    requires a != "" && b != "" && a[0] == b[0] && FirstDifference(a[1..], b[1..], n)
    ensures FirstDifference(a, b, n + 1)
  {
    assert a[..n + 1] == [a[0]] + a[1..][..n] && b[..n + 1] == [b[0]] + b[1..][..n];
  }

  lemma DifferenceEarlier(a: string, b: string, n: nat)
    requires a != "" && b != "" && a[0] == b[0] && FirstDifference(a, b, n)
    ensures n > 0 && FirstDifference(a[1..], b[1..], n - 1)
  {
    assert a[1..][..n - 1] == a[..n][1..] && b[1..][..n - 1] == b[..n][1..];
  }

  // ---- decimal numbers ----

  function Digit(c: char): int { c as int - '0' as int }

  function Reading(s: string): int {
    if s == "" then 0 else Reading(s[..|s| - 1]) * 10 + Digit(s[|s| - 1])
  }

  /** The text of a number reads back as it, and has no leading zero but for 0 itself. */
  lemma {:induction false} DecimalReads(n: nat)
    ensures Reading(Decimal(n)) == n && |Decimal(n)| >= 1
    ensures forall i :: 0 <= i < |Decimal(n)| ==> '0' <= Decimal(n)[i] <= '9'
    ensures n > 0 ==> Decimal(n)[0] != '0'
    decreases n
  {
    var head, last := if n < 10 then "" else Decimal(n / 10), "0123456789"[n % 10];
    if n >= 10 { DecimalReads(n / 10); }
    LastDigit(n % 10);
    hide Decimal, Reading, Digit;
    DecimalSplits(n, head, last);
    ReadingSnoc(head, last);
    if n < 10 { ReadingNothing(); }
  }

  lemma DecimalSplits(n: nat, head: string, last: char)
    requires head == (if n < 10 then "" else Decimal(n / 10)) && last == "0123456789"[n % 10]
    ensures Decimal(n) == head + [last]
  {
  }

  lemma ReadingNothing()
    ensures Reading("") == 0
  {
  }

  lemma ReadingSnoc(s: string, c: char)
    ensures Reading(s + [c]) == Reading(s) * 10 + Digit(c)
  {
    assert (s + [c])[..|s|] == s;
  }

  lemma LastDigit(d: nat)
    requires d < 10
    ensures Digit("0123456789"[d]) == d && '0' <= "0123456789"[d] <= '9' && (d > 0 ==> "0123456789"[d] != '0')
  {
  }
}
