/** The severity order and the stable sort of signals. */
module Ranking {
  import opened Verdicts
  import opened Text
  import opened Seqs

  /** sevRank: unknown severities rank lowest. */
  function Rank(s: Severity): nat {
    match s
    case Critical => 5
    case High => 4
    case Medium => 3
    case Low => 2
    case Info => 1
    case Ungraded(_) => 0
  }

  /** What the comparison looks at. */
  datatype SortKey = SortKey(rank: nat, stage: string, rule: string)

  function KeyOf(s: Signal): SortKey { SortKey(Rank(s.severity), s.stage, s.rule) }

  /** Most severe first, then by stage, then by rule. */
  predicate KeyBefore(a: SortKey, b: SortKey) {
    if a.rank != b.rank then a.rank > b.rank
    else if a.stage != b.stage then Less(a.stage, b.stage)
    else Less(a.rule, b.rule)
  }

  predicate Before(a: Signal, b: Signal) { KeyBefore(KeyOf(a), KeyOf(b)) }

  lemma KeyTotal(a: SortKey, b: SortKey)
    ensures KeyBefore(a, b) || KeyBefore(b, a) || a == b
  {
    LessTotal(a.stage, b.stage);
    LessTotal(a.rule, b.rule);
  }

  lemma KeyAsymmetric(a: SortKey, b: SortKey)
    requires KeyBefore(a, b)
    ensures !KeyBefore(b, a) && a != b
  {
    if Less(a.stage, b.stage) { LessAsymmetric(a.stage, b.stage); }
    if Less(a.rule, b.rule) { LessAsymmetric(a.rule, b.rule); }
  }

  /** Not-after is transitive. */
  lemma KeyTransitive(a: SortKey, b: SortKey, c: SortKey)
    requires !KeyBefore(b, a) && !KeyBefore(c, b)
    ensures !KeyBefore(c, a)
  {
    KeyTotal(a, b);
    KeyTotal(b, c);
    if KeyBefore(a, b) && KeyBefore(b, c) {
      if a.stage != b.stage && b.stage != c.stage && Less(a.stage, b.stage) && Less(b.stage, c.stage) {
        LessTransitive(a.stage, b.stage, c.stage);
      }
      if Less(a.rule, b.rule) && Less(b.rule, c.rule) { LessTransitive(a.rule, b.rule, c.rule); }
      if a.stage == c.stage && a.stage != b.stage && Less(a.stage, b.stage) { LessAsymmetric(a.stage, b.stage); }
      assert KeyBefore(a, c);
      KeyAsymmetric(a, c);
    } else if KeyBefore(a, b) {
      KeyAsymmetric(a, b);
    } else if KeyBefore(b, c) {
      KeyAsymmetric(b, c);
    }
  }

  ghost predicate Sorted(s: seq<Signal>) {
    forall i, j :: 0 <= i < j < |s| ==> !Before(s[j], s[i])
  }

  /** The signals with key k, in order. */
  function Class(s: seq<Signal>, k: SortKey): seq<Signal> {
    if s == [] then []
    else
      var n := |s| - 1;
      Class(s[..n], k) + (if KeyOf(s[n]) == k then [s[n]] else [])
  }

  /** `out` is the stable sort of `s`: sorted, and signals of one key keep their order. */
  ghost predicate StableSort(s: seq<Signal>, out: seq<Signal>) {
    && Sorted(out)
    && (forall k :: Class(out, k) == Class(s, k))
    && multiset(out) == multiset(s)
  }

  /** Insert x into a sorted prefix, behind everything it does not come before. */
  function Insert(s: seq<Signal>, x: Signal): seq<Signal> {
    if s == [] then [x]
    else
      var n := |s| - 1;
      if Before(x, s[n]) then Insert(s[..n], x) + [s[n]] else s + [x]
  }

  function InsertAll(s: seq<Signal>): seq<Signal> {
    if s == [] then [] else Insert(InsertAll(s[..|s| - 1]), s[|s| - 1])
  }

  lemma {:induction false} InsertSorts(s: seq<Signal>, x: Signal)
    requires Sorted(s)
    ensures Sorted(Insert(s, x)) && |Insert(s, x)| == |s| + 1
    ensures forall i :: 0 <= i < |Insert(s, x)| ==> Insert(s, x)[i] in s || Insert(s, x)[i] == x
    decreases |s|
  {
    if s != [] {
      var n := |s| - 1;
      if Before(x, s[n]) {
        InsertSorts(s[..n], x);
        KeyAsymmetric(KeyOf(x), KeyOf(s[n]));
      } else {
        forall i | 0 <= i < n ensures !Before(x, s[i]) {
          KeyTransitive(KeyOf(s[i]), KeyOf(s[n]), KeyOf(x));
        }
      }
    }
  }

  lemma {:induction false} InsertKeepsClasses(s: seq<Signal>, x: Signal, k: SortKey)
    ensures Class(Insert(s, x), k) == Class(s + [x], k)
    decreases |s|
  {
    assert (s + [x])[..|s|] == s;
    if s != [] {
      var n := |s| - 1;
      if Before(x, s[n]) {
        InsertKeepsClasses(s[..n], x, k);
        var t := Insert(s[..n], x) + [s[n]];
        assert t[..|t| - 1] == Insert(s[..n], x);
        assert (s[..n] + [x])[..n] == s[..n];
        KeyAsymmetric(KeyOf(x), KeyOf(s[n]));
      }
    }
  }

  lemma {:induction false} InsertKeepsAll(s: seq<Signal>, x: Signal)
    ensures multiset(Insert(s, x)) == multiset(s) + multiset{x}
    decreases |s|
  {
    if s != [] {
      var n := |s| - 1;
      assert s == s[..n] + [s[n]];
      if Before(x, s[n]) { InsertKeepsAll(s[..n], x); }
    }
  }

  lemma {:induction false} InsertAllIsStableSort(s: seq<Signal>)
    ensures StableSort(s, InsertAll(s))
    decreases |s|
  {
    if s != [] {
      var n := |s| - 1;
      var p := InsertAll(s[..n]);
      assert s == s[..n] + [s[n]];
      InsertAllIsStableSort(s[..n]);
      InsertSorts(p, s[n]);
      InsertKeepsAll(p, s[n]);
      forall k ensures Class(Insert(p, s[n]), k) == Class(s, k) {
        InsertKeepsClasses(p, s[n], k);
        assert (p + [s[n]])[..|p|] == p;
      }
    }
  }

  lemma InsertPastOne(p: seq<Signal>, j: nat, x: Signal)
    requires 0 < j <= |p| && Before(x, p[j - 1])
    ensures Insert(p[..j], x) + p[j..] == Insert(p[..j - 1], x) + p[j - 1..]
  {
    assert p[..j][..j - 1] == p[..j - 1];
    assert p[j - 1..] == [p[j - 1]] + p[j..];
  }

  /** The array while x sits at position j of the sorted run p. */
  function Sifting(p: seq<Signal>, j: nat, x: Signal, rest: seq<Signal>): (s: seq<Signal>)
    requires j <= |p|
    ensures |s| == |p| + 1 + |rest|
    ensures s[j] == x && (j > 0 ==> s[j - 1] == p[j - 1])
    ensures j > 0 ==> s[j - 1 := x][j := p[j - 1]] == p[..j - 1] + [x] + p[j - 1..] + rest
  {
    p[..j] + [x] + p[j..] + rest
  }

  /** Moves a[i] down to its place among the sorted elements before it. */
  method SiftDown(a: array<Signal>, i: nat)
    requires i < a.Length
    modifies a
    ensures a[..i + 1] == Insert(old(a[..i]), old(a[i])) && a[i + 1..] == old(a[i + 1..])
  {
    ghost var p, rest := a[..i], a[i + 1..];
    var x := a[i];
    var j := i;
    assert p[..i] == p && p[i..] == [];
    assert a[..] == Sifting(p, i, x, rest);
    while j > 0 && Before(a[j], a[j - 1])
      invariant 0 <= j <= i && a[..] == Sifting(p, j, x, rest)
      invariant Insert(p, x) == Insert(p[..j], x) + p[j..]
    {
      ghost var was := a[..];
      assert was[j] == x && was[j - 1] == p[j - 1];
      InsertPastOne(p, j, x);
      a[j - 1], a[j] := a[j], a[j - 1];
      assert a[..] == was[j - 1 := x][j := p[j - 1]];
      j := j - 1;
    }
    assert a[..][j] == x && (j > 0 ==> a[..][j - 1] == p[j - 1]);
    assert Insert(p[..j], x) == p[..j] + [x];
    assert a[..i + 1] == a[..][..i + 1] == p[..j] + [x] + p[j..];
    assert a[i + 1..] == a[..][i + 1..] == rest;
  }

  /** Returns a sorted copy; the input sequence is a value and stays as it is. */
  method SortSignals(s: seq<Signal>) returns (out: seq<Signal>)
    ensures out == InsertAll(s) && StableSort(s, out)
  {
    InsertAllIsStableSort(s);
    if s == [] { return []; }
    var a := new Signal[|s|](i requires 0 <= i < |s| => s[i]);
    assert a[..] == s;
    for i := 0 to |s|
      invariant a[..i] == InsertAll(s[..i]) && a[i..] == s[i..]
    {
      assert a[i] == a[i..][0] && s[i] == s[i..][0];
      assert a[i + 1..] == a[i..][1..] && s[i + 1..] == s[i..][1..];
      assert s[..i + 1][..i] == s[..i];
      SiftDown(a, i);
    }
    assert s[..|s|] == s;
    assert a[..] == a[..|s|];
    out := a[..];
  }

  // ---- what a stable sort is good for ----

  lemma {:induction false} ClassIn(s: seq<Signal>, k: SortKey, x: Signal)
    ensures x in Class(s, k) <==> x in s && KeyOf(x) == k
    decreases |s|
  {
    if s != [] {
      var n := |s| - 1;
      assert s == s[..n] + [s[n]];
      ClassIn(s[..n], k, x);
    }
  }

  lemma DropLast(s: seq<Signal>, k: SortKey)
    requires s != []
    ensures KeyOf(s[|s| - 1]) != k ==> Class(s[..|s| - 1], k) == Class(s, k)
    ensures KeyOf(s[|s| - 1]) == k ==>
              Class(s, k) != [] && Class(s[..|s| - 1], k) == Class(s, k)[..|Class(s, k)| - 1]
              && Class(s, k)[|Class(s, k)| - 1] == s[|s| - 1]
  {
  }

  lemma OccupiedTogether(a: seq<Signal>, b: seq<Signal>)
    requires forall k :: Class(a, k) == Class(b, k)
    ensures a != [] ==> b != []
  {
    if a != [] {
      var k := KeyOf(a[0]);
      ClassIn(a, k, a[0]);
      assert Class(b, k) == Class(a, k) != [];
    }
  }

  /** The specification leaves no choice. */
  lemma {:induction false} StableSortIsUnique(a: seq<Signal>, b: seq<Signal>)
    requires Sorted(a) && Sorted(b) && forall k :: Class(a, k) == Class(b, k)
    ensures a == b
    decreases |a|
  {
    OccupiedTogether(a, b);
    OccupiedTogether(b, a);
    if a != [] {
      var m, n := |a| - 1, |b| - 1;
      LastKeysAgree(a, b);
      var k := KeyOf(a[m]);
      DropLast(a, k);
      DropLast(b, k);
      assert Class(a, k) == Class(b, k);
      forall c ensures Class(a[..m], c) == Class(b[..n], c) {
        assert Class(a, c) == Class(b, c);
        DropLast(a, c);
        DropLast(b, c);
      }
      StableSortIsUnique(a[..m], b[..n]);
      assert a == a[..m] + [a[m]] && b == b[..n] + [b[n]];
    }
  }

  lemma LastKeysAgree(a: seq<Signal>, b: seq<Signal>)
    requires Sorted(a) && Sorted(b) && a != [] && b != [] && forall k :: Class(a, k) == Class(b, k)
    ensures KeyOf(a[|a| - 1]) == KeyOf(b[|b| - 1])
  {
    var x, y := a[|a| - 1], b[|b| - 1];
    ClassIn(a, KeyOf(x), x);
    ClassIn(b, KeyOf(x), x);
    ClassIn(b, KeyOf(y), y);
    ClassIn(a, KeyOf(y), y);
    assert Class(a, KeyOf(x)) == Class(b, KeyOf(x)) && Class(a, KeyOf(y)) == Class(b, KeyOf(y));
    assert x in b && y in a;
    var i :| 0 <= i < |b| && b[i] == x;
    var j :| 0 <= j < |a| && a[j] == y;
    if i < |b| - 1 { assert !Before(b[|b| - 1], b[i]); }
    if j < |a| - 1 { assert !Before(a[|a| - 1], a[j]); }
    KeyTotal(KeyOf(x), KeyOf(y));
  }

  ghost predicate DistinctKeys(s: seq<Signal>) {
    forall i, j :: 0 <= i < j < |s| ==> KeyOf(s[i]) != KeyOf(s[j])
  }

  lemma {:induction false} SingletonClass(s: seq<Signal>, i: nat)
    requires i < |s| && DistinctKeys(s)
    ensures Class(s, KeyOf(s[i])) == [s[i]]
    decreases |s|
  {
    var n := |s| - 1;
    if i < n {
      SingletonClass(s[..n], i);
    } else {
      var before := Class(s[..n], KeyOf(s[n]));
      if before != [] { ClassIn(s[..n], KeyOf(s[n]), before[0]); }
    }
  }

  /** With distinct keys the output does not depend on the input order at all. */
  lemma OrderDoesNotMatter(s: seq<Signal>, t: seq<Signal>)
    requires multiset(s) == multiset(t) && DistinctKeys(s) && DistinctKeys(t)
    ensures InsertAll(s) == InsertAll(t)
  {
    InsertAllIsStableSort(s);
    InsertAllIsStableSort(t);
    forall k ensures Class(s, k) == Class(t, k) {
      SameClass(s, t, k);
      SameClass(t, s, k);
    }
    StableSortIsUnique(InsertAll(s), InsertAll(t));
  }

  lemma SameClass(s: seq<Signal>, t: seq<Signal>, k: SortKey)
    requires multiset(s) == multiset(t) && DistinctKeys(s) && DistinctKeys(t)
    ensures Class(s, k) != [] ==> Class(s, k) == Class(t, k)
  {
    if Class(s, k) != [] {
      var x := Class(s, k)[0];
      ClassIn(s, k, x);
      var i :| 0 <= i < |s| && s[i] == x;
      assert x in multiset(t);
      var j :| 0 <= j < |t| && t[j] == x;
      SingletonClass(s, i);
      SingletonClass(t, j);
    }
  }

  /** The grades from the worst down; anything else comes after them. */
  const LADDER := [Critical, High, Medium, Low, Info]

  /** What comes first: the worse grade, then the stage, then the rule, both in the order of strings. */
  lemma BeforeMeans(a: Signal, b: Signal)
    ensures forall i, j :: 0 <= i < j < 5 && a.severity == LADDER[i] && b.severity == LADDER[j] ==> Before(a, b)
    ensures forall i :: 0 <= i < 5 && a.severity == LADDER[i] && b.severity.Ungraded? ==> Before(a, b)
    ensures a.severity == b.severity && a.stage != b.stage ==> (Before(a, b) <==> Less(a.stage, b.stage))
    ensures a.severity == b.severity && a.stage == b.stage ==> (Before(a, b) <==> Less(a.rule, b.rule))
  {
  }
}
