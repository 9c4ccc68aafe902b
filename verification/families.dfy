/**
 Which packages are put together, in terms of the rows alone: ten of one ecosystem on one day, or three
 of one ecosystem whose names begin with the same two hyphen-free tokens.
*/
module Families {
  import opened Text
  import opened UnionFind
  import opened Campaigns

  /** The rows an ecosystem has on a day. */
  function OnDay(rows: seq<Row>, ecosystem: string, date: string): set<nat> {
    set i: nat | i < |rows| && rows[i].ecosystem == ecosystem && rows[i].date == date
  }

  /** The rows of an ecosystem whose names are a-b-something. */
  function InFamily(rows: seq<Row>, ecosystem: string, a: string, b: string): set<nat> {
    set i: nat | i < |rows| && rows[i].ecosystem == ecosystem && HasPrefix(rows[i].name, a + "-" + b + "-")
  }

  predicate Plain(token: string) { '-' !in token }

  // ---- names ----

  lemma {:induction false} SameFirstToken(a: string, b: string, c: string, d: string)
    requires Plain(a) && Plain(c) && a + "-" + b == c + "-" + d
    ensures a == c && b == d
  {
    var s, t := a + "-" + b, c + "-" + d;
    assert s[|a|] == '-' && t[|c|] == '-';
    assert forall k :: 0 <= k < |a| ==> s[k] == a[k] && a[k] in a;
    assert forall k :: 0 <= k < |c| ==> t[k] == c[k] && c[k] in c;
    assert s[..|a|] == a && t[..|a|] == c;
    assert s[|a| + 1..] == b && t[|a| + 1..] == d;
  }

  lemma JoinTwo(p: string, q: string)
    ensures Join([p, q], '-') == p + "-" + q
  {
    assert [p, q][1..] == [q];
  }

  /** The first two tokens, as a prefix of the name. */
  lemma FirstTwoTokens(name: string, a: string, b: string)
    requires Plain(a) && Plain(b)
    ensures |Split(name, '-')| > 2 && Join(Split(name, '-')[..2], '-') == a + "-" + b
            <==> HasPrefix(name, a + "-" + b + "-")
  {
    var parts := Split(name, '-');
    if HasPrefix(name, a + "-" + b + "-") {
      var rest := name[|a| + |b| + 2..];
      assert name == a + "-" + (b + "-" + rest);
      SplitFirst(a, b + "-" + rest, '-');
      SplitFirst(b, rest, '-');
      assert parts == [a] + ([b] + Split(rest, '-'));
      assert parts[..2] == [a, b];
      JoinTwo(a, b);
    }
    if |parts| > 2 && Join(parts[..2], '-') == a + "-" + b {
      SplitPieces(name, '-');
      JoinSplit(name, '-');
      assert parts[..2] == [parts[0], parts[1]];
      JoinTwo(parts[0], parts[1]);
      SameFirstToken(parts[0], parts[1], a, b);
      assert parts[1..][1..] == parts[2..];
      assert name == a + "-" + (b + "-" + Join(parts[2..], '-'));
      assert name[..|a| + |b| + 2] == a + "-" + b + "-";
    }
  }

  /** A name of more than two tokens has a first two. */
  lemma TokensOf(name: string) returns (a: string, b: string)
    requires |Split(name, '-')| > 2
    ensures Plain(a) && Plain(b) && HasPrefix(name, a + "-" + b + "-")
    ensures Join(Split(name, '-')[..2], '-') == a + "-" + b
  {
    var parts := Split(name, '-');
    SplitPieces(name, '-');
    a, b := parts[0], parts[1];
    assert parts[..2] == [a, b];
    JoinTwo(a, b);
    FirstTwoTokens(name, a, b);
  }

  // ---- groups ----

  function Positions(rows: seq<Row>, g: Group): set<nat> { set i: nat | i < |rows| && InGroup(rows[i], g) }

  lemma {:induction false} MembersCounted(rows: seq<Row>, g: Group)
    ensures |Members(rows, g)| == |Positions(rows, g)|
    decreases |rows|
  {
    if rows != [] {
      var n := |rows| - 1;
      MembersCounted(rows[..n], g);
      var before := Positions(rows[..n], g);
      assert Positions(rows, g) == if InGroup(rows[n], g) then before + {n} else before;
    }
  }

  lemma {:induction false} MemberRow(rows: seq<Row>, g: Group, x: Key)
    ensures x in Members(rows, g) <==> exists i: nat :: i in Positions(rows, g) && KeyOf(rows[i]) == x
    decreases |rows|
  {
    if rows != [] {
      var n := |rows| - 1;
      MemberRow(rows[..n], g, x);
      if i: nat :| i in Positions(rows[..n], g) && KeyOf(rows[..n][i]) == x { assert i in Positions(rows, g); }
      if i: nat :| i in Positions(rows, g) && KeyOf(rows[i]) == x {
        if i < n { assert i in Positions(rows[..n], g); }
      }
    }
  }

  lemma DayPositions(rows: seq<Row>, ecosystem: string, date: string)
    ensures Positions(rows, Day(ecosystem, date)) == OnDay(rows, ecosystem, date)
  {
  }

  lemma FamilyPositions(rows: seq<Row>, ecosystem: string, a: string, b: string)
    requires Plain(a) && Plain(b)
    ensures Positions(rows, Prefix(ecosystem, a + "-" + b)) == InFamily(rows, ecosystem, a, b)
  {
    forall i: nat | i < |rows|
      ensures InGroup(rows[i], Prefix(ecosystem, a + "-" + b))
              <==> rows[i].ecosystem == ecosystem && HasPrefix(rows[i].name, a + "-" + b + "-") {
      FirstTwoTokens(rows[i].name, a, b);
    }
  }

  // ---- together ----

  ghost predicate SharesDay(rows: seq<Row>, i: nat, j: nat)
    requires i < |rows| && j < |rows|
  {
    && rows[i].ecosystem == rows[j].ecosystem && rows[i].date == rows[j].date
    && |OnDay(rows, rows[i].ecosystem, rows[i].date)| >= 10
  }

  ghost predicate SharesName(rows: seq<Row>, i: nat, j: nat)
    requires i < |rows| && j < |rows|
  {
    exists a, b :: Plain(a) && Plain(b) && {i, j} <= InFamily(rows, rows[i].ecosystem, a, b)
                   && |InFamily(rows, rows[i].ecosystem, a, b)| >= 3
  }

  lemma RowsTogether(rows: seq<Row>, i: nat, j: nat)
    requires i < |rows| && j < |rows| && (SharesDay(rows, i, j) || SharesName(rows, i, j))
    ensures Together(rows, KeyOf(rows[i]), KeyOf(rows[j]))
  {
    var e := rows[i].ecosystem;
    var g;
    if SharesDay(rows, i, j) {
      g := Day(e, rows[i].date);
      DayPositions(rows, e, rows[i].date);
    } else {
      var a, b :| Plain(a) && Plain(b) && {i, j} <= InFamily(rows, e, a, b) && |InFamily(rows, e, a, b)| >= 3;
      g := Prefix(e, a + "-" + b);
      FamilyPositions(rows, e, a, b);
      assert i in {i, j} && j in {i, j};
    }
    assert i in Positions(rows, g) && j in Positions(rows, g);
    MembersCounted(rows, g);
    MemberRow(rows, g, KeyOf(rows[i]));
    MemberRow(rows, g, KeyOf(rows[j]));
  }

  lemma TogetherRows(rows: seq<Row>, x: Key, y: Key) returns (i: nat, j: nat)
    requires Together(rows, x, y)
    ensures Lists(rows, i, x) && Lists(rows, j, y)
    ensures SharesDay(rows, i, j) || SharesName(rows, i, j)
  {
    var g :| Campaign(rows, g) && x in Members(rows, g) && y in Members(rows, g);
    MembersCounted(rows, g);
    MemberRow(rows, g, x);
    MemberRow(rows, g, y);
    i :| i in Positions(rows, g) && KeyOf(rows[i]) == x;
    j :| j in Positions(rows, g) && KeyOf(rows[j]) == y;
    if g.Day? {
      DayPositions(rows, g.ecosystem, g.date);
    } else {
      var a, b := TokensOf(rows[i].name);
      FamilyPositions(rows, g.ecosystem, a, b);
    }
  }

  predicate Lists(rows: seq<Row>, i: nat, x: Key) {
    i < |rows| && rows[i].ecosystem == x.ecosystem && rows[i].name == x.name
  }

  /**
   Two packages are put together directly exactly when rows of theirs share an ecosystem and a day that
   has at least ten rows, or an ecosystem and the first two of three or more tokens with at least three
   rows.
  */
  lemma TogetherIff(rows: seq<Row>, x: Key, y: Key)
    ensures Together(rows, x, y) <==>
              exists i: nat, j: nat ::
                Lists(rows, i, x) && Lists(rows, j, y) && (SharesDay(rows, i, j) || SharesName(rows, i, j))
  {
    if Together(rows, x, y) { var i, j := TogetherRows(rows, x, y); }
    if i: nat, j: nat :|
      Lists(rows, i, x) && Lists(rows, j, y) && (SharesDay(rows, i, j) || SharesName(rows, i, j)) {
      RowsTogether(rows, i, j);
    }
  }

  // ---- what follows for whole campaigns ----

  lemma AtLeastThree(s: set<nat>, i: nat, j: nat, k: nat)
    requires i in s && j in s && k in s && i != j && j != k && i != k
    ensures |s| >= 3
  {
    assert {i, j, k} <= s;
    assert s == {i, j, k} + (s - {i, j, k});
  }

  /** Three rows a-b-x, a-b-y, a-b-z of one ecosystem are one campaign, on whatever days they were seen. */
  lemma FamilyIsLinked(rows: seq<Row>, i: nat, j: nat, k: nat, a: string, b: string, x: string, y: string, z: string)
    requires i < |rows| && j < |rows| && k < |rows| && i != j && j != k && i != k
    requires rows[i].ecosystem == rows[j].ecosystem == rows[k].ecosystem && '-' !in a && '-' !in b
    requires rows[i].name == a + "-" + b + "-" + x && rows[j].name == a + "-" + b + "-" + y && rows[k].name == a + "-" + b + "-" + z
    ensures Linked(rows, KeyOf(rows[i]), KeyOf(rows[j])) && Linked(rows, KeyOf(rows[j]), KeyOf(rows[k]))
  {
    var e := rows[i].ecosystem;
    assert {i, j, k} <= InFamily(rows, e, a, b);
    AtLeastThree(InFamily(rows, e, a, b), i, j, k);
    assert {i, j} <= InFamily(rows, e, a, b) && {j, k} <= InFamily(rows, e, a, b);
    assert SharesName(rows, i, j) && SharesName(rows, j, k);
    RowsTogether(rows, i, j);
    RowsTogether(rows, j, k);
    TogetherLinked(rows, KeyOf(rows[i]), KeyOf(rows[j]));
    TogetherLinked(rows, KeyOf(rows[j]), KeyOf(rows[k]));
  }

  lemma Larger(s: set<nat>, t: set<nat>)
    requires s <= t
    ensures |s| <= |t|
  {
    assert t == s + (t - s);
  }

  /** Ten rows of one ecosystem and one day are one campaign, whatever their names. */
  lemma BulkDayIsLinked(rows: seq<Row>, ten: set<nat>, ecosystem: string, date: string, i: nat, j: nat)
    requires |ten| == 10 && i in ten && j in ten
    requires forall k :: k in ten ==> k < |rows| && rows[k].ecosystem == ecosystem && rows[k].date == date
    ensures Linked(rows, KeyOf(rows[i]), KeyOf(rows[j]))
  {
    Larger(ten, OnDay(rows, ecosystem, date));
    RowsTogether(rows, i, j);
    TogetherLinked(rows, KeyOf(rows[i]), KeyOf(rows[j]));
  }

  /** Nothing brings row k into a group: a quiet day, and a name of two tokens or one few others share. */
  ghost predicate Alone(rows: seq<Row>, k: nat)
    requires k < |rows|
  {
    && |OnDay(rows, rows[k].ecosystem, rows[k].date)| <= 9
    && forall a, b :: '-' !in a && '-' !in b && HasPrefix(rows[k].name, a + "-" + b + "-") ==>
         |InFamily(rows, rows[k].ecosystem, a, b)| <= 2
  }

  /** Such a package, listed once, is a campaign of its own. */
  lemma LonerIsUnlinked(rows: seq<Row>, k: nat, y: Key)
    requires k < |rows| && Alone(rows, k)
    requires forall i: nat :: i < |rows| && i != k ==> rows[i].ecosystem != rows[k].ecosystem || rows[i].name != rows[k].name
    ensures Linked(rows, KeyOf(rows[k]), y) <==> y == KeyOf(rows[k])
  {
    LinkedReflexive(rows, KeyOf(rows[k]));
    if Linked(rows, KeyOf(rows[k]), y) {
      var path :| IsPath(rows, path, KeyOf(rows[k]), y);
      if |path| > 1 {
        assert Together(rows, path[0], path[0 + 1]);
        var i, j := TogetherRows(rows, path[0], path[1]);
        assert i == k;
        LonerSharesNothing(rows, k, j);
      }
    }
  }

  lemma LonerSharesNothing(rows: seq<Row>, k: nat, j: nat)
    requires k < |rows| && j < |rows| && Alone(rows, k)
    ensures !SharesDay(rows, k, j) && !SharesName(rows, k, j)
  {
    forall a, b | Plain(a) && Plain(b) && {k, j} <= InFamily(rows, rows[k].ecosystem, a, b)
      ensures |InFamily(rows, rows[k].ecosystem, a, b)| <= 2 {
      assert k in {k, j};
    }
  }
}
