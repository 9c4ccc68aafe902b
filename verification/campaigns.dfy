/**
 Campaign clusters: union-find over bulk-upload days and shared name prefixes. The clusters are
 proved to be the classes of the least equivalence that joins every large enough group.
*/
module Campaigns {
  import opened Gathering
  import opened Text
  import opened UnionFind

  /** One pool line: ecosystem, package name, first-seen date. */
  datatype Row = Row(ecosystem: string, name: string, date: string)

  const BULK_DAY_MIN := 10
  const PREFIX_TOKENS := 2
  const PREFIX_MIN := 3

  function KeyOf(r: Row): Key { Key(r.ecosystem, r.name) }

  datatype Group = Day(ecosystem: string, date: string) | Prefix(ecosystem: string, prefix: string)

  function DayOf(r: Row): Group { Day(r.ecosystem, r.date) }

  /** A name of more than two hyphen tokens has a prefix group. */
  predicate HasPrefixGroup(r: Row) { |Split(r.name, '-')| > PREFIX_TOKENS }

  function PrefixOf(r: Row): Group
    requires HasPrefixGroup(r)
  {
    Prefix(r.ecosystem, Join(Split(r.name, '-')[..PREFIX_TOKENS], '-'))
  }

  predicate InGroup(r: Row, g: Group) {
    if g.Day? then DayOf(r) == g else HasPrefixGroup(r) && PrefixOf(r) == g
  }

  function GroupMin(g: Group): nat { if g.Day? then BULK_DAY_MIN else PREFIX_MIN }

  /** The keys of the rows of `g`, in row order; a package listed twice counts twice. */
  function Members(rows: seq<Row>, g: Group): seq<Key> {
    if rows == [] then []
    else
      var n := |rows| - 1;
      Members(rows[..n], g) + (if InGroup(rows[n], g) then [KeyOf(rows[n])] else [])
  }

  predicate Campaign(rows: seq<Row>, g: Group) { |Members(rows, g)| >= GroupMin(g) }

  // ---- the declarative meaning: chains of shared groups ----

  /** x and y are members of one group that is large enough. */
  ghost predicate Together(rows: seq<Row>, x: Key, y: Key) {
    exists g :: Campaign(rows, g) && x in Members(rows, g) && y in Members(rows, g)
  }

  ghost predicate Chain(rows: seq<Row>, path: seq<Key>) {
    forall i :: 0 <= i < |path| - 1 ==> Together(rows, path[i], path[i + 1])
  }

  /** A chain of shared groups leads from x to y. */
  ghost predicate Linked(rows: seq<Row>, x: Key, y: Key) {
    exists path :: IsPath(rows, path, x, y)
  }

  ghost predicate IsPath(rows: seq<Row>, path: seq<Key>, x: Key, y: Key) {
    |path| >= 1 && path[0] == x && path[|path| - 1] == y && Chain(rows, path)
  }

  lemma LinkedReflexive(rows: seq<Row>, x: Key)
    ensures Linked(rows, x, x)
  {
    assert IsPath(rows, [x], x, x);
  }

  lemma LinkedTransitive(rows: seq<Row>, x: Key, y: Key, z: Key)
    requires Linked(rows, x, y) && Linked(rows, y, z)
    ensures Linked(rows, x, z)
  {
    var p :| IsPath(rows, p, x, y);
    var q :| IsPath(rows, q, y, z);
    var pq := p + q[1..];
    forall i | 0 <= i < |pq| - 1 ensures Together(rows, pq[i], pq[i + 1]) {
      if i < |p| - 1 {
        assert Together(rows, p[i], p[i + 1]);
      } else {
        assert Together(rows, q[i - (|p| - 1)], q[i - (|p| - 1) + 1]);
      }
    }
    assert IsPath(rows, pq, x, z);
  }

  lemma LinkedSymmetric(rows: seq<Row>, x: Key, y: Key)
    requires Linked(rows, x, y)
    ensures Linked(rows, y, x)
  {
    var p :| IsPath(rows, p, x, y);
    var r := seq(|p|, i requires 0 <= i < |p| => p[|p| - 1 - i]);
    forall i | 0 <= i < |r| - 1 ensures Together(rows, r[i], r[i + 1]) {
      assert Together(rows, p[|p| - 2 - i], p[|p| - 2 - i + 1]);
    }
    assert IsPath(rows, r, y, x);
  }

  lemma TogetherLinked(rows: seq<Row>, x: Key, y: Key)
    requires Together(rows, x, y)
    ensures Linked(rows, x, y)
  {
    assert IsPath(rows, [x, y], x, y);
  }

  // ---- the algorithm ----

  /** The keys a row list mentions. */
  ghost function Keys(rows: seq<Row>): set<Key> { set r | r in rows :: KeyOf(r) }

  lemma {:induction false} MembersAreKeys(rows: seq<Row>, g: Group)
    ensures forall k :: k in Members(rows, g) ==> k in Keys(rows)
  {
    if rows != [] { MembersAreKeys(rows[..|rows| - 1], g); }
  }

  /** x and y have the same root. */
  ghost predicate Same(rep: map<Key, Key>, x: Key, y: Key) { x in rep && y in rep && rep[x] == rep[y] }

  /** Equal roots only for linked keys. */
  ghost predicate Sound(rows: seq<Row>, rep: map<Key, Key>) {
    forall x, y :: Same(rep, x, y) ==> Linked(rows, x, y)
  }

  ghost predicate Joined(rep: map<Key, Key>, members: seq<Key>) {
    forall i :: 0 <= i < |members| ==> Same(rep, members[0], members[i])
  }

  /** What one Merge does to the roots. */
  ghost predicate Merged(rep: map<Key, Key>, rep': map<Key, Key>, a: Key, b: Key)
    requires a in rep && b in rep
  {
    && rep'.Keys == rep.Keys
    && forall k :: k in rep ==> rep'[k] == if rep[k] == rep[b] then rep[a] else rep[k]
  }

  lemma MergeSound(rows: seq<Row>, rep: map<Key, Key>, rep': map<Key, Key>, a: Key, b: Key)
    requires Sound(rows, rep) && a in rep && b in rep && Merged(rep, rep', a, b) && Together(rows, a, b)
    ensures Sound(rows, rep')
  {
    TogetherLinked(rows, a, b);
    LinkedSymmetric(rows, a, b);
    forall x, y | Same(rep', x, y) ensures Linked(rows, x, y) {
      if rep[x] == rep[y] {
        assert Same(rep, x, y);
      } else if rep[x] == rep[b] {
        assert Same(rep, x, b) && Same(rep, a, y);
        LinkedTransitive(rows, x, b, a);
        LinkedTransitive(rows, x, a, y);
      } else {
        assert Same(rep, x, a) && Same(rep, b, y);
        LinkedTransitive(rows, x, a, b);
        LinkedTransitive(rows, x, b, y);
      }
    }
  }

  /** Merging never separates what was joined. */
  ghost predicate Coarser(rep: map<Key, Key>, rep': map<Key, Key>) {
    && rep'.Keys == rep.Keys
    && forall x, y :: Same(rep, x, y) ==> Same(rep', x, y)
  }

  lemma MergeCoarsens(rep: map<Key, Key>, rep': map<Key, Key>, a: Key, b: Key)
    requires a in rep && b in rep && Merged(rep, rep', a, b)
    ensures Coarser(rep, rep') && Same(rep', a, b)
  {
    forall x, y | Same(rep, x, y) ensures Same(rep', x, y) {
    }
  }

  lemma JoinOneMore(rep: map<Key, Key>, rep': map<Key, Key>, members: seq<Key>, j: nat)
    requires 1 <= j < |members| && Joined(rep, members[..j]) && Coarser(rep, rep') && Same(rep', members[0], members[j])
    ensures Joined(rep', members[..j + 1])
  {
    var upto := members[..j + 1];
    forall i | 0 <= i < |upto| ensures Same(rep', upto[0], upto[i]) {
      if i < j { assert Same(rep, members[..j][0], members[..j][i]); }
    }
  }

  /** One group: everyone is merged with its first member. */
  method MergeGroup(u: Union, members: seq<Key>, ghost rows: seq<Row>, ghost g: Group)
    requires u.Valid() && members == Members(rows, g) && Campaign(rows, g)
    requires u.proof.rep.Keys == Keys(rows) && Sound(rows, u.proof.rep)
    modifies u
    ensures u.Valid() && Coarser(old(u.proof.rep), u.proof.rep)
    ensures Sound(rows, u.proof.rep) && Joined(u.proof.rep, members)
  {
    MembersAreKeys(rows, g);
    assert members[0] in members;
    var j := 1;
    while j < |members|
      invariant 1 <= j <= |members|
      invariant u.Valid() && Coarser(old(u.proof.rep), u.proof.rep)
      invariant Sound(rows, u.proof.rep) && Joined(u.proof.rep, members[..j])
    {
      assert members[j] in members;
      ghost var before := u.proof.rep;
      u.Merge(members[0], members[j]);
      MergeSound(rows, before, u.proof.rep, members[0], members[j]);
      MergeCoarsens(before, u.proof.rep, members[0], members[j]);
      JoinOneMore(before, u.proof.rep, members, j);
      j := j + 1;
    }
    assert members[..j] == members;
  }

  /** A dictionary of groups in insertion order. */
  ghost predicate GroupTable(rows: seq<Row>, order: seq<Group>, table: map<Group, seq<Key>>, days: bool) {
    && (forall g :: g in order <==> g in table)
    && (forall g :: g in table ==> g.Day? == days && table[g] == Members(rows, g))
    && (forall r :: r in rows && days ==> DayOf(r) in table)
    && (forall r :: r in rows && !days && HasPrefixGroup(r) ==> PrefixOf(r) in table)
  }

  /** A group nobody listed has no members. */
  lemma {:induction false} UnlistedIsEmpty(rows: seq<Row>, g: Group)
    requires forall r :: r in rows ==> !InGroup(r, g)
    ensures Members(rows, g) == []
  {
    if rows != [] {
      assert rows[|rows| - 1] in rows;
      UnlistedIsEmpty(rows[..|rows| - 1], g);
    }
  }

  /** Filing one more row under its group keeps the dictionary right. */
  lemma FileRow(rows: seq<Row>, r: Row, g: Group, order: seq<Group>, table: map<Group, seq<Key>>)
    requires GroupTable(rows, order, table, g.Day?)
    requires if g.Day? then g == DayOf(r) else HasPrefixGroup(r) && g == PrefixOf(r)
    ensures var order' := if g in table then order else order + [g];
            var table' := table[g := (if g in table then table[g] else []) + [KeyOf(r)]];
            GroupTable(rows + [r], order', table', g.Day?)
  {
    var all := rows + [r];
    assert all[..|all| - 1] == rows;
    if g !in table { UnlistedIsEmpty(rows, g); }
    var table' := table[g := (if g in table then table[g] else []) + [KeyOf(r)]];
    forall h | h in table' ensures h.Day? == g.Day? && table'[h] == Members(all, h) {
      assert InGroup(r, h) <==> h == g;
    }
  }

  method ByDay(rows: seq<Row>) returns (order: seq<Group>, table: map<Group, seq<Key>>)
    ensures GroupTable(rows, order, table, true)
  {
    order, table := [], map[];
    for i := 0 to |rows|
      invariant GroupTable(rows[..i], order, table, true)
    {
      var g := DayOf(rows[i]);
      FileRow(rows[..i], rows[i], g, order, table);
      assert rows[..i + 1] == rows[..i] + [rows[i]];
      if g !in table {
        order, table := order + [g], table[g := []];
      }
      table := table[g := table[g] + [KeyOf(rows[i])]];
    }
    assert rows[..|rows|] == rows;
  }

  method ByPrefix(rows: seq<Row>) returns (order: seq<Group>, table: map<Group, seq<Key>>)
    ensures GroupTable(rows, order, table, false)
  {
    order, table := [], map[];
    for i := 0 to |rows|
      invariant GroupTable(rows[..i], order, table, false)
    {
      assert rows[..i + 1] == rows[..i] + [rows[i]];
      if |Split(rows[i].name, '-')| > PREFIX_TOKENS {
        var g := PrefixOf(rows[i]);
        FileRow(rows[..i], rows[i], g, order, table);
        if g !in table {
          order, table := order + [g], table[g := []];
        }
        table := table[g := table[g] + [KeyOf(rows[i])]];
      } else {
        SkipRow(rows[..i], rows[i], order, table);
      }
    }
    assert rows[..|rows|] == rows;
  }

  lemma SkipRow(rows: seq<Row>, r: Row, order: seq<Group>, table: map<Group, seq<Key>>)
    requires GroupTable(rows, order, table, false) && !HasPrefixGroup(r)
    ensures GroupTable(rows + [r], order, table, false)
  {
    var all := rows + [r];
    assert all[..|all| - 1] == rows;
    forall h | h in table ensures table[h] == Members(all, h) {
      assert !InGroup(r, h);
    }
  }

  lemma StaysJoined(rep: map<Key, Key>, rep': map<Key, Key>, members: seq<Key>)
    requires Joined(rep, members) && Coarser(rep, rep')
    ensures Joined(rep', members)
  {
    forall i | 0 <= i < |members| ensures Same(rep', members[0], members[i]) {
      assert Same(rep, members[0], members[i]);
    }
  }

  /** One pass over a group table. */
  method MergeGroups(u: Union, order: seq<Group>, table: map<Group, seq<Key>>, min: nat, ghost rows: seq<Row>,
        ghost days: bool)
    requires u.Valid() && GroupTable(rows, order, table, days) && min == if days then BULK_DAY_MIN else PREFIX_MIN
    requires u.proof.rep.Keys == Keys(rows) && Sound(rows, u.proof.rep)
    modifies u
    ensures u.Valid() && Coarser(old(u.proof.rep), u.proof.rep) && Sound(rows, u.proof.rep)
    ensures forall g :: g in order && Campaign(rows, g) ==> Joined(u.proof.rep, Members(rows, g))
  {
    for i := 0 to |order|
      invariant u.Valid() && Coarser(old(u.proof.rep), u.proof.rep) && Sound(rows, u.proof.rep)
      invariant forall g :: g in order[..i] && Campaign(rows, g) ==> Joined(u.proof.rep, Members(rows, g))
    {
      assert order[i] in order;
      var members := table[order[i]];
      ghost var before := u.proof.rep;
      if |members| >= min {
        MergeGroup(u, members, rows, order[i]);
      }
      forall g | g in order[..i] && Campaign(rows, g) ensures Joined(u.proof.rep, Members(rows, g)) {
        StaysJoined(before, u.proof.rep, Members(rows, g));
      }
      assert order[..i + 1] == order[..i] + [order[i]];
    }
  }

  /** Every campaign group is in one of the two tables. */
  lemma CampaignListed(rows: seq<Row>, order: seq<Group>, table: map<Group, seq<Key>>, g: Group)
    requires GroupTable(rows, order, table, g.Day?) && Campaign(rows, g)
    ensures g in order
  {
    if g !in order {
      UnlistedIsEmpty(rows, g);
    }
  }

  lemma TogetherSame(rows: seq<Row>, rep: map<Key, Key>, x: Key, y: Key)
    requires forall g :: Campaign(rows, g) ==> Joined(rep, Members(rows, g))
    requires Together(rows, x, y)
    ensures Same(rep, x, y)
  {
    var g :| Campaign(rows, g) && x in Members(rows, g) && y in Members(rows, g);
    var m := Members(rows, g);
    var i :| 0 <= i < |m| && m[i] == x;
    var j :| 0 <= j < |m| && m[j] == y;
    assert Same(rep, m[0], m[i]) && Same(rep, m[0], m[j]);
  }

  lemma {:induction false} PathJoins(rows: seq<Row>, rep: map<Key, Key>, path: seq<Key>)
    requires forall g :: Campaign(rows, g) ==> Joined(rep, Members(rows, g))
    requires |path| >= 1 && Chain(rows, path) && path[0] in rep
    ensures Same(rep, path[0], path[|path| - 1])
    decreases |path|
  {
    if |path| > 1 {
      assert Together(rows, path[0], path[0 + 1]);
      TogetherSame(rows, rep, path[0], path[1]);
      var rest := path[1..];
      forall i | 0 <= i < |rest| - 1 ensures Together(rows, rest[i], rest[i + 1]) {
        assert Together(rows, path[i + 1], path[i + 1 + 1]);
      }
      PathJoins(rows, rep, rest);
    }
  }

  /** The roots after both passes are the classes of Linked. */
  lemma RootsMeanLinked(rows: seq<Row>, rep: map<Key, Key>)
    requires Sound(rows, rep) && forall g :: Campaign(rows, g) ==> Joined(rep, Members(rows, g))
    ensures forall x, y :: x in rep && y in rep ==> (rep[x] == rep[y] <==> Linked(rows, x, y))
  {
    forall x, y | x in rep && y in rep ensures rep[x] == rep[y] <==> Linked(rows, x, y) {
      if rep[x] == rep[y] {
        assert Same(rep, x, y);
      }
      if Linked(rows, x, y) {
        var path :| IsPath(rows, path, x, y);
        PathJoins(rows, rep, path);
      }
    }
  }

  /** Every key on its own, as the first loop leaves it. */
  method Singletons(rows: seq<Row>) returns (u: Union)
    ensures fresh(u) && u.Valid() && u.proof.rep.Keys == Keys(rows) && Sound(rows, u.proof.rep)
  {
    u := new Union();
    for i := 0 to |rows|
      invariant u.Valid() && fresh(u)
      invariant u.proof.rep.Keys == Keys(rows[..i]) && forall k :: k in u.proof.rep ==> u.proof.rep[k] == k
    {
      assert rows[..i + 1] == rows[..i] + [rows[i]];
      var _ := u.Find(KeyOf(rows[i]));
    }
    assert rows[..|rows|] == rows;
    forall x, y | Same(u.proof.rep, x, y) ensures Linked(rows, x, y) { LinkedReflexive(rows, x); }
  }

  /** The id of every key is its root. */
  method ReadOut(u: Union, rows: seq<Row>) returns (clusters: map<Key, Key>)
    requires u.Valid() && u.proof.rep.Keys == Keys(rows)
    modifies u
    ensures clusters == old(u.proof.rep)
    ensures forall x :: x in clusters ==> clusters[x] in clusters && clusters[clusters[x]] == clusters[x]
  {
    clusters := map[];
    for i := 0 to |rows|
      invariant u.Valid() && u.proof.rep == old(u.proof.rep)
      invariant clusters.Keys == Keys(rows[..i]) && forall k :: k in clusters ==> clusters[k] == u.proof.rep[k]
    {
      assert rows[..i + 1] == rows[..i] + [rows[i]];
      assert rows[i] in rows && KeyOf(rows[i]) in u.proof.rep;
      var id := u.Find(KeyOf(rows[i]));
      clusters := clusters[KeyOf(rows[i]) := id];
    }
    assert rows[..|rows|] == rows;
    forall x | x in clusters ensures clusters[x] in clusters && clusters[clusters[x]] == clusters[x] {
      assert NodeOk(u.parent, u.proof, x);
    }
  }

  /** Two keys get the same campaign id exactly when a chain of shared groups links them. */
  method CampaignClusters(rows: seq<Row>) returns (clusters: map<Key, Key>)
    ensures clusters.Keys == Keys(rows)
    ensures forall x, y :: x in clusters && y in clusters ==> (clusters[x] == clusters[y] <==> Linked(rows, x, y))
    ensures forall x :: x in clusters ==> clusters[x] in clusters && clusters[clusters[x]] == clusters[x]
  {
    var u := Singletons(rows);
    var dayOrder, byday := ByDay(rows);
    MergeGroups(u, dayOrder, byday, BULK_DAY_MIN, rows, true);
    ghost var afterDays := u.proof.rep;
    var prefixOrder, byprefix := ByPrefix(rows);
    MergeGroups(u, prefixOrder, byprefix, PREFIX_MIN, rows, false);
    forall g | Campaign(rows, g) ensures Joined(u.proof.rep, Members(rows, g)) {
      if g.Day? {
        CampaignListed(rows, dayOrder, byday, g);
        StaysJoined(afterDays, u.proof.rep, Members(rows, g));
      } else {
        CampaignListed(rows, prefixOrder, byprefix, g);
      }
    }
    RootsMeanLinked(rows, u.proof.rep);
    clusters := ReadOut(u, rows);
  }

  // ---- what the clusters are good for ----

  lemma {:induction false} MemberEcosystem(rows: seq<Row>, g: Group, x: Key)
    requires x in Members(rows, g)
    ensures x.ecosystem == g.ecosystem
  {
    var n := |rows| - 1;
    if x in Members(rows[..n], g) { MemberEcosystem(rows[..n], g, x); }
  }

  /** No cluster mixes ecosystems. */
  lemma {:induction false} LinkedSameEcosystem(rows: seq<Row>, path: seq<Key>, x: Key, y: Key)
    requires IsPath(rows, path, x, y)
    ensures x.ecosystem == y.ecosystem
    decreases |path|
  {
    if |path| > 1 {
      assert Together(rows, path[0], path[0 + 1]);
      var g :| Campaign(rows, g) && path[0] in Members(rows, g) && path[1] in Members(rows, g);
      MemberEcosystem(rows, g, path[0]);
      MemberEcosystem(rows, g, path[1]);
      var rest := path[1..];
      forall i | 0 <= i < |rest| - 1 ensures Together(rows, rest[i], rest[i + 1]) {
        assert Together(rows, path[i + 1], path[i + 1 + 1]);
      }
      LinkedSameEcosystem(rows, rest, path[1], y);
    }
  }

  /** What one row adds to the members of a group. */
  function Own(g: Group): Row -> seq<Key> { (r: Row) => if InGroup(r, g) then [KeyOf(r)] else [] }

  lemma {:induction false} MembersGathered(rows: seq<Row>, g: Group)
    ensures Members(rows, g) == Gather(rows, Own(g))
    decreases |rows|
  {
    if rows != [] { MembersGathered(rows[..|rows| - 1], g); }
  }

  /** A group's members, with their multiplicity, do not depend on the order of the rows. */
  lemma MembersIgnoreOrder(rows: seq<Row>, other: seq<Row>, g: Group)
    requires multiset(rows) == multiset(other)
    ensures multiset(Members(rows, g)) == multiset(Members(other, g))
  {
    MembersGathered(rows, g);
    MembersGathered(other, g);
    GatherPermutes(rows, other, Own(g));
  }

  /** The partition, unlike the ids, does not depend on the order of the rows. */
  lemma PartitionIgnoresOrder(rows: seq<Row>, other: seq<Row>, x: Key, y: Key)
    requires multiset(rows) == multiset(other) && Linked(rows, x, y)
    ensures Linked(other, x, y)
  {
    var path :| IsPath(rows, path, x, y);
    forall i | 0 <= i < |path| - 1 ensures Together(other, path[i], path[i + 1]) {
      assert Together(rows, path[i], path[i + 1]);
      var g :| Campaign(rows, g) && path[i] in Members(rows, g) && path[i + 1] in Members(rows, g);
      MembersIgnoreOrder(rows, other, g);
      assert |Members(rows, g)| == |multiset(Members(rows, g))| == |Members(other, g)|;
      assert path[i] in multiset(Members(other, g)) && path[i + 1] in multiset(Members(other, g));
      assert Campaign(other, g);
    }
    assert IsPath(other, path, x, y);
  }
}
