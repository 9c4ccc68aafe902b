/**
 The campaign mode: disjoint slices of the pool in cluster order. The md5 order over the cluster
 ids is taken as any order.
*/
module Slices {
  import opened Gathering
  import opened Seqs
  import opened UnionFind
  import opened Campaigns
  import opened Splits

  const NPM := "npm"
  const PYPI := "pypi"

  lemma SelectSnoc(s: seq<Row>, r: Row, keep: Row -> bool)
    ensures Select(s + [r], keep) == Select(s, keep) + if keep(r) then [r] else []
  {
    assert (s + [r])[..|s|] == s;
  }

  /** Rows of one cluster, in pool order. */
  function Cluster(rows: seq<Row>, clusters: Clusters, c: Key): seq<Row> {
    Select(rows, r => IdOf(clusters, r) == Some(c))
  }

  /** The pool cluster by cluster. */
  function Flat(rows: seq<Row>, clusters: Clusters, order: seq<Key>): seq<Row> {
    if order == [] then []
    else
      var n := |order| - 1;
      Flat(rows, clusters, order[..n]) + Cluster(rows, clusters, order[n])
  }

  function InEcosystem(eco: string): Row -> bool { (r: Row) => r.ecosystem == eco }

  function Of(rows: seq<Row>, eco: string): seq<Row> { Select(rows, InEcosystem(eco)) }

  /** One ecosystem's rows in cluster order: what the slices are cut from. */
  function Ordered(rows: seq<Row>, clusters: Clusters, order: seq<Key>, eco: string): seq<Row> {
    Of(Flat(rows, clusters, order), eco)
  }

  function Max(a: int, b: int): int { if a >= b then a else b }
  function Min(a: int, b: int): int { if a <= b then a else b }

  /** Skip `skip` rows, then take `want`: negative numbers count as none. */
  function Window(s: seq<Row>, skip: int, want: int): seq<Row> {
    var lo := Min(Max(skip, 0), |s|);
    var hi := Min(Max(skip, 0) + Max(want, 0), |s|);
    s[lo..hi]
  }

  /** Row e n d meets the skip/got/seen bookkeeping. */
  lemma WindowSnoc(s: seq<Row>, r: Row, skip: int, want: int)
    ensures var seen := Min(|s|, Max(skip, 0) + Max(want, 0));
            Window(s + [r], skip, want) ==
              if seen < skip then Window(s, skip, want)
              else if |Window(s, skip, want)| < want then Window(s, skip, want) + [r]
              else Window(s, skip, want)
  {
    var lo, hi := Min(Max(skip, 0), |s|), Min(Max(skip, 0) + Max(want, 0), |s|);
    var t := s + [r];
    if |s| < Max(skip, 0) {
    } else if hi == |s| && |s| < Max(skip, 0) + Max(want, 0) {
      assert t[lo..|s| + 1] == s[lo..] + [r];
    } else {
      assert t[lo..hi] == s[lo..hi];
    }
  }

  /** The dictionary cluster id -> rows. */
  method GroupRows(rows: seq<Row>, clusters: Clusters) returns (members: map<Key, seq<Row>>)
    requires Covers(clusters, rows)
    ensures forall c :: (c in members ==> members[c] == Cluster(rows, clusters, c))
                     && (c !in members ==> Cluster(rows, clusters, c) == [])
  {
    members := map[];
    for i := 0 to |rows|
      invariant forall c :: (c in members ==> members[c] == Cluster(rows[..i], clusters, c))
                         && (c !in members ==> Cluster(rows[..i], clusters, c) == [])
    {
      assert rows[i] in rows && KeyOf(rows[i]) in Keys(rows);
      var id := clusters[KeyOf(rows[i])];
      assert rows[..i + 1] == rows[..i] + [rows[i]];
      forall c ensures Cluster(rows[..i + 1], clusters, c) == Cluster(rows[..i], clusters, c) + (if c == id then [rows[i]] else []) {
        SelectSnoc(rows[..i], rows[i], r => IdOf(clusters, r) == Some(c));
      }
      members := members[id := (if id in members then members[id] else []) + [rows[i]]];
    }
    assert rows[..|rows|] == rows;
  }

  /** got, and seen, after the rows `s` of one ecosystem. */
  ghost predicate Counted(got: seq<Row>, seen: int, s: seq<Row>, skip: int, want: int) {
    got == Window(s, skip, want) && seen == Min(|s|, Max(skip, 0) + Max(want, 0))
  }

  lemma OfSnoc(s: seq<Row>, r: Row, eco: string)
    ensures Of(s + [r], eco) == Of(s, eco) + (if r.ecosystem == eco then [r] else [])
  {
    SelectSnoc(s, r, InEcosystem(eco));
  }

  type Counts = map<string, int>

  /** The four dictionaries after the rows `s`. */
  ghost predicate AllCounted(got: map<string, seq<Row>>, seen: Counts, skip: Counts, want: Counts, s: seq<Row>) {
    && got.Keys == seen.Keys == skip.Keys == want.Keys == {NPM, PYPI}
    && Counted(got[NPM], seen[NPM], Of(s, NPM), skip[NPM], want[NPM])
    && Counted(got[PYPI], seen[PYPI], Of(s, PYPI), skip[PYPI], want[PYPI])
    && (forall r :: r in s ==> !Foreign(r))
  }

  /** One turn of the inner loop, for the row's own ecosystem. */
  lemma CountedSnoc(got: seq<Row>, seen: int, s: seq<Row>, r: Row, skip: int, want: int)
    requires Counted(got, seen, s, skip, want)
    ensures seen < skip ==> Counted(got, seen + 1, s + [r], skip, want)
    ensures seen >= skip && |got| < want ==> Counted(got + [r], seen + 1, s + [r], skip, want)
    ensures seen >= skip && |got| >= want ==> Counted(got, seen, s + [r], skip, want)
  {
    WindowSnoc(s, r, skip, want);
  }

  /** One turn of the inner loop, on the dictionaries. */
  lemma CountOne(got: map<string, seq<Row>>, seen: Counts, skip: Counts, want: Counts, s: seq<Row>, r: Row,
        g: seq<Row>, n: int)
    requires AllCounted(got, seen, skip, want, s) && r.ecosystem in seen
    requires Counted(g, n, Of(s, r.ecosystem) + [r], skip[r.ecosystem], want[r.ecosystem])
    ensures AllCounted(got[r.ecosystem := g], seen[r.ecosystem := n], skip, want, s + [r])
  {
    OfSnoc(s, r, NPM);
    OfSnoc(s, r, PYPI);
    assert r.ecosystem == NPM || r.ecosystem == PYPI;
    assert NPM[0] != PYPI[0];
  }

  /** The rows of the pool that would raise KeyError: neither npm nor pypi. */
  predicate Foreign(r: Row) { r.ecosystem != NPM && r.ecosystem != PYPI }

  /** The body of the inner loop for a row whose ecosystem is in the dictionaries. */
  method TakeRow(r: Row, got: map<string, seq<Row>>, seen: Counts, skip: Counts, want: Counts, ghost s: seq<Row>)
    returns (got': map<string, seq<Row>>, seen': Counts)
    requires AllCounted(got, seen, skip, want, s) && r.ecosystem in seen
    ensures AllCounted(got', seen', skip, want, s + [r])
  {
    var e := r.ecosystem;
    var g, n := got[e], seen[e];
    CountedSnoc(g, n, Of(s, e), r, skip[e], want[e]);
    if n < skip[e] {
      n := n + 1;
    } else if |g| < want[e] {
      g, n := g + [r], n + 1;
    }
    CountOne(got, seen, skip, want, s, r, g, n);
    got', seen' := got[e := g], seen[e := n];
  }

  /** The inner loop over one cluster; false when a row's ecosystem is not in the dictionaries. */
  method TakeCluster(cluster: seq<Row>, got: map<string, seq<Row>>, seen: Counts, skip: Counts, want: Counts,
        ghost before: seq<Row>)
    returns (ok: bool, got': map<string, seq<Row>>, seen': Counts)
    requires AllCounted(got, seen, skip, want, before)
    ensures ok ==> AllCounted(got', seen', skip, want, before + cluster)
    ensures !ok <==> exists r :: r in cluster && Foreign(r)
  {
    got', seen' := got, seen;
    ghost var s := before;
    for j := 0 to |cluster|
      invariant s == before + cluster[..j]
      invariant AllCounted(got', seen', skip, want, s)
    {
      var r := cluster[j];
      if r.ecosystem !in seen' {
        assert cluster[j] in cluster && Foreign(cluster[j]);
        return false, got', seen';
      }
      got', seen' := TakeRow(r, got', seen', skip, want, s);
      s := s + [r];
    }
    assert s == before + cluster;
    ok := true;
    forall r | r in cluster ensures !Foreign(r) {
      assert r in s;
    }
  }

  /**
   The slice loop. It yields no slice when a row of a third ecosystem is met; otherwise for each
   ecosystem exactly a window of the cluster-ordered rows.
  */
  method CampaignMode(rows: seq<Row>, clusters: Clusters, order: seq<Key>, setNo: int, npm: int, pypi: int)
    returns (slice: Option<(seq<Row>, seq<Row>)>)
    requires Covers(clusters, rows)
    ensures slice.None? <==> exists r :: r in Flat(rows, clusters, order) && Foreign(r)
    ensures slice.Some? ==>
              && slice.value.0 == Window(Ordered(rows, clusters, order, NPM), npm * (setNo - 1), npm)
              && slice.value.1 == Window(Ordered(rows, clusters, order, PYPI), pypi * (setNo - 1), pypi)
  {
    var members := GroupRows(rows, clusters);
    var want := map[NPM := npm, PYPI := pypi];
    var skip := map[NPM := npm * (setNo - 1), PYPI := pypi * (setNo - 1)];
    var got: map<string, seq<Row>> := map[NPM := [], PYPI := []];
    var seen: Counts := map[NPM := 0, PYPI := 0];
    for i := 0 to |order|
      invariant AllCounted(got, seen, skip, want, Flat(rows, clusters, order[..i]))
    {
      var cluster := if order[i] in members then members[order[i]] else [];
      FlatSnoc(rows, clusters, order, i);
      var ok;
      ok, got, seen := TakeCluster(cluster, got, seen, skip, want, Flat(rows, clusters, order[..i]));
      if !ok {
        ForeignShows(rows, clusters, order, i, cluster);
        return None;
      }
    }
    assert order[..|order|] == order;
    slice := Some((got[NPM], got[PYPI]));
  }

  lemma ForeignShows(rows: seq<Row>, clusters: Clusters, order: seq<Key>, i: nat, cluster: seq<Row>)
    requires i < |order| && cluster == Cluster(rows, clusters, order[i])
    requires exists r :: r in cluster && Foreign(r)
    ensures exists r :: r in Flat(rows, clusters, order) && Foreign(r)
  {
    var r :| r in cluster && Foreign(r);
    FlatSnoc(rows, clusters, order, i);
    FlatPrefix(rows, clusters, order, i + 1);
    assert r in Flat(rows, clusters, order[..i + 1]);
    assert r in Flat(rows, clusters, order);
  }

  lemma FlatSnoc(rows: seq<Row>, clusters: Clusters, order: seq<Key>, i: nat)
    requires i < |order|
    ensures Flat(rows, clusters, order[..i + 1]) == Flat(rows, clusters, order[..i]) + Cluster(rows, clusters, order[i])
  {
    assert order[..i + 1][..i] == order[..i];
  }

  lemma {:induction false} FlatPrefix(rows: seq<Row>, clusters: Clusters, order: seq<Key>, i: nat)
    requires i <= |order|
    ensures Flat(rows, clusters, order[..i]) <= Flat(rows, clusters, order)
    decreases |order|
  {
    if i < |order| {
      var n := |order| - 1;
      assert order[..n][..i] == order[..i];
      FlatPrefix(rows, clusters, order[..n], i);
    } else {
      assert order[..i] == order;
    }
  }

  // ---- what the slices are ----

  /** The slices 1..m laid end to end. */
  function Tiles(s: seq<Row>, want: nat, m: nat): seq<Row> {
    if m == 0 then [] else Tiles(s, want, m - 1) + Window(s, want * (m - 1), want)
  }

  lemma TileEdge(s: seq<Row>, skip: nat, want: nat)
    ensures s[..Min(skip, |s|)] + Window(s, skip, want) == s[..Min(skip + want, |s|)]
  {
  }

  /** The slices tile the ordering: 1..m together are its first want*m rows, none missing, none twice. */
  lemma {:induction false} SlicesTile(s: seq<Row>, want: nat, m: nat)
    ensures Tiles(s, want, m) == s[..Min(want * m, |s|)]
    decreases m
  {
    if m > 0 {
      var skip := want * (m - 1);
      assert want * m == skip + want;
      SlicesTile(s, want, m - 1);
      TileEdge(s, skip, want);
      assert Tiles(s, want, m) == Tiles(s, want, m - 1) + Window(s, skip, want);
    }
  }

  /** Any set number below 1 takes the very rows of set 1. */
  lemma LowSetNumbersRepeatTheFirst(s: seq<Row>, want: int, setNo: int)
    requires setNo <= 1
    ensures Window(s, want * (setNo - 1), want) == Window(s, 0, want)
  {
    if want >= 0 { assert want * (setNo - 1) <= 0; } else { assert Max(want, 0) == 0; }
  }

  // ---- clusters and boundaries ----

  /** No id twice in the cluster order, as a sorted set of ids. */
  ghost predicate DistinctIds(order: seq<Key>) { forall i, j :: 0 <= i < j < |order| ==> order[i] != order[j] }

  /** Rows of one cluster stand together. */
  ghost predicate Contiguous(s: seq<Row>, clusters: Clusters) {
    forall i, j, k :: 0 <= i <= j <= k < |s| && IdOf(clusters, s[i]) == IdOf(clusters, s[k]) ==> IdOf(clusters, s[j]) == IdOf(clusters, s[i])
  }

  lemma {:induction false} FlatIds(rows: seq<Row>, clusters: Clusters, order: seq<Key>, r: Row)
    requires r in Flat(rows, clusters, order)
    ensures exists i :: 0 <= i < |order| && IdOf(clusters, r) == Some(order[i])
    decreases |order|
  {
    var n := |order| - 1;
    if r in Flat(rows, clusters, order[..n]) {
      FlatIds(rows, clusters, order[..n], r);
      var i :| 0 <= i < n && IdOf(clusters, r) == Some(order[..n][i]);
      assert IdOf(clusters, r) == Some(order[i]);
    } else {
      SelectIn(rows, q => IdOf(clusters, q) == Some(order[n]), r);
      assert IdOf(clusters, r) == Some(order[n]);
    }
  }

  lemma {:induction false} OrderedContiguous(rows: seq<Row>, clusters: Clusters, order: seq<Key>, eco: string)
    requires DistinctIds(order)
    ensures Contiguous(Ordered(rows, clusters, order, eco), clusters)
    decreases |order|
  {
    if order != [] {
      var n := |order| - 1;
      OrderedContiguous(rows, clusters, order[..n], eco);
      var a, b := Flat(rows, clusters, order[..n]), Cluster(rows, clusters, order[n]);
      GatherJoin(a, b, OneIf(InEcosystem(eco)));
      var s, p := Ordered(rows, clusters, order, eco), Of(a, eco);
      assert s == p + Of(b, eco);
      forall j | 0 <= j < |s| ensures (IdOf(clusters, s[j]) == Some(order[n])) <==> j >= |p| {
        if j >= |p| {
          assert s[j] in Of(b, eco);
          SelectIn(b, (r: Row) => r.ecosystem == eco, s[j]);
          SelectIn(rows, r => IdOf(clusters, r) == Some(order[n]), s[j]);
        } else {
          assert s[j] in p;
          SelectIn(a, (r: Row) => r.ecosystem == eco, s[j]);
          FlatIds(rows, clusters, order[..n], s[j]);
        }
      }
    }
  }

  /** Cluster c has rows on both sides of position p. */
  ghost predicate Straddles(s: seq<Row>, clusters: Clusters, c: Option<Key>, p: int) {
    exists i, j :: 0 <= i < p <= j < |s| && IdOf(clusters, s[i]) == c == IdOf(clusters, s[j])
  }

  /**
   At each slice boundary at most one campaign is cut, and it is cut exactly when the rows on the
   two sides of the boundary belong to it. So slices do cut families, unless the boundary falls
   between two campaigns.
  */
  lemma OnlyTheBoundaryCampaignIsCut(rows: seq<Row>, clusters: Clusters, order: seq<Key>, eco: string, p: int,
        c: Option<Key>)
    requires DistinctIds(order)
    ensures var s := Ordered(rows, clusters, order, eco);
            Straddles(s, clusters, c, p) <==> 0 < p < |s| && IdOf(clusters, s[p - 1]) == c == IdOf(clusters, s[p])
  {
    var s := Ordered(rows, clusters, order, eco);
    OrderedContiguous(rows, clusters, order, eco);
    if Straddles(s, clusters, c, p) {
      var i, j :| 0 <= i < p <= j < |s| && IdOf(clusters, s[i]) == c == IdOf(clusters, s[j]);
      assert 0 <= i <= p - 1 <= j && 0 <= i <= p <= j;
      assert IdOf(clusters, s[p - 1]) == IdOf(clusters, s[i]) && IdOf(clusters, s[p]) == IdOf(clusters, s[i]);
    }
  }

  /** The order lists every campaign of the pool, as the sorted set of ids does. */
  ghost predicate Lists(order: seq<Key>, clusters: Clusters, rows: seq<Row>) {
    DistinctIds(order) && forall r :: r in rows ==> exists i :: 0 <= i < |order| && IdOf(clusters, r) == Some(order[i])
  }

  predicate ListedIn(order: seq<Key>, id: Option<Key>) { id.Some? && id.value in order }

  lemma {:induction false} FlatSelects(rows: seq<Row>, clusters: Clusters, order: seq<Key>)
    requires DistinctIds(order)
    ensures multiset(Flat(rows, clusters, order)) == multiset(Select(rows, r => ListedIn(order, IdOf(clusters, r))))
    decreases |order|
  {
    if order == [] {
      SelectNone(rows, r => ListedIn(order, IdOf(clusters, r)));
    } else {
      var n := |order| - 1;
      FlatSelects(rows, clusters, order[..n]);
      SelectUnion(rows, r => ListedIn(order[..n], IdOf(clusters, r)), r => IdOf(clusters, r) == Some(order[n]),
                  r => ListedIn(order, IdOf(clusters, r)));
    }
  }

  lemma {:induction false} SelectNone(rows: seq<Row>, keep: Row -> bool)
    requires forall r :: r in rows ==> !keep(r)
    ensures Select(rows, keep) == []
    decreases |rows|
  {
    if rows != [] { SelectNone(rows[..|rows| - 1], keep); }
  }

  /** Reordering the pool by clusters loses and repeats nothing. */
  lemma FlatIsAPermutation(rows: seq<Row>, clusters: Clusters, order: seq<Key>)
    requires Lists(order, clusters, rows)
    ensures multiset(Flat(rows, clusters, order)) == multiset(rows)
  {
    FlatSelects(rows, clusters, order);
    forall r | r in rows ensures ListedIn(order, IdOf(clusters, r)) {
      var i :| 0 <= i < |order| && IdOf(clusters, r) == Some(order[i]);
    }
    SelectAll(rows, r => ListedIn(order, IdOf(clusters, r)));
  }

  lemma OrderedIsAPermutation(rows: seq<Row>, clusters: Clusters, order: seq<Key>, eco: string)
    requires Lists(order, clusters, rows)
    ensures multiset(Ordered(rows, clusters, order, eco)) == multiset(Of(rows, eco))
  {
    FlatIsAPermutation(rows, clusters, order);
    GatherPermutes(rows, Flat(rows, clusters, order), OneIf(InEcosystem(eco)));
  }

  lemma TilesCover(s: seq<Row>, want: nat, m: nat)
    requires want * m >= |s|
    ensures Tiles(s, want, m) == s
  {
    SlicesTile(s, want, m);
    assert s[..|s|] == s;
  }

  /** Enough slices hold every row of the ecosystem exactly once. */
  lemma SlicesCoverThePool(rows: seq<Row>, clusters: Clusters, order: seq<Key>, eco: string, want: nat, m: nat)
    requires Lists(order, clusters, rows) && want * m >= |Of(rows, eco)|
    ensures multiset(Tiles(Ordered(rows, clusters, order, eco), want, m)) == multiset(Of(rows, eco))
  {
    OrderedIsAPermutation(rows, clusters, order, eco);
    SameLength(Ordered(rows, clusters, order, eco), Of(rows, eco));
    TilesCover(Ordered(rows, clusters, order, eco), want, m);
  }

  /**
   Ten packages uploaded on one day are one campaign, and with five packages a slice they fill the
   first two slices: that family does span slices.
  */
  lemma AFamilySpansTwoSlices(rows: seq<Row>, clusters: Clusters, order: seq<Key>, date: string)
    requires |rows| == 10 && forall r :: r in rows ==> r.ecosystem == NPM && r.date == date
    requires Faithful(clusters, rows) && Lists(order, clusters, rows)
    ensures exists c :: Straddles(Ordered(rows, clusters, order, NPM), clusters, c, 5)
  {
    var s := Ordered(rows, clusters, order, NPM);
    AllOrdered(rows, clusters, order, NPM);
    SameLength(s, rows);
    assert s[0] in multiset(s) && s[9] in multiset(s);
    OneDayIsOneFamily(rows, clusters, date, s[0], s[9]);
    assert Straddles(s, clusters, IdOf(clusters, s[0]), 5);
  }

  /** With one ecosystem the ordering is the whole pool again. */
  lemma AllOrdered(rows: seq<Row>, clusters: Clusters, order: seq<Key>, eco: string)
    requires Lists(order, clusters, rows) && forall r :: r in rows ==> r.ecosystem == eco
    ensures multiset(Ordered(rows, clusters, order, eco)) == multiset(rows)
  {
    FlatIsAPermutation(rows, clusters, order);
    var flat := Flat(rows, clusters, order);
    forall r | r in flat ensures r.ecosystem == eco {
      assert r in multiset(rows);
    }
    SelectAll(flat, InEcosystem(eco));
  }

  lemma OneDayIsOneFamily(rows: seq<Row>, clusters: Clusters, date: string, r: Row, q: Row)
    requires |rows| == 10 && forall r :: r in rows ==> r.ecosystem == NPM && r.date == date
    requires Faithful(clusters, rows) && r in rows && q in rows
    ensures IdOf(clusters, r) == IdOf(clusters, q)
  {
    AllMembers(rows, Day(NPM, date));
    assert Together(rows, KeyOf(r), KeyOf(q));
    TogetherLinked(rows, KeyOf(r), KeyOf(q));
    assert KeyOf(r) in clusters && KeyOf(q) in clusters;
  }

  lemma {:induction false} AllMembers(rows: seq<Row>, g: Group)
    requires forall r :: r in rows ==> InGroup(r, g)
    ensures |Members(rows, g)| == |rows| && forall r :: r in rows ==> KeyOf(r) in Members(rows, g)
  {
    if rows != [] {
      var n := |rows| - 1;
      assert rows[n] in rows && rows == rows[..n] + [rows[n]];
      AllMembers(rows[..n], g);
    }
  }

  /** Set k of `want` rows each: its j-th row is row want * (k - 1) + j of the ecosystem's ordering. */
  lemma SliceAt(s: seq<Row>, want: int, k: int, j: nat)
    requires want >= 0 && k >= 1 && j < |Window(s, want * (k - 1), want)|
    ensures 0 <= want * (k - 1) + j < |s| && Window(s, want * (k - 1), want)[j] == s[want * (k - 1) + j]
    ensures |Window(s, want * (k - 1), want)| <= want
    ensures want * k <= |s| ==> |Window(s, want * (k - 1), want)| == want
  {
    assert want * k == want * (k - 1) + want;
    assert want * (k - 1) >= 0;
  }
}
