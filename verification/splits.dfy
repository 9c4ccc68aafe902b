/**
 The two leak-free splits: by date, with straddling campaigns kept whole on the train side, and by
 slices of the cluster-ordered pool.
*/
module Splits {
  import opened Text
  import opened Gathering
  import opened UnionFind
  import opened Campaigns

  datatype Option<+T> = None | Some(value: T)

  type Clusters = map<Key, Key>

  /** Every row has a campaign id. */
  ghost predicate Covers(clusters: Clusters, rows: seq<Row>) { Keys(rows) <= clusters.Keys }

  /** The ids CampaignClusters hands out: equal exactly for linked keys. */
  ghost predicate Faithful(clusters: Clusters, rows: seq<Row>) {
    && clusters.Keys == Keys(rows)
    && forall x, y :: x in clusters && y in clusters ==> (clusters[x] == clusters[y] <==> Linked(rows, x, y))
  }

  function OneIf(keep: Row -> bool): Row -> seq<Row> { (r: Row) => if keep(r) then [r] else [] }

  /** A comprehension: the rows that satisfy `keep`, in order. */
  function Select(rows: seq<Row>, keep: Row -> bool): seq<Row> { Gather(rows, OneIf(keep)) }

  lemma SelectIn(rows: seq<Row>, keep: Row -> bool, r: Row)
    ensures r in Select(rows, keep) <==> r in rows && keep(r)
  {
    GatherIn(rows, OneIf(keep), r);
    if r in rows {
      var i :| 0 <= i < |rows| && rows[i] == r;
      assert keep(r) ==> r in OneIf(keep)(rows[i]);
    }
  }

  /** Two tests that never agree share out what either of them selects. */
  lemma {:induction false} SelectUnion(rows: seq<Row>, p: Row -> bool, q: Row -> bool, either: Row -> bool)
    requires forall r :: r in rows ==> (either(r) <==> p(r) || q(r)) && !(p(r) && q(r))
    ensures multiset(Select(rows, p)) + multiset(Select(rows, q)) == multiset(Select(rows, either))
    decreases |rows|
  {
    if rows != [] {
      var n := |rows| - 1;
      SelectUnion(rows[..n], p, q, either);
      assert multiset(OneIf(p)(rows[n])) + multiset(OneIf(q)(rows[n])) == multiset(OneIf(either)(rows[n]));
    }
  }

  lemma {:induction false} SelectAll(rows: seq<Row>, keep: Row -> bool)
    requires forall r :: r in rows ==> keep(r)
    ensures Select(rows, keep) == rows
    decreases |rows|
  {
    if rows != [] {
      var n := |rows| - 1;
      SelectAll(rows[..n], keep);
      assert rows == rows[..n] + [rows[n]];
    }
  }

  /** The rows of `some` stand in `all` at rising positions. */
  ghost predicate InOrder(some: seq<Row>, all: seq<Row>) { exists at: seq<nat> :: Places(some, all, at) }

  predicate Places(some: seq<Row>, all: seq<Row>, at: seq<nat>) {
    && |at| == |some|
    && (forall k :: 0 <= k < |at| ==> at[k] < |all| && all[at[k]] == some[k])
    && (forall j, k :: 0 <= j < k < |at| ==> at[j] < at[k])
  }

  lemma {:induction false} SelectPlaces(rows: seq<Row>, keep: Row -> bool) returns (at: seq<nat>)
    ensures Places(Select(rows, keep), rows, at)
    decreases |rows|
  {
    at := [];
    if rows != [] {
      var n := |rows| - 1;
      at := SelectPlaces(rows[..n], keep);
      if keep(rows[n]) { at := at + [n]; }
    }
  }

  lemma PlacesCompose(a: seq<Row>, b: seq<Row>, c: seq<Row>, p: seq<nat>, q: seq<nat>)
    requires Places(a, b, p) && Places(b, c, q)
    ensures InOrder(a, c)
  {
    var at := seq(|p|, k requires 0 <= k < |p| => q[p[k]]);
    assert Places(a, c, at);
  }

  /** First the rows before the cutoff, then the others, both in row order. */
  ghost predicate EarlyThenMoved(train: seq<Row>, rows: seq<Row>, cutoff: string) {
    exists n :: 0 <= n <= |train| && InOrder(train[..n], rows) && InOrder(train[n..], rows)
                && forall k :: 0 <= k < |train| ==> (k < n <==> Less(train[k].date, cutoff))
  }

  lemma TrainInOrder(rows: seq<Row>, clusters: Clusters, cutoff: string)
    ensures EarlyThenMoved(Temporal(rows, clusters, cutoff).0, rows, cutoff)
  {
    var early := Select(rows, r => Early(r, cutoff));
    var late := Select(rows, r => !Early(r, cutoff));
    var ctr := Ids(clusters, early);
    var moved := Select(late, r => IdOf(clusters, r) in ctr);
    var train := Temporal(rows, clusters, cutoff).0;
    var e := SelectPlaces(rows, r => Early(r, cutoff));
    var p := SelectPlaces(late, r => IdOf(clusters, r) in ctr);
    var q := SelectPlaces(rows, r => !Early(r, cutoff));
    PlacesCompose(moved, late, rows, p, q);
    assert train[..|early|] == early && train[|early|..] == moved;
    forall k | 0 <= k < |train| ensures k < |early| <==> Less(train[k].date, cutoff) {
      if k < |early| {
        SelectIn(rows, r => Early(r, cutoff), early[k]);
      } else {
        SelectIn(late, r => IdOf(clusters, r) in ctr, moved[k - |early|]);
        SelectIn(rows, r => !Early(r, cutoff), moved[k - |early|]);
      }
    }
  }

  lemma TestInOrder(rows: seq<Row>, clusters: Clusters, cutoff: string)
    ensures InOrder(Temporal(rows, clusters, cutoff).1, rows)
  {
    var late := Select(rows, r => !Early(r, cutoff));
    var ctr := Ids(clusters, Select(rows, r => Early(r, cutoff)));
    var p := SelectPlaces(late, r => IdOf(clusters, r) !in ctr);
    var q := SelectPlaces(rows, r => !Early(r, cutoff));
    PlacesCompose(Temporal(rows, clusters, cutoff).1, late, rows, p, q);
  }

  /** A row list is shared out between a test and its negation. */
  lemma SelectShares(rows: seq<Row>, keep: Row -> bool, drop: Row -> bool)
    requires forall r :: keep(r) <==> !drop(r)
    ensures multiset(Select(rows, keep)) + multiset(Select(rows, drop)) == multiset(rows)
  {
    SelectUnion(rows, keep, drop, r => true);
    SelectAll(rows, r => true);
  }

  // ---- temporal ----

  predicate Early(r: Row, cutoff: string) { Less(r.date, cutoff) }

  function IdOf(clusters: Clusters, r: Row): Option<Key> {
    if KeyOf(r) in clusters then Some(clusters[KeyOf(r)]) else None
  }

  function Ids(clusters: Clusters, rows: seq<Row>): set<Option<Key>> { set r | r in rows :: IdOf(clusters, r) }

  /** (train, test). */
  function Temporal(rows: seq<Row>, clusters: Clusters, cutoff: string): (seq<Row>, seq<Row>) {
    var train := Select(rows, r => Early(r, cutoff));
    var late := Select(rows, r => !Early(r, cutoff));
    var ctr := Ids(clusters, train);
    var moved := Select(late, r => IdOf(clusters, r) in ctr);
    var test := Select(late, r => IdOf(clusters, r) !in ctr);
    (train + moved, test)
  }

  /** assert_pure lets the run go on. */
  predicate Pure(train: seq<Row>, test: seq<Row>, clusters: Clusters) { Ids(clusters, train) !! Ids(clusters, test) }

  /** Nothing is lost or doubled, and no id is on both sides, whatever the ids are. */
  lemma TemporalConserves(rows: seq<Row>, clusters: Clusters, cutoff: string)
    ensures var (train, test) := Temporal(rows, clusters, cutoff);
            multiset(train + test) == multiset(rows) && Pure(train, test, clusters)
  {
    var early := Select(rows, r => Early(r, cutoff));
    var late := Select(rows, r => !Early(r, cutoff));
    var ctr := Ids(clusters, early);
    var (train, test) := Temporal(rows, clusters, cutoff);
    SelectShares(rows, r => Early(r, cutoff), r => !Early(r, cutoff));
    SelectShares(late, r => IdOf(clusters, r) in ctr, r => IdOf(clusters, r) !in ctr);
    forall r | r in train ensures IdOf(clusters, r) in ctr {
      SelectIn(late, q => IdOf(clusters, q) in ctr, r);
    }
    forall r | r in test ensures IdOf(clusters, r) !in ctr {
      SelectIn(late, q => IdOf(clusters, q) !in ctr, r);
    }
  }

  /** Every row of r's campaign, r included, was first seen at or after the cutoff. */
  ghost predicate AllLate(rows: seq<Row>, cutoff: string, r: Row) {
    !Early(r, cutoff) && forall q :: q in rows && Linked(rows, KeyOf(r), KeyOf(q)) ==> !Early(q, cutoff)
  }

  /** The test side is exactly the rows whose whole campaign was first seen at or after the cutoff. */
  lemma TestIsNovel(rows: seq<Row>, clusters: Clusters, cutoff: string, r: Row)
    requires Faithful(clusters, rows)
    ensures r in Temporal(rows, clusters, cutoff).1 <==>
              r in rows && AllLate(rows, cutoff, r)
  {
    var early := Select(rows, q => Early(q, cutoff));
    var late := Select(rows, q => !Early(q, cutoff));
    var ctr := Ids(clusters, early);
    SelectIn(late, q => IdOf(clusters, q) !in ctr, r);
    SelectIn(rows, q => !Early(q, cutoff), r);
    LinkedReflexive(rows, KeyOf(r));
    if r in rows {
      assert KeyOf(r) in clusters;
      forall q | q in rows && Linked(rows, KeyOf(r), KeyOf(q)) && Early(q, cutoff) ensures IdOf(clusters, r) in ctr {
        SelectIn(rows, p => Early(p, cutoff), q);
        assert KeyOf(q) in clusters;
        assert IdOf(clusters, q) == IdOf(clusters, r);
      }
      if IdOf(clusters, r) in ctr {
        var q :| q in early && IdOf(clusters, q) == IdOf(clusters, r);
        SelectIn(rows, p => Early(p, cutoff), q);
        assert KeyOf(q) in clusters;
        assert Linked(rows, KeyOf(r), KeyOf(q));
      }
    }
  }

  /** No chain of shared groups leads from a test row to a train row. */
  lemma SidesAreUnlinked(rows: seq<Row>, clusters: Clusters, cutoff: string, r: Row, q: Row)
    requires Faithful(clusters, rows)
    requires var (train, test) := Temporal(rows, clusters, cutoff); r in test && q in train
    ensures !Linked(rows, KeyOf(r), KeyOf(q))
  {
    TemporalConserves(rows, clusters, cutoff);
    var (train, test) := Temporal(rows, clusters, cutoff);
    assert q in multiset(train + test) && r in multiset(train + test);
    assert KeyOf(q) in clusters && KeyOf(r) in clusters;
    assert IdOf(clusters, r) in Ids(clusters, test) && IdOf(clusters, q) in Ids(clusters, train);
  }

  /**
   The temporal branch of the script, from the pool to the two sides. assert_pure can never stop it,
   and no chain of shared groups leads from a test row to a train row.
  */
  method TemporalMode(rows: seq<Row>, cutoff: string) returns (train: seq<Row>, test: seq<Row>, pure: bool)
    ensures pure
    ensures multiset(train + test) == multiset(rows)
    ensures forall r :: r in test <==> r in rows && forall q :: q in rows && Linked(rows, KeyOf(r), KeyOf(q)) ==> !Less(q.date, cutoff)
    ensures forall r :: r in rows && Less(r.date, cutoff) ==> r in train
    ensures InOrder(test, rows) && EarlyThenMoved(train, rows, cutoff)
    ensures forall r, q :: r in test && q in train ==> !Linked(rows, KeyOf(r), KeyOf(q))
  {
    var clusters := CampaignClusters(rows);
    var sides := Temporal(rows, clusters, cutoff);
    train, test := sides.0, sides.1;
    pure := Pure(train, test, clusters);
    TemporalConserves(rows, clusters, cutoff);
    forall r
      ensures r in test <==> r in rows && forall q :: q in rows && Linked(rows, KeyOf(r), KeyOf(q)) ==> !Less(q.date, cutoff) {
      TestIsNovel(rows, clusters, cutoff, r);
      LinkedReflexive(rows, KeyOf(r));
    }
    TestInOrder(rows, clusters, cutoff);
    TrainInOrder(rows, clusters, cutoff);
    forall r | r in rows && Early(r, cutoff) ensures r in train {
      SelectIn(rows, q => Early(q, cutoff), r);
    }
    forall r, q | r in test && q in train ensures !Linked(rows, KeyOf(r), KeyOf(q)) {
      SidesAreUnlinked(rows, clusters, cutoff, r, q);
    }
  }
}
