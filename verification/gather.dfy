/** Concatenating what each element of a sequence contributes. */
module Gathering {
  import opened Seqs

  function Gather<A, T>(items: seq<A>, f: A -> seq<T>): seq<T> {
    if items == [] then []
    else
      var n := |items| - 1;
      Gather(items[..n], f) + f(items[n])
  }

  lemma GatherStep<A, T>(items: seq<A>, i: nat, f: A -> seq<T>)
    requires i < |items|
    ensures Gather(items[..i + 1], f) == Gather(items[..i], f) + f(items[i])
  {
    assert items[..i + 1][..i] == items[..i];
  }

  lemma {:induction false} GatherJoin<A, T>(a: seq<A>, b: seq<A>, f: A -> seq<T>)
    ensures Gather(a + b, f) == Gather(a, f) + Gather(b, f)
    decreases |b|
  {
    if b == [] {
      assert a + b == a;
    } else {
      var n := |b| - 1;
      assert (a + b)[..|a| + n] == a + b[..n] && (a + b)[|a| + n] == b[n];
      GatherJoin(a, b[..n], f);
      Associative(Gather(a, f), Gather(b[..n], f), f(b[n]));
    }
  }

  lemma {:induction false} GatherIn<A, T>(items: seq<A>, f: A -> seq<T>, x: T)
    ensures x in Gather(items, f) <==> exists i :: 0 <= i < |items| && x in f(items[i])
    decreases |items|
  {
    if items != [] {
      var n := |items| - 1;
      GatherIn(items[..n], f, x);
      if x in Gather(items[..n], f) {
        var i :| 0 <= i < n && x in f(items[..n][i]);
        assert items[..n][i] == items[i];
      }
      if i :| 0 <= i < |items| && x in f(items[i]) {
        if i < n { assert items[..n][i] == items[i]; }
      }
    }
  }

  lemma {:induction false} GatherSame<A, T>(items: seq<A>, f: A -> seq<T>, g: A -> seq<T>)
    requires forall x :: x in items ==> f(x) == g(x)
    ensures Gather(items, f) == Gather(items, g)
    decreases |items|
  {
    if items != [] { GatherSame(items[..|items| - 1], f, g); }
  }

  lemma GatherOne<A, T>(x: A, f: A -> seq<T>)
    ensures Gather([x], f) == f(x)
  {
    assert [x][..0] == [];
  }

  lemma {:induction false} GatherWithout<A, T>(s: seq<A>, i: nat, f: A -> seq<T>)
    requires i < |s|
    ensures multiset(Gather(s, f)) == multiset(f(s[i])) + multiset(Gather(Without(s, i), f))
    decreases |s|
  {
    var n, rest := |s| - 1, Without(s, i);
    if i == n {
      assert rest == s[..n];
    } else {
      GatherWithout(s[..n], i, f);
      assert rest[..n - 1] == Without(s[..n], i) && rest[n - 1] == s[n];
    }
  }

  /** The order of the elements does not matter to what they contribute together. */
  lemma {:induction false} GatherPermutes<A, T>(a: seq<A>, b: seq<A>, f: A -> seq<T>)
    requires multiset(a) == multiset(b)
    ensures multiset(Gather(a, f)) == multiset(Gather(b, f))
    decreases |a|
  {
    if a == [] {
      SameLength(a, b);
    } else {
      var i := FindHead(a, b);
      assert Without(a, 0) == a[1..];
      GatherPermutes(a[1..], Without(b, i), f);
      GatherWithout(a, 0, f);
      GatherWithout(b, i, f);
    }
  }
}
