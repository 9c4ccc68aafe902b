/**
 The parallel analysis pass: a producer hands sample indices over an unbuffered channel to a pool of
 workers, closes it, and waits. Every interleaving fills the same array.
*/
module Workers {
  import opened Verdicts
  import opened Evaluation

  datatype Worker = Ranging | Working(i: nat) | Exited

  /** `next` is the index the producer is trying to send. */
  datatype State = State(next: nat, closed: bool, returned: bool, workers: seq<Worker>, out: seq<Option<Scored>>)

  datatype Step =
    | Hand(w: nat)       // the producer's send meets worker w's receive
    | Finish(w: nat)     // worker w stores its result
    | Close
    | Leave(w: nat)      // worker w sees the closed channel
    | Return             // the wait is over

  function Start(samples: nat, workers: int): State {
    State(0, false, false, seq(if workers > 0 then workers else 0, _ => Ranging), seq(samples, _ => None))
  }

  predicate Enabled(s: State, n: nat, a: Step) {
    !s.returned &&
    match a
    case Hand(w) => s.next < n && w < |s.workers| && s.workers[w].Ranging?
    case Finish(w) => w < |s.workers| && s.workers[w].Working? && s.workers[w].i < |s.out|
    case Close => s.next >= n && !s.closed
    case Leave(w) => s.closed && w < |s.workers| && s.workers[w].Ranging?
    case Return => s.closed && forall w :: 0 <= w < |s.workers| ==> s.workers[w].Exited?
  }

  /** `f(i)` is the analysis of sample i. */
  function Apply(s: State, n: nat, f: nat -> Scored, a: Step): State
    requires Enabled(s, n, a)
  {
    match a
    case Hand(w) => s.(workers := s.workers[w := Working(s.next)], next := s.next + 1)
    case Finish(w) =>
      s.(out := s.out[s.workers[w].i := Some(f(s.workers[w].i))], workers := s.workers[w := Ranging])
    case Close => s.(closed := true)
    case Leave(w) => s.(workers := s.workers[w := Exited])
    case Return => s.(returned := true)
  }

  predicate Legal(s: State, n: nat, f: nat -> Scored, acts: seq<Step>)
    decreases |acts|
  {
    acts == [] || (Enabled(s, n, acts[0]) && Legal(Apply(s, n, f, acts[0]), n, f, acts[1..]))
  }

  function Run(s: State, n: nat, f: nat -> Scored, acts: seq<Step>): State
    requires Legal(s, n, f, acts)
    decreases |acts|
  {
    if acts == [] then s else Run(Apply(s, n, f, acts[0]), n, f, acts[1..])
  }

  // ---- what every interleaving keeps ----

  predicate HeldBy(s: State, w: nat, i: nat) { w < |s.workers| && s.workers[w] == Working(i) }

  /** Sent indices are in one worker's hands or done, never both and never in two hands. */
  ghost predicate Inv(s: State, n: nat, f: nat -> Scored) {
    && |s.out| == n && s.next <= n
    && (forall i :: 0 <= i < n ==> s.out[i] == None || (i < s.next && s.out[i] == Some(f(i))))
    && (forall i :: 0 <= i < s.next ==> s.out[i].Some? || exists w: nat :: HeldBy(s, w, i))
    && (forall w: nat, i: nat :: HeldBy(s, w, i) ==> i < s.next && s.out[i] == None)
    && (forall v: nat, w: nat, i: nat :: HeldBy(s, v, i) && HeldBy(s, w, i) ==> v == w)
    && (s.closed ==> s.next == n)
    && (!s.closed ==> forall w :: 0 <= w < |s.workers| ==> !s.workers[w].Exited?)
    && (s.returned ==> s.closed && forall w :: 0 <= w < |s.workers| ==> s.workers[w].Exited?)
  }

  lemma InvStart(n: nat, workers: int, f: nat -> Scored)
    ensures Inv(Start(n, workers), n, f)
  {
  }

  lemma InvApply(s: State, n: nat, f: nat -> Scored, a: Step)
    requires Inv(s, n, f) && Enabled(s, n, a)
    ensures Inv(Apply(s, n, f, a), n, f)
  {
    var s' := Apply(s, n, f, a);
    if a.Finish? { assert HeldBy(s, a.w, s.workers[a.w].i); }
    forall i | 0 <= i < s'.next ensures s'.out[i].Some? || exists w: nat :: HeldBy(s', w, i) {
      if i < s.next {
        if s.out[i].None? {
          var w: nat :| HeldBy(s, w, i);
          assert HeldBy(s', w, i) || s'.out[i].Some?;
        }
      } else {
        assert HeldBy(s', a.w, i);
      }
    }
    forall w: nat, i: nat | HeldBy(s', w, i)
      ensures i < s'.next && s'.out[i] == None && (HeldBy(s, w, i) || (a == Hand(w) && i == s.next)) {
      if !HeldBy(s, w, i) { assert a == Hand(w); }
    }
  }

  lemma {:induction false} InvRun(s: State, n: nat, f: nat -> Scored, acts: seq<Step>)
    requires Inv(s, n, f) && Legal(s, n, f, acts)
    ensures Inv(Run(s, n, f, acts), n, f)
    decreases |acts|
  {
    if acts != [] {
      InvApply(s, n, f, acts[0]);
      InvRun(Apply(s, n, f, acts[0]), n, f, acts[1..]);
    }
  }

  /** Whatever the interleaving, when analyzeAll returns the array holds each sample's own analysis. */
  lemma ReturnsEveryAnalysis(n: nat, workers: int, f: nat -> Scored, acts: seq<Step>)
    requires Legal(Start(n, workers), n, f, acts) && Run(Start(n, workers), n, f, acts).returned
    ensures Run(Start(n, workers), n, f, acts).out == seq(n, i requires 0 <= i < n => Some(f(i)))
  {
    InvStart(n, workers, f);
    InvRun(Start(n, workers), n, f, acts);
    var s := Run(Start(n, workers), n, f, acts);
    assert forall w: nat, i: nat :: w < |s.workers| ==> !HeldBy(s, w, i);
    assert forall i :: 0 <= i < n ==> s.out[i].Some?;
  }

  // ---- termination and deadlock ----

  function Left(w: Worker): nat {
    match w
    case Working(_) => 2
    case Ranging => 1
    case Exited => 0
  }

  function Sum(workers: seq<Worker>): nat {
    if workers == [] then 0 else Left(workers[0]) + Sum(workers[1..])
  }

  lemma {:induction false} SumUpdate(workers: seq<Worker>, w: nat, x: Worker)
    requires w < |workers|
    ensures Sum(workers[w := x]) == Sum(workers) - Left(workers[w]) + Left(x)
    decreases |workers|
  {
    if w == 0 {
      assert workers[0 := x][1..] == workers[1..];
    } else {
      assert workers[w := x][1..] == workers[1..][w - 1 := x];
      SumUpdate(workers[1..], w - 1, x);
    }
  }

  function Work(s: State, n: nat): int {
    2 * (n - s.next) + Sum(s.workers) + (if s.closed then 0 else 1) + (if s.returned then 0 else 1)
  }

  /** No schedule is longer than the work there is. */
  lemma {:induction false} EveryRunIsBounded(s: State, n: nat, f: nat -> Scored, acts: seq<Step>)
    requires Inv(s, n, f) && Legal(s, n, f, acts)
    ensures |acts| <= Work(s, n)
    decreases |acts|
  {
    if acts != [] {
      var a := acts[0];
      match a {
        case Hand(w) => SumUpdate(s.workers, w, Working(s.next));
        case Finish(w) => SumUpdate(s.workers, w, Ranging);
        case Leave(w) => SumUpdate(s.workers, w, Exited);
        case _ =>
      }
      InvApply(s, n, f, a);
      EveryRunIsBounded(Apply(s, n, f, a), n, f, acts[1..]);
    }
  }

  ghost predicate Stuck(s: State, n: nat) { !s.returned && forall a :: !Enabled(s, n, a) }

  ghost predicate CanGetStuck(n: nat, workers: int, f: nat -> Scored) {
    exists acts :: Legal(Start(n, workers), n, f, acts) && Stuck(Run(Start(n, workers), n, f, acts), n)
  }

  /** With a worker, or nothing to do, something can always move until the call returns. */
  lemma SomethingMoves(s: State, n: nat, f: nat -> Scored) returns (a: Step)
    requires Inv(s, n, f) && !s.returned && (|s.workers| > 0 || n == 0)
    ensures Enabled(s, n, a)
  {
    if w :| 0 <= w < |s.workers| && s.workers[w].Working? {
      assert HeldBy(s, w, s.workers[w].i);
      a := Finish(w);
    } else if !s.closed {
      if s.next < n {
        assert s.workers[0].Ranging?;
        a := Hand(0);
      } else {
        a := Close;
      }
    } else if w :| 0 <= w < |s.workers| && s.workers[w].Ranging? {
      a := Leave(w);
    } else {
      a := Return;
    }
  }

  lemma {:induction false} PoolKeepsItsSize(s: State, n: nat, f: nat -> Scored, acts: seq<Step>)
    requires Legal(s, n, f, acts)
    ensures |Run(s, n, f, acts).workers| == |s.workers|
    decreases |acts|
  {
    if acts != [] { PoolKeepsItsSize(Apply(s, n, f, acts[0]), n, f, acts[1..]); }
  }

  /** The pass hangs exactly when it is asked to run samples with no worker at all. */
  lemma StuckIffNoWorkers(n: nat, workers: int, f: nat -> Scored)
    ensures CanGetStuck(n, workers, f) <==> workers <= 0 && n > 0
  {
    var s0: State := Start(n, workers);
    if workers <= 0 && n > 0 {
      assert Legal(s0, n, f, []) && Run(s0, n, f, []) == s0;
      forall a ensures !Enabled(s0, n, a) {
      }
      assert Stuck(s0, n);
    } else {
      forall acts | Legal(s0, n, f, acts) ensures !Stuck(Run(s0, n, f, acts), n) {
        var s := Run(s0, n, f, acts);
        if !s.returned {
          InvStart(n, workers, f);
          InvRun(s0, n, f, acts);
          PoolKeepsItsSize(s0, n, f, acts);
          var a := SomethingMoves(s, n, f);
        }
      }
    }
  }
}
