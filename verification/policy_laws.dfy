/** How a decision moves when signals are added, rules disabled, quorums raised, or severities re-graded. */
module PolicyLaws {
  import opened Verdicts
  import opened Gathering
  import opened Seqs
  import opened Ranking
  import opened Engine

  /** Allow < Quarantine < Block. */
  function Level(d: Decision): nat {
    match d
    case Block => 2
    case Quarantine => 1
    case _ => 0
  }

  // ---- tallies ----

  lemma {:induction false} TallyWithout(s: seq<Signal>, i: nat, p: Signal -> bool)
    requires i < |s|
    ensures Tally(s, p) == Tally(Without(s, i), p) + (if p(s[i]) then 1 else 0)
    decreases |s|
  {
    var n, rest := |s| - 1, Without(s, i);
    if i == n {
      assert rest == s[..n];
    } else {
      TallyWithout(s[..n], i, p);
      assert rest[..n - 1] == Without(s[..n], i) && rest[n - 1] == s[n];
    }
  }

  lemma {:induction false} TallyPart(a: seq<Signal>, b: seq<Signal>, p: Signal -> bool)
    requires multiset(a) <= multiset(b)
    ensures Tally(a, p) <= Tally(b, p)
    decreases |a|
  {
    if a != [] {
      var n := |a| - 1;
      assert a == a[..n] + [a[n]];
      assert a[n] in multiset(b);
      var i :| 0 <= i < |b| && b[i] == a[n];
      WithoutMultiset(b, i);
      TallyWithout(b, i, p);
      TallyPart(a[..n], Without(b, i), p);
    }
  }

  lemma {:induction false} TallyWeaker(s: seq<Signal>, p: Signal -> bool, q: Signal -> bool)
    requires forall x :: p(x) ==> q(x)
    ensures Tally(s, p) <= Tally(s, q)
    decreases |s|
  {
    if s != [] { TallyWeaker(s[..|s| - 1], p, q); }
  }

  // ---- adding, disabling, raising quorums ----

  /** More signals never lower the decision. */
  lemma AddingNeverLowers(pol: Policy, a: seq<Signal>, b: seq<Signal>)
    requires multiset(a) <= multiset(b)
    ensures Level(DecisionOf(pol, a)) <= Level(DecisionOf(pol, b))
  {
    TallyPart(a, b, Weighs(pol, Critical));
    TallyPart(a, b, Weighs(pol, High));
    TallyPart(a, b, Weighs(pol, Medium));
  }

  /** `loose` disables at least the rules `tight` does and asks for at least as many signals. */
  ghost predicate Looser(loose: Policy, tight: Policy) {
    && (forall r :: Disabled(tight, r) ==> Disabled(loose, r))
    && loose.overrides == tight.overrides
    && CriticalQuorum(loose) >= CriticalQuorum(tight)
    && HighQuorum(loose) >= HighQuorum(tight)
    && MediumQuorum(loose) >= MediumQuorum(tight)
    && (loose.failClosed ==> tight.failClosed)
  }

  /** Disabling rules, raising resolved quorums and leaving fail-closed mode never raise the decision. */
  lemma LooseningNeverRaises(loose: Policy, tight: Policy, signals: seq<Signal>)
    requires Looser(loose, tight)
    ensures Level(DecisionOf(loose, signals)) <= Level(DecisionOf(tight, signals))
  {
    TallyWeaker(signals, Weighs(loose, Critical), Weighs(tight, Critical));
    TallyWeaker(signals, Weighs(loose, High), Weighs(tight, High));
    TallyWeaker(signals, Weighs(loose, Medium), Weighs(tight, Medium));
  }

  /** Failing closed turns every quarantine into a block, and touches nothing else. */
  lemma FailClosedMeaning(pol: Policy, signals: seq<Signal>)
    ensures var open, closed := DecisionOf(pol.(failClosed := false), signals), DecisionOf(pol.(failClosed := true), signals);
            && (closed == Allow <==> open == Allow)
            && (closed == Block <==> open != Allow)
            && open in {Allow, Quarantine, Block}
  {
    var a, b := pol.(failClosed := false), pol.(failClosed := true);
    SameWeights(a, b, signals);
  }

  lemma SameWeights(a: Policy, b: Policy, signals: seq<Signal>)
    requires a.overrides == b.overrides && a.disabled == b.disabled
    ensures forall sev :: Number(a, signals, sev) == Number(b, signals, sev)
  {
    forall sev ensures Number(a, signals, sev) == Number(b, signals, sev) {
      TallyWeaker(signals, Weighs(a, sev), Weighs(b, sev));
      TallyWeaker(signals, Weighs(b, sev), Weighs(a, sev));
    }
  }

  // ---- the order of the signals ----

  lemma SameNumbers(pol: Policy, a: seq<Signal>, b: seq<Signal>)
    requires multiset(a) == multiset(b)
    ensures forall sev :: Number(pol, a, sev) == Number(pol, b, sev)
  {
    forall sev ensures Number(pol, a, sev) == Number(pol, b, sev) {
      SameTally(a, b, Weighs(pol, sev));
    }
  }

  /** The decision ignores the order of the signals. */
  lemma OrderIsIrrelevant(pol: Policy, a: seq<Signal>, b: seq<Signal>)
    requires multiset(a) == multiset(b)
    ensures DecisionOf(pol, a) == DecisionOf(pol, b)
  {
    SameNumbers(pol, a, b);
  }

  lemma SameReason(d: Decision, a: seq<Signal>, b: seq<Signal>)
    requires multiset(a) == multiset(b) && InsertAll(a) == InsertAll(b)
    ensures Reason(d, a) == Reason(d, b)
  {
    SameLength(a, b);
    match d
    case Quarantine =>
      SameTally(a, b, HasSeverity(High));
      SameTally(a, b, HasSeverity(Medium));
    case _ =>
  }

  lemma SameTally(a: seq<Signal>, b: seq<Signal>, p: Signal -> bool)
    requires multiset(a) == multiset(b)
    ensures Tally(a, p) == Tally(b, p)
  {
    TallyPart(a, b, p);
    TallyPart(b, a, p);
  }

  /** When no two counted signals share severity, stage and rule, the whole verdict ignores the order. */
  lemma VerdictIgnoresOrder(art: Artifact, a: seq<Signal>, b: seq<Signal>, pol: Policy, engine: string)
    requires multiset(a) == multiset(b)
    requires DistinctKeys(Effective(pol, a)) && DistinctKeys(Effective(pol, b))
    ensures Decided(art, a, pol, engine) == Decided(art, b, pol, engine)
  {
    OrderIsIrrelevant(pol, a, b);
    GatherPermutes(a, b, Kept(pol));
    OrderDoesNotMatter(Effective(pol, a), Effective(pol, b));
    SameReason(DecisionOf(pol, a), Effective(pol, a), Effective(pol, b));
  }
}
