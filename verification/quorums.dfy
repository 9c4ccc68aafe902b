/** The decision, in the fields of the policy and in counts of positions of the signal list. */
module Quorums {
  import opened Verdicts
  import opened Text
  import opened Engine
  import opened PolicyLaws
  import Ranking
  import Seqs
  import Gathering

  /** A rule is switched off only by an entry that says so. */
  predicate Enabled(pol: Policy, s: Signal) { s.rule in pol.disabled ==> !pol.disabled[s.rule] }

  /** The severity the policy gives a signal, if it gives one. */
  predicate Regraded(pol: Policy, s: Signal, sev: Severity) {
    if s.rule in pol.overrides then pol.overrides[s.rule] == sev else s.severity == sev
  }

  /** The positions of the enabled signals graded sev. */
  function Graded(pol: Policy, signals: seq<Signal>, sev: Severity): set<nat> {
    set i: nat | i < |signals| && Enabled(pol, signals[i]) && Regraded(pol, signals[i], sev)
  }

  function Counting(pol: Policy, signals: seq<Signal>): set<nat> { set i: nat | i < |signals| && Enabled(pol, signals[i]) }

  function Where(signals: seq<Signal>, p: Signal -> bool): set<nat> { set i: nat | i < |signals| && p(signals[i]) }

  lemma {:induction false} TallyIsWhere(signals: seq<Signal>, p: Signal -> bool)
    ensures Tally(signals, p) == |Where(signals, p)|
    decreases |signals|
  {
    if signals != [] {
      var n := |signals| - 1;
      TallyIsWhere(signals[..n], p);
      var before := Where(signals[..n], p);
      assert Where(signals, p) == if p(signals[n]) then before + {n} else before;
    }
  }

  lemma NumberIsGraded(pol: Policy, signals: seq<Signal>, sev: Severity)
    ensures Number(pol, signals, sev) == |Graded(pol, signals, sev)|
  {
    TallyIsWhere(signals, Weighs(pol, sev));
    assert Graded(pol, signals, sev) == Where(signals, Weighs(pol, sev));
  }

  lemma {:induction false} KeptIsCounting(pol: Policy, signals: seq<Signal>)
    ensures |Effective(pol, signals)| == |Counting(pol, signals)|
    decreases |signals|
  {
    if signals != [] {
      var n := |signals| - 1;
      KeptIsCounting(pol, signals[..n]);
      var before := Counting(pol, signals[..n]);
      assert Counting(pol, signals) == if Disabled(pol, signals[n].rule) then before else before + {n};
    }
  }

  /** A configured quorum counts as it is when positive, and as the shipped one otherwise. */
  predicate Resolves(configured: int, shipped: int, quorum: int) {
    if configured > 0 then quorum == configured else quorum == shipped
  }

  /**
   What Decide decides, for any configured quorums: c, h and m are the positive ones as configured and
   1, 1 and 2 for the others.
  */
  lemma DecisionMeans(art: Artifact, signals: seq<Signal>, pol: Policy, engine: string, c: int, h: int, m: int)
    requires Resolves(pol.criticalQuorum, 1, c) && Resolves(pol.highQuorum, 1, h) && Resolves(pol.mediumQuorum, 2, m)
    ensures var d := Decided(art, signals, pol, engine).decision;
            var criticals, highs, mediums :=
              |Graded(pol, signals, Critical)|, |Graded(pol, signals, High)|, |Graded(pol, signals, Medium)|;
            && d in {Allow, Quarantine, Block}
            && (d == Allow <==> criticals < c && highs < h && mediums < m)
            && (!pol.failClosed ==> (d == Block <==> criticals >= c))
            && (pol.failClosed ==> d != Quarantine)
  {
    NumberIsGraded(pol, signals, Critical);
    NumberIsGraded(pol, signals, High);
    NumberIsGraded(pol, signals, Medium);
  }

  /** A sweep point of the shipped kind: with all three quorums 1 a lone enabled medium is quarantined. */
  lemma OneMediumUnderOnes(art: Artifact, s: Signal, engine: string)
    requires s.severity == Medium
    ensures Decided(art, [s], Policy(false, 1, 1, 1, map[], map[]), engine).decision == Quarantine
    ensures Decided(art, [s], Policy(false, 0, 0, 0, map[], map[]), engine).decision == Allow
    ensures Decided(art, [s], Policy(false, -1, -1, -1, map[], map[]), engine).decision == Allow
  {
    forall q | q in {-1, 0, 1}
      ensures Decided(art, [s], Policy(false, q, q, q, map[], map[]), engine).decision == if q == 1 then Quarantine else Allow {
      var pol := Policy(false, q, q, q, map[], map[]);
      assert Graded(pol, [s], Critical) == {} && Graded(pol, [s], High) == {};
      assert Graded(pol, [s], Medium) == {0};
      DecisionMeans(art, [s], pol, engine, 1, 1, if q == 1 then 1 else 2);
    }
  }

  /** What a verdict says of itself, word for word. */
  lemma ReasonMeans(art: Artifact, signals: seq<Signal>, pol: Policy, engine: string)
    ensures var v := Decided(art, signals, pol, engine);
            var highs, mediums := |Graded(pol, signals, High)|, |Graded(pol, signals, Medium)|;
            var n := |Counting(pol, signals)|;
            && v.artifact == art && v.engine == engine && |v.signals| == n
            && (v.decision == Quarantine ==>
                 v.reason == "quarantined for review: " + Decimal(highs) + " high, " + Decimal(mediums) + " medium signal(s)")
            && (v.decision == Allow ==>
                 v.reason == if n == 0 then "allowed: no signals"
                             else "allowed: " + Decimal(n) + " informational signal(s), none blocking")
  {
    var kept := Effective(pol, signals);
    CountedWhereKept(pol, signals, High);
    CountedWhereKept(pol, signals, Medium);
    NumberIsGraded(pol, signals, High);
    NumberIsGraded(pol, signals, Medium);
    KeptIsCounting(pol, signals);
    Ranking.InsertAllIsStableSort(kept);
    Seqs.SameLength(Ranking.InsertAll(kept), kept);
  }

  lemma KeptFrom(pol: Policy, signals: seq<Signal>, s: Signal) returns (i: nat)
    requires s in Effective(pol, signals)
    ensures i < |signals| && Enabled(pol, signals[i]) && Regraded(pol, signals[i], s.severity)
    ensures s.description == signals[i].description
  {
    Gathering.GatherIn(signals, Kept(pol), s);
    i :| i < |signals| && s in Kept(pol)(signals[i]);
  }

  /** A block for its criticals quotes one of them. */
  lemma BlockQuotesACritical(art: Artifact, signals: seq<Signal>, pol: Policy, engine: string, c: int) returns (i: nat)
    requires Resolves(pol.criticalQuorum, 1, c) && |Graded(pol, signals, Critical)| >= c
    ensures i in Graded(pol, signals, Critical)
    ensures Decided(art, signals, pol, engine).reason == "blocked on critical signal: " + signals[i].description
  {
    NumberIsGraded(pol, signals, Critical);
    var s := BlockNamesASignal(art, signals, pol, engine);
    i := KeptFrom(pol, signals, s);
    CriticalText(s);
  }

  lemma CriticalText(s: Signal)
    requires s.severity == Critical
    ensures BlockedOn(s) == "blocked on critical signal: " + s.description
  {
    assert "blocked on " + "critical" + " signal: " == "blocked on critical signal: ";
  }

  /** Under the shipped policy one critical signal anywhere blocks. */
  lemma CriticalBlocks(art: Artifact, signals: seq<Signal>, engine: string, x: Signal)
    requires x in signals && x.severity == Critical
    ensures Decided(art, signals, DEFAULT_POLICY, engine).decision == Block
  {
    var i: nat :| i < |signals| && signals[i] == x;
    assert i in Graded(DEFAULT_POLICY, signals, Critical);
    DecisionMeans(art, signals, DEFAULT_POLICY, engine, 1, 1, 2);
  }
}
