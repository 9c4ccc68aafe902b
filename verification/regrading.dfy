/** Changing the severity of rules: when raising it is safe, what an override can lose and a promotion buys. */
module Regrading {
  import opened Verdicts
  import opened Ranking
  import opened Engine
  import opened PolicyLaws

  /** `b` is `a` with some severities raised. */
  ghost predicate Raised(a: seq<Signal>, b: seq<Signal>) {
    && |a| == |b|
    && forall i :: 0 <= i < |a| ==> b[i] == a[i].(severity := b[i].severity) && Rank(a[i].severity) <= Rank(b[i].severity)
  }

  ghost predicate RaisingNeverLowers(pol: Policy) {
    forall a, b :: Raised(a, b) ==> Level(DecisionOf(pol, a)) <= Level(DecisionOf(pol, b))
  }

  lemma {:induction false} RaisedCounts(pol: Policy, a: seq<Signal>, b: seq<Signal>)
    requires Raised(a, b)
    ensures Number(pol, a, Critical) <= Number(pol, b, Critical)
    ensures Number(pol, a, Critical) + Number(pol, a, High) <= Number(pol, b, Critical) + Number(pol, b, High)
    ensures Number(pol, a, Critical) + Number(pol, a, High) + Number(pol, a, Medium)
         <= Number(pol, b, Critical) + Number(pol, b, High) + Number(pol, b, Medium)
    decreases |a|
  {
    if a != [] {
      var n := |a| - 1;
      RaisedCounts(pol, a[..n], b[..n]);
      assert b[n].rule == a[n].rule;
    }
  }

  /** A rule name no finite set of rules contains. */
  lemma {:induction false} LongerThanAll(rules: set<string>) returns (n: nat)
    ensures forall r :: r in rules ==> |r| < n
    decreases rules
  {
    n := 0;
    if rules != {} {
      var r :| r in rules;
      n := LongerThanAll(rules - {r});
      n := if n > |r| then n else |r| + 1;
    }
  }

  ghost predicate Untouched(pol: Policy, rule: string) { rule !in pol.disabled && rule !in pol.overrides }

  lemma FreshRule(pol: Policy) returns (r: string)
    ensures Untouched(pol, r)
  {
    var n := LongerThanAll(pol.disabled.Keys + pol.overrides.Keys);
    r := seq(n, _ => 'r');
  }

  function Alarm(rule: string, sev: Severity): Signal { Signal("static", rule, sev, "", "") }

  function Mediums(n: nat, rule: string): seq<Signal> { seq(n, _ => Alarm(rule, Medium)) }

  lemma {:induction false} NumberOfMediums(pol: Policy, rule: string, n: nat, sev: Severity)
    requires Untouched(pol, rule)
    ensures Number(pol, Mediums(n, rule), sev) == if sev == Medium then n else 0
  {
    if n > 0 {
      NumberOfMediums(pol, rule, n - 1, sev);
      assert Mediums(n, rule)[..n - 1] == Mediums(n - 1, rule);
    }
  }

  lemma OneMore(pol: Policy, signals: seq<Signal>, rule: string, sev: Severity)
    requires Untouched(pol, rule)
    ensures forall other :: Number(pol, signals + [Alarm(rule, sev)], other) == Number(pol, signals, other) + if sev == other then 1 else 0
  {
    forall other
      ensures Number(pol, signals + [Alarm(rule, sev)], other) == Number(pol, signals, other) + if sev == other then 1 else 0 {
      TallySnoc(signals, Alarm(rule, sev), Weighs(pol, other));
    }
  }

  /** One high signal raised to critical: a quarantine becomes an allow. */
  lemma CriticalQuorumAboveOne(pol: Policy)
    requires CriticalQuorum(pol) > 1 && HighQuorum(pol) == 1
    ensures !RaisingNeverLowers(pol)
  {
    var r := FreshRule(pol);
    var a, b := [] + [Alarm(r, High)], [] + [Alarm(r, Critical)];
    OneMore(pol, [], r, High);
    OneMore(pol, [], r, Critical);
    assert Raised(a, b);
    assert Level(DecisionOf(pol, a)) > Level(DecisionOf(pol, b));
  }

  /** Just enough mediums to quarantine, one of them raised to high. */
  lemma HighQuorumAboveOne(pol: Policy)
    requires HighQuorum(pol) > 1
    ensures !RaisingNeverLowers(pol)
  {
    var r := FreshRule(pol);
    var rest := Mediums(MediumQuorum(pol) - 1, r);
    var a, b := rest + [Alarm(r, Medium)], rest + [Alarm(r, High)];
    forall sev ensures Number(pol, rest, sev) == if sev == Medium then |rest| else 0 {
      NumberOfMediums(pol, r, |rest|, sev);
    }
    OneMore(pol, rest, r, Medium);
    OneMore(pol, rest, r, High);
    assert Raised(a, b);
    assert Level(DecisionOf(pol, a)) > Level(DecisionOf(pol, b));
  }

  /** Raising severities is safe for every input exactly when one critical blocks and one high quarantines. */
  lemma RaisingIsSafeIff(pol: Policy)
    ensures RaisingNeverLowers(pol) <==> CriticalQuorum(pol) == 1 && HighQuorum(pol) == 1
  {
    if HighQuorum(pol) > 1 {
      HighQuorumAboveOne(pol);
    } else if CriticalQuorum(pol) > 1 {
      CriticalQuorumAboveOne(pol);
    } else {
      forall a, b | Raised(a, b) ensures Level(DecisionOf(pol, a)) <= Level(DecisionOf(pol, b)) {
        RaisedCounts(pol, a, b);
      }
    }
  }

  // ---- promotions under the shipped quorums ----

  function Promotion(rule: string, sev: Severity): Policy { DEFAULT_POLICY.(overrides := map[rule := sev]) }

  predicate Catches(pol: Policy, signals: seq<Signal>) { DecisionOf(pol, signals) != Allow }

  /** Promoting a rule to high keeps every catch. */
  lemma {:induction false} PromotionCounts(rule: string, signals: seq<Signal>)
    ensures var hi := Promotion(rule, High);
            && Number(DEFAULT_POLICY, signals, Critical) + Number(DEFAULT_POLICY, signals, High)
            <= Number(hi, signals, Critical) + Number(hi, signals, High)
            && Number(DEFAULT_POLICY, signals, Medium)
            <= Number(hi, signals, Medium) + Number(hi, signals, High)
    decreases |signals|
  {
    if signals != [] { PromotionCounts(rule, signals[..|signals| - 1]); }
  }

  lemma PromotingToHighKeepsCatches(rule: string, signals: seq<Signal>)
    requires Catches(DEFAULT_POLICY, signals)
    ensures Catches(Promotion(rule, High), signals)
  {
    PromotionCounts(rule, signals);
  }

  function OfRule(rule: string): Signal -> bool { (s: Signal) => s.rule == rule }

  function MattersBeside(rule: string): Signal -> bool {
    (s: Signal) => s.rule != rule && s.severity in {Medium, High, Critical}
  }

  function SevereOfRule(rule: string): Signal -> bool {
    (s: Signal) => s.rule == rule && s.severity in {High, Critical}
  }

  lemma {:induction false} DemotionCounts(rule: string, signals: seq<Signal>)
    ensures var mid := Promotion(rule, Medium);
            var severe := Number(mid, signals, Critical) + Number(mid, signals, High);
            && severe + Number(mid, signals, Medium) == Tally(signals, MattersBeside(rule)) + Tally(signals, OfRule(rule))
            && Number(DEFAULT_POLICY, signals, Critical) + Number(DEFAULT_POLICY, signals, High)
            == severe + Tally(signals, SevereOfRule(rule))
            && Number(DEFAULT_POLICY, signals, Medium) <= Number(mid, signals, Medium)
            && Tally(signals, SevereOfRule(rule)) <= Tally(signals, OfRule(rule)) <= Number(mid, signals, Medium)
    decreases |signals|
  {
    if signals != [] { DemotionCounts(rule, signals[..|signals| - 1]); }
  }

  /**
   * An override to medium loses a catch exactly when the rule fired once, at high or
   * critical, and no other signal is medium or worse.
   */
  lemma PromotingToMediumLosesIff(rule: string, signals: seq<Signal>)
    ensures Catches(DEFAULT_POLICY, signals) && !Catches(Promotion(rule, Medium), signals)
            <==> Tally(signals, OfRule(rule)) == 1 && Tally(signals, SevereOfRule(rule)) == 1
                 && Tally(signals, MattersBeside(rule)) == 0
  {
    DemotionCounts(rule, signals);
  }

  /** The input behind that: one high signal, caught as it is and allowed as a lone medium. */
  lemma AloneAtMediumIsMissed(rule: string)
    ensures var signals := [Alarm(rule, High)];
            DecisionOf(DEFAULT_POLICY, signals) == Quarantine && DecisionOf(Promotion(rule, Medium), signals) == Allow
  {
    var signals := [] + [Alarm(rule, High)];
    forall pol, sev ensures Number(pol, signals, sev) == if Weighs(pol, sev)(Alarm(rule, High)) then 1 else 0 {
      TallySnoc([], Alarm(rule, High), Weighs(pol, sev));
    }
  }

  // ---- promotions that are promotions ----

  /** The rule never ranks above sev here. */
  predicate NoneAbove(rule: string, sev: Severity, signals: seq<Signal>) {
    forall i :: 0 <= i < |signals| && signals[i].rule == rule ==> Rank(signals[i].severity) <= Rank(sev)
  }

  function Regrade(rule: string, sev: Severity, signals: seq<Signal>): seq<Signal> {
    seq(|signals|, i requires 0 <= i < |signals| => signals[i].(severity := Grade(Promotion(rule, sev), signals[i])))
  }

  /** A promotion is the shipped policy over the re-graded signals. */
  lemma {:induction false} PromotionRegrades(rule: string, sev: Severity, signals: seq<Signal>, other: Severity)
    ensures Number(Promotion(rule, sev), signals, other) == Number(DEFAULT_POLICY, Regrade(rule, sev, signals), other)
    decreases |signals|
  {
    if signals != [] {
      var n := |signals| - 1;
      PromotionRegrades(rule, sev, signals[..n], other);
      assert Regrade(rule, sev, signals)[..n] == Regrade(rule, sev, signals[..n]);
    }
  }

  /** Promoting a rule that is nowhere graded higher never lowers the decision. */
  lemma PromotingNeverLowers(rule: string, sev: Severity, signals: seq<Signal>)
    requires NoneAbove(rule, sev, signals)
    ensures Level(DecisionOf(DEFAULT_POLICY, signals)) <= Level(DecisionOf(Promotion(rule, sev), signals))
  {
    forall other ensures Number(Promotion(rule, sev), signals, other) == Number(DEFAULT_POLICY, Regrade(rule, sev, signals), other) {
      PromotionRegrades(rule, sev, signals, other);
    }
    RaisedCounts(DEFAULT_POLICY, signals, Regrade(rule, sev, signals));
  }

  /**
   * What a promotion buys: of the signals let through, to high exactly those with the rule, to medium
   * exactly those where the rule fires twice or beside a medium.
   */
  lemma PromotionBuys(rule: string, signals: seq<Signal>)
    requires !Catches(DEFAULT_POLICY, signals)
    ensures Catches(Promotion(rule, High), signals) <==> Tally(signals, OfRule(rule)) > 0
    ensures Catches(Promotion(rule, Medium), signals)
            <==> Tally(signals, OfRule(rule)) + Tally(signals, MattersBeside(rule)) >= 2
  {
    DemotionCounts(rule, signals);
    HighCounts(rule, signals);
  }

  lemma {:induction false} HighCounts(rule: string, signals: seq<Signal>)
    ensures var hi := Promotion(rule, High);
            && Tally(signals, OfRule(rule)) <= Number(hi, signals, High)
            && Number(hi, signals, Critical) <= Number(DEFAULT_POLICY, signals, Critical)
            && Number(hi, signals, High) <= Number(DEFAULT_POLICY, signals, High) + Tally(signals, OfRule(rule))
            && Number(hi, signals, Medium) <= Number(DEFAULT_POLICY, signals, Medium)
    decreases |signals|
  {
    if signals != [] { HighCounts(rule, signals[..|signals| - 1]); }
  }
}
