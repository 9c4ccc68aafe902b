/** Replaying policies over an analysed corpus. */
module Evaluation {
  import opened Verdicts
  import Ranking
  import opened Engine
  import opened PolicyLaws
  import opened Regrading

  datatype Scored = Scored(kind: string, art: Artifact, signals: seq<Signal>, err: string)

  datatype Outcomes = Outcomes(malicious: nat, caught: nat, benign: nat, flagged: nat, benignBlocked: nat, errs: nat) {
    function Recall(): real { if malicious == 0 then 0.0 else caught as real / malicious as real * 100.0 }
    function FpRate(): real { if benign == 0 then 0.0 else flagged as real / benign as real * 100.0 }
  }

  // ---- the classes of samples ----

  predicate IsFailed(s: Scored) { s.err != "" }
  predicate IsMalicious(s: Scored) { s.err == "" && s.kind == "malicious" }
  predicate IsBenign(s: Scored) { s.err == "" && s.kind != "malicious" }
  predicate IsCaught(pol: Policy, s: Scored) { IsMalicious(s) && DecisionOf(pol, s.signals) != Allow }
  predicate IsMissed(pol: Policy, s: Scored) { IsMalicious(s) && DecisionOf(pol, s.signals) == Allow }
  predicate IsFlagged(pol: Policy, s: Scored) { IsBenign(s) && DecisionOf(pol, s.signals) != Allow }
  predicate IsBlocked(pol: Policy, s: Scored) { IsBenign(s) && DecisionOf(pol, s.signals) == Block }

  function Failed(): Scored -> bool { (s: Scored) => IsFailed(s) }
  function Malicious(): Scored -> bool { (s: Scored) => IsMalicious(s) }
  function Benign(): Scored -> bool { (s: Scored) => IsBenign(s) }
  function Caught(pol: Policy): Scored -> bool { (s: Scored) => IsCaught(pol, s) }
  function Missed(pol: Policy): Scored -> bool { (s: Scored) => IsMissed(pol, s) }
  function Flagged(pol: Policy): Scored -> bool { (s: Scored) => IsFlagged(pol, s) }
  function Blocked(pol: Policy): Scored -> bool { (s: Scored) => IsBlocked(pol, s) }

  predicate Emits(signals: seq<Signal>, rule: string) { exists i :: 0 <= i < |signals| && signals[i].rule == rule }

  function Count(all: seq<Scored>, p: Scored -> bool): nat {
    if all == [] then 0
    else
      var n := |all| - 1;
      Count(all[..n], p) + (if p(all[n]) then 1 else 0)
  }

  /** The tallies as independent counts. */
  function Replayed(all: seq<Scored>, pol: Policy): Outcomes {
    Outcomes(Count(all, Malicious()), Count(all, Caught(pol)), Count(all, Benign()), Count(all, Flagged(pol)),
             Count(all, Blocked(pol)), Count(all, Failed()))
  }

  lemma CountStep(all: seq<Scored>, i: nat, p: Scored -> bool)
    requires i < |all|
    ensures Count(all[..i + 1], p) == Count(all[..i], p) + if p(all[i]) then 1 else 0
  {
    assert all[..i + 1][..i] == all[..i];
  }

  function One(b: bool): nat { if b then 1 else 0 }

  /** One more sample, decided as d. */
  function Plus(t: Outcomes, s: Scored, d: Decision): Outcomes {
    Outcomes(
      t.malicious + One(IsMalicious(s)),
      t.caught + One(IsMalicious(s) && d != Allow),
      t.benign + One(IsBenign(s)),
      t.flagged + One(IsBenign(s) && d != Allow),
      t.benignBlocked + One(IsBenign(s) && d == Block),
      t.errs + One(IsFailed(s)))
  }

  lemma ReplayedStep(all: seq<Scored>, i: nat, pol: Policy)
    requires i < |all|
    ensures Replayed(all[..i + 1], pol) == Plus(Replayed(all[..i], pol), all[i], DecisionOf(pol, all[i].signals))
  {
    CountStep(all, i, Malicious());
    CountStep(all, i, Caught(pol));
    CountStep(all, i, Benign());
    CountStep(all, i, Flagged(pol));
    CountStep(all, i, Blocked(pol));
    CountStep(all, i, Failed());
  }

  method DecisionFor(s: Scored, pol: Policy) returns (d: Decision)
    ensures d == DecisionOf(pol, s.signals) && d in {Allow, Quarantine, Block}
  {
    var v := Decide(s.art, s.signals, pol, "deval");
    d := v.decision;
  }

  /** The body of the replay loop. */
  method AddSample(before: Outcomes, s: Scored, pol: Policy) returns (t: Outcomes)
    ensures t == Plus(before, s, DecisionOf(pol, s.signals))
  {
    t := before;
    if s.err != "" { return t.(errs := t.errs + 1); }
    var d := DecisionFor(s, pol);
    var flagged := d == Block || d == Quarantine;
    if s.kind == "malicious" {
      t := t.(malicious := t.malicious + 1);
      if flagged { t := t.(caught := t.caught + 1); }
    } else {
      t := t.(benign := t.benign + 1);
      if flagged { t := t.(flagged := t.flagged + 1); }
      if d == Block { t := t.(benignBlocked := t.benignBlocked + 1); }
    }
  }

  method Apply(all: seq<Scored>, pol: Policy) returns (t: Outcomes)
    ensures t == Replayed(all, pol)
  {
    t := Outcomes(0, 0, 0, 0, 0, 0);
    for i := 0 to |all|
      invariant t == Replayed(all[..i], pol)
    {
      ReplayedStep(all, i, pol);
      t := AddSample(t, all[i], pol);
    }
    assert all[..|all|] == all;
  }

  // ---- counting ----

  lemma {:induction false} CountImplied(all: seq<Scored>, p: Scored -> bool, q: Scored -> bool)
    requires forall s :: s in all && p(s) ==> q(s)
    ensures Count(all, p) <= Count(all, q)
    decreases |all|
  {
    if all != [] { CountImplied(all[..|all| - 1], p, q); }
  }

  /** r splits into p and q. */
  lemma {:induction false} CountSplit(all: seq<Scored>, p: Scored -> bool, q: Scored -> bool, r: Scored -> bool)
    requires forall s :: s in all ==> (r(s) <==> p(s) || q(s)) && !(p(s) && q(s))
    ensures Count(all, r) == Count(all, p) + Count(all, q)
    decreases |all|
  {
    if all != [] { CountSplit(all[..|all| - 1], p, q, r); }
  }

  function Good(): Scored -> bool { (s: Scored) => s.err == "" }
  function Any(): Scored -> bool { (s: Scored) => true }

  lemma {:induction false} CountAny(all: seq<Scored>)
    ensures Count(all, Any()) == |all|
    decreases |all|
  {
    if all != [] { CountAny(all[..|all| - 1]); }
  }

  /** Every sample is counted exactly once, and the numerators stay below their denominators. */
  lemma Conserved(all: seq<Scored>, pol: Policy)
    ensures var t := Replayed(all, pol);
            && t.malicious + t.benign + t.errs == |all|
            && t.caught <= t.malicious && t.benignBlocked <= t.flagged <= t.benign
  {
    CountSplit(all, Malicious(), Benign(), Good());
    CountSplit(all, Good(), Failed(), Any());
    CountAny(all);
    CountImplied(all, Caught(pol), Malicious());
    CountImplied(all, Blocked(pol), Flagged(pol));
    CountImplied(all, Flagged(pol), Benign());
  }

  // ---- comparing policies ----

  /** `low` decides no higher than `high` on every sample. */
  ghost predicate NoHigher(all: seq<Scored>, low: Policy, high: Policy) {
    forall s :: s in all ==> Level(DecisionOf(low, s.signals)) <= Level(DecisionOf(high, s.signals))
  }

  lemma NoHigherCounts(all: seq<Scored>, low: Policy, high: Policy)
    requires NoHigher(all, low, high)
    ensures var l, h := Replayed(all, low), Replayed(all, high);
            && l.caught <= h.caught && l.flagged <= h.flagged && l.benignBlocked <= h.benignBlocked
            && l.malicious == h.malicious && l.benign == h.benign && l.errs == h.errs
            && l.Recall() <= h.Recall() && l.FpRate() <= h.FpRate()
  {
    CountImplied(all, Caught(low), Caught(high));
    CountImplied(all, Flagged(low), Flagged(high));
    CountImplied(all, Blocked(low), Blocked(high));
    Percent(Count(all, Caught(low)), Count(all, Caught(high)), Count(all, Malicious()));
    Percent(Count(all, Flagged(low)), Count(all, Flagged(high)), Count(all, Benign()));
  }

  lemma Percent(a: nat, b: nat, n: nat)
    requires a <= b
    ensures n > 0 ==> a as real / n as real * 100.0 <= b as real / n as real * 100.0
  {
    if n > 0 {
      var x, y, z := a as real, b as real, n as real;
      assert y / z - x / z == (y - x) / z;
      assert (y - x) / z >= 0.0;
    }
  }

  /** Any point of the sweep against any point with quorums at least as high. */
  lemma SweepIsMonotone(all: seq<Scored>, strict: Policy, lax: Policy)
    requires lax.disabled == strict.disabled && lax.overrides == strict.overrides && lax.failClosed == strict.failClosed
    requires CriticalQuorum(strict) <= CriticalQuorum(lax)
    requires HighQuorum(strict) <= HighQuorum(lax) && MediumQuorum(strict) <= MediumQuorum(lax)
    ensures var l, h := Replayed(all, lax), Replayed(all, strict);
            l.caught <= h.caught && l.flagged <= h.flagged && l.benignBlocked <= h.benignBlocked
            && l.Recall() <= h.Recall() && l.FpRate() <= h.FpRate()
  {
    forall s | s in all ensures Level(DecisionOf(lax, s.signals)) <= Level(DecisionOf(strict, s.signals)) {
      LooseningNeverRaises(lax, strict, s.signals);
    }
    NoHigherCounts(all, lax, strict);
  }

  // ---- ablation ----

  function Without(rule: string): Policy { DEFAULT_POLICY.(disabled := map[rule := true]) }

  function CaughtWith(rule: string): Scored -> bool { (s: Scored) => IsMalicious(s) && Emits(s.signals, rule) }
  function FlaggedWith(rule: string): Scored -> bool { (s: Scored) => IsBenign(s) && Emits(s.signals, rule) }

  /** Disabling a rule changes nothing where it did not fire. */
  lemma {:induction false} SilentRule(rule: string, signals: seq<Signal>, sev: Severity)
    requires !Emits(signals, rule)
    ensures Number(Without(rule), signals, sev) == Number(DEFAULT_POLICY, signals, sev)
    decreases |signals|
  {
    if signals != [] {
      var n := |signals| - 1;
      EmitsSnoc(signals[..n], signals[n]);
      assert signals == signals[..n] + [signals[n]];
      SilentRule(rule, signals[..n], sev);
    }
  }

  function LostCatch(rule: string): Scored -> bool {
    (s: Scored) => IsCaught(DEFAULT_POLICY, s) && !IsCaught(Without(rule), s)
  }

  function LostFlag(rule: string): Scored -> bool {
    (s: Scored) => IsFlagged(DEFAULT_POLICY, s) && !IsFlagged(Without(rule), s)
  }

  /**
   Ablating a rule never raises recall or the false-positive count. What it loses is exactly the
   samples that needed the rule, so at most the samples on which the rule fired.
  */
  lemma AblationOnlyLoses(all: seq<Scored>, rule: string)
    ensures var base, t := Replayed(all, DEFAULT_POLICY), Replayed(all, Without(rule));
            && t.caught <= base.caught && t.flagged <= base.flagged && t.Recall() <= base.Recall()
            && base.caught - t.caught == Count(all, LostCatch(rule)) <= Count(all, CaughtWith(rule))
            && base.flagged - t.flagged == Count(all, LostFlag(rule)) <= Count(all, FlaggedWith(rule))
  {
    forall s | s in all
      ensures Level(DecisionOf(Without(rule), s.signals)) <= Level(DecisionOf(DEFAULT_POLICY, s.signals))
      ensures !Emits(s.signals, rule) ==> DecisionOf(Without(rule), s.signals) == DecisionOf(DEFAULT_POLICY, s.signals)
    {
      LooseningNeverRaises(Without(rule), DEFAULT_POLICY, s.signals);
      if !Emits(s.signals, rule) {
        SilentRule(rule, s.signals, Critical);
        SilentRule(rule, s.signals, High);
        SilentRule(rule, s.signals, Medium);
      }
    }
    NoHigherCounts(all, Without(rule), DEFAULT_POLICY);
    CountSplit(all, Caught(Without(rule)), LostCatch(rule), Caught(DEFAULT_POLICY));
    CountSplit(all, Flagged(Without(rule)), LostFlag(rule), Flagged(DEFAULT_POLICY));
    CountImplied(all, LostCatch(rule), CaughtWith(rule));
    CountImplied(all, LostFlag(rule), FlaggedWith(rule));
  }

  /** A line of the ablation: catches and flags lost, and the points of recall and false positives they are. */
  datatype Marginal = Marginal(lostCatch: int, lostFlag: int, recallDrop: real, fpDrop: real)

  function Share(part: nat, whole: nat): real { if whole == 0 then 0.0 else part as real / whole as real * 100.0 }

  /** What a rule is worth on this corpus: the catches and the flags only it makes. */
  function Worth(all: seq<Scored>, rule: string): Marginal {
    var catches, flags := Count(all, LostCatch(rule)), Count(all, LostFlag(rule));
    Marginal(catches, flags, Share(catches, Count(all, Malicious())), Share(flags, Count(all, Benign())))
  }

  lemma ShareOfDifference(a: nat, b: nat, n: nat)
    requires b <= a
    ensures Share(a, n) - Share(b, n) == Share(a - b, n)
  {
    if n > 0 {
      var x, y, z := a as real, b as real, n as real;
      assert (x - y) / z == x / z - y / z;
    }
  }

  /** The rules that fire anywhere in the corpus. */
  ghost predicate Fires(all: seq<Scored>, rule: string) {
    exists i :: 0 <= i < |all| && Emits(all[i].signals, rule)
  }

  method RulesSeen(all: seq<Scored>) returns (seen: set<string>)
    ensures forall r :: r in seen <==> Fires(all, r)
  {
    seen := {};
    for i := 0 to |all|
      invariant forall r :: r in seen <==> Fires(all[..i], r)
    {
      var before := seen;
      var sigs := all[i].signals;
      for j := 0 to |sigs|
        invariant forall r :: r in seen <==> r in before || Emits(sigs[..j], r)
      {
        assert sigs[..j + 1] == sigs[..j] + [sigs[j]];
        EmitsSnoc(sigs[..j], sigs[j]);
        seen := seen + {sigs[j].rule};
      }
      assert sigs[..|sigs|] == sigs;
      FiresSnoc(all, i);
    }
    assert all[..|all|] == all;
  }

  lemma EmitsSnoc(signals: seq<Signal>, s: Signal)
    ensures forall r :: Emits(signals + [s], r) <==> Emits(signals, r) || s.rule == r
  {
    var t := signals + [s];
    assert t[|signals|] == s;
    forall r | Emits(signals, r) ensures Emits(t, r) {
      var i :| 0 <= i < |signals| && signals[i].rule == r;
      assert t[i].rule == r;
    }
  }

  lemma FiresSnoc(all: seq<Scored>, i: nat)
    requires i < |all|
    ensures forall r :: Fires(all[..i + 1], r) <==> Fires(all[..i], r) || Emits(all[i].signals, r)
  {
    var p, q := all[..i], all[..i + 1];
    assert q[i] == all[i];
    forall r | Fires(p, r) ensures Fires(q, r) {
      var k :| 0 <= k < |p| && Emits(p[k].signals, r);
      assert q[k] == p[k];
    }
    forall r | Fires(q, r) ensures Fires(p, r) || Emits(all[i].signals, r) {
      var k :| 0 <= k < |q| && Emits(q[k].signals, r);
      if k < i { assert p[k] == q[k]; }
    }
  }

  method AblateOne(all: seq<Scored>, rule: string, base: Outcomes) returns (m: Marginal)
    requires base == Replayed(all, DEFAULT_POLICY)
    ensures m == Worth(all, rule)
  {
    var t := Apply(all, DEFAULT_POLICY.(disabled := map[rule := true]));
    AblationOnlyLoses(all, rule);
    ShareOfDifference(base.caught, t.caught, base.malicious);
    ShareOfDifference(base.flagged, t.flagged, base.benign);
    m := Marginal(base.caught - t.caught, base.flagged - t.flagged,
                  base.Recall() - t.Recall(), base.FpRate() - t.FpRate());
  }

  /** One marginal row per rule seen. */
  method Ablate(all: seq<Scored>) returns (rows: map<string, Marginal>)
    ensures forall r :: r in rows.Keys <==> Fires(all, r)
    ensures forall r :: r in rows ==> rows[r] == Worth(all, r)
  {
    var names := RulesSeen(all);
    rows := AblateEach(all, names);
  }

  method AblateEach(all: seq<Scored>, names: set<string>) returns (rows: map<string, Marginal>)
    ensures rows.Keys == names
    ensures forall r :: r in rows ==> rows[r] == Worth(all, r)
  {
    var base := Apply(all, DEFAULT_POLICY);
    rows := map[];
    var todo := names;
    while todo != {}
      invariant rows.Keys + todo == names
      invariant forall r :: r in rows ==> rows[r] == Worth(all, r)
      decreases |todo|
    {
      var r :| r in todo;
      var m := AblateOne(all, r, base);
      rows := rows[r := m];
      todo := todo - {r};
    }
  }

  // ---- promotion ----

  /** Promoting any rule to high keeps every catch and every flag. */
  lemma PromotionToHighKeeps(all: seq<Scored>, rule: string)
    ensures var base, t := Replayed(all, DEFAULT_POLICY), Replayed(all, Promotion(rule, High));
            base.caught <= t.caught && base.flagged <= t.flagged
  {
    forall s | s in all && Catches(DEFAULT_POLICY, s.signals) ensures Catches(Promotion(rule, High), s.signals) {
      PromotingToHighKeepsCatches(rule, s.signals);
    }
    CountImplied(all, Caught(DEFAULT_POLICY), Caught(Promotion(rule, High)));
    CountImplied(all, Flagged(DEFAULT_POLICY), Flagged(Promotion(rule, High)));
  }

  /** Caught by the shipped policy through this rule's one severe signal alone. */
  function HangsOn(rule: string): Scored -> bool {
    (s: Scored) => IsMalicious(s) && Tally(s.signals, OfRule(rule)) == 1 && Tally(s.signals, SevereOfRule(rule)) == 1
                   && Tally(s.signals, MattersBeside(rule)) == 0
  }

  function Gained(rule: string): Scored -> bool {
    (s: Scored) => IsCaught(Promotion(rule, Medium), s) && !IsCaught(DEFAULT_POLICY, s)
  }

  function KeptCatch(rule: string): Scored -> bool {
    (s: Scored) => IsCaught(Promotion(rule, Medium), s) && IsCaught(DEFAULT_POLICY, s)
  }

  /** Re-grading a rule to medium loses exactly the catches that hang on one severe signal of it. */
  lemma RegradingToMediumCosts(all: seq<Scored>, rule: string)
    ensures Replayed(all, DEFAULT_POLICY).caught - Replayed(all, Promotion(rule, Medium)).caught
         == Count(all, HangsOn(rule)) - Count(all, Gained(rule))
  {
    forall s | s in all
      ensures IsCaught(DEFAULT_POLICY, s) && !IsCaught(Promotion(rule, Medium), s) <==> HangsOn(rule)(s) {
      PromotingToMediumLosesIff(rule, s.signals);
    }
    CountSplit(all, KeptCatch(rule), HangsOn(rule), Caught(DEFAULT_POLICY));
    CountSplit(all, KeptCatch(rule), Gained(rule), Caught(Promotion(rule, Medium)));
  }

  predicate Severe(sev: Severity) { sev in {High, Critical} }

  predicate FiresBelowHigh(signals: seq<Signal>, rule: string) {
    exists i :: 0 <= i < |signals| && signals[i].rule == rule && !Severe(signals[i].severity)
  }

  /** A rule the promotion view tries: below high on malware that the shipped policy lets through. */
  ghost predicate Candidate(all: seq<Scored>, rule: string) {
    exists s :: s in all && IsMissed(DEFAULT_POLICY, s) && FiresBelowHigh(s.signals, rule)
  }

  predicate SameBand(a: seq<Signal>, b: seq<Signal>) {
    forall i, j :: 0 <= i < |a| && 0 <= j < |b| && a[i].rule == b[j].rule ==> (Severe(a[i].severity) <==> Severe(b[j].severity))
  }

  /** Every rule is high or critical wherever it fires, or nowhere. */
  ghost predicate OneBand(all: seq<Scored>) {
    forall s, t :: s in all && t in all ==> SameBand(s.signals, t.signals)
  }

  lemma BelowHighThroughout(here: seq<Signal>, there: seq<Signal>, rule: string)
    requires FiresBelowHigh(here, rule) && SameBand(here, there)
    ensures NoneAbove(rule, Medium, there) && NoneAbove(rule, High, there)
  {
    var i :| 0 <= i < |here| && here[i].rule == rule && !Severe(here[i].severity);
    forall j | 0 <= j < |there| && there[j].rule == rule ensures Ranking.Rank(there[j].severity) <= Ranking.Rank(Medium) {
      assert here[i].rule == there[j].rule;
    }
  }

  function Bought(rule: string, sev: Severity): Scored -> bool {
    (s: Scored) => IsMissed(DEFAULT_POLICY, s) && IsCaught(Promotion(rule, sev), s)
  }

  /** Promoting a rule that is nowhere graded higher loses nothing, and catches what it buys. */
  lemma PromotionOnlyGains(all: seq<Scored>, rule: string, sev: Severity)
    requires forall s :: s in all ==> NoneAbove(rule, sev, s.signals)
    ensures var base, t := Replayed(all, DEFAULT_POLICY), Replayed(all, Promotion(rule, sev));
            && t.caught == base.caught + Count(all, Bought(rule, sev))
            && base.flagged <= t.flagged && base.benignBlocked <= t.benignBlocked
            && base.Recall() <= t.Recall() && base.FpRate() <= t.FpRate()
  {
    forall s | s in all
      ensures Level(DecisionOf(DEFAULT_POLICY, s.signals)) <= Level(DecisionOf(Promotion(rule, sev), s.signals)) {
      PromotingNeverLowers(rule, sev, s.signals);
    }
    NoHigherCounts(all, DEFAULT_POLICY, Promotion(rule, sev));
    CountSplit(all, Caught(DEFAULT_POLICY), Bought(rule, sev), Caught(Promotion(rule, sev)));
  }

  /** Where each rule keeps to its band, no line of the promotion view is below the baseline. */
  lemma CandidatesOnlyGain(all: seq<Scored>, rule: string, sev: Severity)
    requires OneBand(all) && Candidate(all, rule) && sev in {Medium, High}
    ensures var base, t := Replayed(all, DEFAULT_POLICY), Replayed(all, Promotion(rule, sev));
            && t.caught == base.caught + Count(all, Bought(rule, sev))
            && base.flagged <= t.flagged && base.benignBlocked <= t.benignBlocked
            && base.Recall() <= t.Recall() && base.FpRate() <= t.FpRate()
  {
    var s :| s in all && IsMissed(DEFAULT_POLICY, s) && FiresBelowHigh(s.signals, rule);
    forall t | t in all ensures NoneAbove(rule, sev, t.signals) {
      BelowHighThroughout(s.signals, t.signals, rule);
    }
    PromotionOnlyGains(all, rule, sev);
  }

  // ---- misses ----

  predicate IsSilent(pol: Policy, s: Scored) { IsMissed(pol, s) && s.signals == [] }
  predicate IsSubThreshold(pol: Policy, s: Scored) { IsMissed(pol, s) && s.signals != [] }
  predicate IsMissedWith(pol: Policy, rule: string, s: Scored) { IsMissed(pol, s) && Emits(s.signals, rule) }

  function Silent(pol: Policy): Scored -> bool { (s: Scored) => IsSilent(pol, s) }
  function SubThreshold(pol: Policy): Scored -> bool { (s: Scored) => IsSubThreshold(pol, s) }
  function MissedWith(pol: Policy, rule: string): Scored -> bool { (s: Scored) => IsMissedWith(pol, rule, s) }

  function Entry(m: map<string, nat>, r: string): nat { if r in m then m[r] else 0 }

  lemma MissesStep(all: seq<Scored>, i: nat, pol: Policy)
    requires i < |all|
    ensures Count(all[..i + 1], Silent(pol)) == Count(all[..i], Silent(pol)) + One(IsSilent(pol, all[i]))
    ensures Count(all[..i + 1], SubThreshold(pol)) == Count(all[..i], SubThreshold(pol)) + One(IsSubThreshold(pol, all[i]))
    ensures forall r :: Count(all[..i + 1], MissedWith(pol, r)) == Count(all[..i], MissedWith(pol, r)) + One(IsMissedWith(pol, r, all[i]))
  {
    CountStep(all, i, Silent(pol));
    CountStep(all, i, SubThreshold(pol));
    forall r ensures Count(all[..i + 1], MissedWith(pol, r)) == Count(all[..i], MissedWith(pol, r)) + One(IsMissedWith(pol, r, all[i])) {
      CountStep(all, i, MissedWith(pol, r));
    }
  }

  datatype Misses = Misses(silent: nat, subThreshold: nat, subRules: map<string, nat>)

  /** The body of the loop over the samples. */
  method AddMiss(before: Misses, s: Scored, pol: Policy) returns (m: Misses)
    ensures m.silent == before.silent + One(IsSilent(pol, s))
    ensures m.subThreshold == before.subThreshold + One(IsSubThreshold(pol, s))
    ensures forall r :: Entry(m.subRules, r) == Entry(before.subRules, r) + One(IsMissedWith(pol, r, s))
  {
    m := before;
    if s.err != "" || s.kind != "malicious" { return; }
    var d := DecisionFor(s, pol);
    if d != Allow { return; }
    if |s.signals| == 0 { return m.(silent := m.silent + 1); }
    var rules := CountRulesOnce(s.signals, m.subRules);
    m := Misses(m.silent, m.subThreshold + 1, rules);
  }

  method MissAnalysis(all: seq<Scored>, pol: Policy) returns (m: Misses)
    ensures m.silent == Count(all, Silent(pol)) && m.subThreshold == Count(all, SubThreshold(pol))
    ensures forall r :: Entry(m.subRules, r) == Count(all, MissedWith(pol, r))
  {
    m := Misses(0, 0, map[]);
    for i := 0 to |all|
      invariant m.silent == Count(all[..i], Silent(pol)) && m.subThreshold == Count(all[..i], SubThreshold(pol))
      invariant forall r :: Entry(m.subRules, r) == Count(all[..i], MissedWith(pol, r))
    {
      MissesStep(all, i, pol);
      m := AddMiss(m, all[i], pol);
    }
    assert all[..|all|] == all;
  }

  /** Each rule of one sample counts once, however often it fired. */
  method CountRulesOnce(signals: seq<Signal>, before: map<string, nat>) returns (after: map<string, nat>)
    ensures forall r :: Entry(after, r) == Entry(before, r) + if Emits(signals, r) then 1 else 0
  {
    var seen: set<string> := {};
    after := before;
    for j := 0 to |signals|
      invariant forall r :: r in seen <==> Emits(signals[..j], r)
      invariant forall r :: Entry(after, r) == Entry(before, r) + if r in seen then 1 else 0
    {
      assert signals[..j + 1] == signals[..j] + [signals[j]];
      EmitsSnoc(signals[..j], signals[j]);
      var rule := signals[j].rule;
      if rule !in seen {
        seen := seen + {rule};
        after := after[rule := Entry(after, rule) + 1];
      }
    }
    assert signals[..|signals|] == signals;
  }

  /** The two kinds of miss are all the misses, and no rule is named on more of them than there are. */
  lemma MissesAddUp(all: seq<Scored>, pol: Policy)
    ensures var t := Replayed(all, pol);
            Count(all, Silent(pol)) + Count(all, SubThreshold(pol)) == t.malicious - t.caught
    ensures forall r :: Count(all, MissedWith(pol, r)) <= Count(all, SubThreshold(pol))
  {
    CountSplit(all, Caught(pol), Missed(pol), Malicious());
    CountSplit(all, Silent(pol), SubThreshold(pol), Missed(pol));
    forall r ensures Count(all, MissedWith(pol, r)) <= Count(all, SubThreshold(pol)) {
      CountImplied(all, MissedWith(pol, r), SubThreshold(pol));
    }
  }

  // ---- the tallies as numbers of samples ----

  function Samples(all: seq<Scored>, p: Scored -> bool): set<nat> { set i: nat | i < |all| && p(all[i]) }

  lemma {:induction false} CountIsSamples(all: seq<Scored>, p: Scored -> bool)
    ensures Count(all, p) == |Samples(all, p)|
    decreases |all|
  {
    if all != [] {
      var n := |all| - 1;
      CountIsSamples(all[..n], p);
      var before := Samples(all[..n], p);
      assert Samples(all, p) == if p(all[n]) then before + {n} else before;
    }
  }

  /** The samples of a kind on which the policy reaches one of these decisions. */
  function Reaching(all: seq<Scored>, pol: Policy, malicious: bool, ds: set<Decision>): set<nat> {
    set i: nat | i < |all| && all[i].err == "" && (all[i].kind == "malicious") == malicious && DecisionOf(pol, all[i].signals) in ds
  }

  lemma SameSamples(all: seq<Scored>, p: Scored -> bool, these: set<nat>)
    requires forall i: nat :: i in these <==> i < |all| && p(all[i])
    ensures Count(all, p) == |these|
  {
    CountIsSamples(all, p);
    assert these == Samples(all, p);
  }

  /** What the six tallies and the two rates are. */
  lemma TalliesMean(all: seq<Scored>, pol: Policy)
    ensures var t := Replayed(all, pol);
            && t.caught == |Reaching(all, pol, true, {Quarantine, Block})|
            && t.flagged == |Reaching(all, pol, false, {Quarantine, Block})|
            && t.benignBlocked == |Reaching(all, pol, false, {Block})|
            && t.malicious == |Reaching(all, pol, true, {Allow, Quarantine, Block})|
            && t.benign == |Reaching(all, pol, false, {Allow, Quarantine, Block})|
            && t.errs == |set i: nat | i < |all| && all[i].err != ""|
  {
    SameSamples(all, Caught(pol), Reaching(all, pol, true, {Quarantine, Block}));
    SameSamples(all, Flagged(pol), Reaching(all, pol, false, {Quarantine, Block}));
    SameSamples(all, Blocked(pol), Reaching(all, pol, false, {Block}));
    SameSamples(all, Malicious(), Reaching(all, pol, true, {Allow, Quarantine, Block}));
    SameSamples(all, Benign(), Reaching(all, pol, false, {Allow, Quarantine, Block}));
    SameSamples(all, Failed(), set i: nat | i < |all| && all[i].err != "");
  }

  /** A rate is the share in percent, and 0 of nothing. */
  lemma RatesMean(t: Outcomes)
    ensures t.malicious > 0 ==> t.Recall() * (t.malicious as real) == 100.0 * (t.caught as real)
    ensures t.benign > 0 ==> t.FpRate() * (t.benign as real) == 100.0 * (t.flagged as real)
    ensures (t.malicious == 0 ==> t.Recall() == 0.0) && (t.benign == 0 ==> t.FpRate() == 0.0)
  {
    if t.malicious > 0 { ShareTimes(t.caught as real, t.malicious as real); }
    if t.benign > 0 { ShareTimes(t.flagged as real, t.benign as real); }
  }

  lemma ShareTimes(a: real, n: real)
    requires n > 0.0
    ensures a / n * 100.0 * n == 100.0 * a
  {
    assert a / n * n == a;
  }

  /** The malware a policy lets through. */
  function LetThrough(all: seq<Scored>, pol: Policy): set<nat> { Reaching(all, pol, true, {Allow}) }

  function LetThroughSilent(all: seq<Scored>, pol: Policy): set<nat> {
    set i | i in LetThrough(all, pol) && all[i].signals == []
  }

  function LetThroughWith(all: seq<Scored>, pol: Policy, rule: string): set<nat> {
    set i | i in LetThrough(all, pol) && exists s :: s in all[i].signals && s.rule == rule
  }

  /** What the miss analysis counts: misses without a signal, the others, and for a rule those it fired on. */
  lemma MissesMean(all: seq<Scored>, pol: Policy, rule: string)
    ensures Count(all, Silent(pol)) == |LetThroughSilent(all, pol)|
    ensures Count(all, SubThreshold(pol)) == |LetThrough(all, pol) - LetThroughSilent(all, pol)|
    ensures Count(all, MissedWith(pol, rule)) == |LetThroughWith(all, pol, rule)|
  {
    SameSamples(all, Silent(pol), LetThroughSilent(all, pol));
    SameSamples(all, SubThreshold(pol), LetThrough(all, pol) - LetThroughSilent(all, pol));
    MissedWithMeans(all, pol, rule);
  }

  lemma MissedWithMeans(all: seq<Scored>, pol: Policy, rule: string)
    ensures Count(all, MissedWith(pol, rule)) == |LetThroughWith(all, pol, rule)|
  {
    hide Emits;
    forall i: nat | i < |all| ensures i in LetThroughWith(all, pol, rule) <==> IsMissedWith(pol, rule, all[i]) {
      EmitsIs(all[i].signals, rule);
    }
    SameSamples(all, MissedWith(pol, rule), LetThroughWith(all, pol, rule));
  }

  lemma EmitsIs(signals: seq<Signal>, rule: string)
    ensures Emits(signals, rule) <==> exists s :: s in signals && s.rule == rule
  {
    if k :| 0 <= k < |signals| && signals[k].rule == rule { assert signals[k] in signals; }
    if s :| s in signals && s.rule == rule {
      var k :| 0 <= k < |signals| && signals[k] == s;
    }
  }
}
