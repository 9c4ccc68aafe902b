/** Signals to a decision, under a policy. */
module Engine {
  import opened Verdicts
  import opened Text
  import opened Seqs
  import opened Gathering
  import opened Ranking

  datatype Policy = Policy(
    failClosed: bool,
    criticalQuorum: int,
    highQuorum: int,
    mediumQuorum: int,
    disabled: map<string, bool>,
    overrides: map<string, Severity>)

  /** The zero policy, which is also the shipped one. */
  const DEFAULT_POLICY := Policy(false, 0, 0, 0, map[], map[])

  function Quorum(configured: int, fallback: int): int {
    if configured <= 0 then fallback else configured
  }

  function CriticalQuorum(pol: Policy): int { Quorum(pol.criticalQuorum, 1) }
  function HighQuorum(pol: Policy): int { Quorum(pol.highQuorum, 1) }
  function MediumQuorum(pol: Policy): int { Quorum(pol.mediumQuorum, 2) }

  predicate Disabled(pol: Policy, rule: string) { rule in pol.disabled && pol.disabled[rule] }

  /** The severity a signal has under the policy. */
  function Grade(pol: Policy, s: Signal): Severity {
    if s.rule in pol.overrides then pol.overrides[s.rule] else s.severity
  }

  /** A signal as it counts: re-graded, or not at all. */
  function Kept(pol: Policy): Signal -> seq<Signal> {
    (s: Signal) => if Disabled(pol, s.rule) then [] else [s.(severity := Grade(pol, s))]
  }

  /** The signals that count, in their order. */
  function Effective(pol: Policy, signals: seq<Signal>): seq<Signal> { Gather(signals, Kept(pol)) }

  /** How many signals satisfy p. */
  function Tally(signals: seq<Signal>, p: Signal -> bool): nat {
    if signals == [] then 0
    else
      var n := |signals| - 1;
      Tally(signals[..n], p) + (if p(signals[n]) then 1 else 0)
  }

  function HasSeverity(sev: Severity): Signal -> bool { (s: Signal) => s.severity == sev }

  function Weighs(pol: Policy, sev: Severity): Signal -> bool {
    (s: Signal) => !Disabled(pol, s.rule) && Grade(pol, s) == sev
  }

  /** How many enabled signals are graded sev. */
  function Number(pol: Policy, signals: seq<Signal>, sev: Severity): nat { Tally(signals, Weighs(pol, sev)) }

  function Outcome(pol: Policy, criticals: nat, highs: nat, mediums: nat): Decision {
    if criticals >= CriticalQuorum(pol) then Block
    else if highs >= HighQuorum(pol) || mediums >= MediumQuorum(pol) then
      if pol.failClosed then Block else Quarantine
    else Allow
  }

  function DecisionOf(pol: Policy, signals: seq<Signal>): Decision {
    Outcome(pol, Number(pol, signals, Critical), Number(pol, signals, High), Number(pol, signals, Medium))
  }

  // ---- the text of a verdict ----

  function SeverityText(s: Severity): string {
    match s
    case Info => "info"
    case Low => "low"
    case Medium => "medium"
    case High => "high"
    case Critical => "critical"
    case Ungraded(text) => text
  }

  function BlockedOn(s: Signal): string {
    "blocked on " + SeverityText(s.severity) + " signal: " + s.description
  }

  function BlockReason(kept: seq<Signal>): string { if kept == [] then "blocked" else BlockedOn(Highest(kept)) }

  function QuarantineReason(highs: nat, mediums: nat): string {
    "quarantined for review: " + Decimal(highs) + " high, " + Decimal(mediums) + " medium signal(s)"
  }

  function AllowReason(n: nat): string {
    if n == 0 then "allowed: no signals"
    else "allowed: " + Decimal(n) + " informational signal(s), none blocking"
  }

  function Reason(d: Decision, kept: seq<Signal>): string {
    match d
    case Block => BlockReason(kept)
    case Quarantine => QuarantineReason(Tally(kept, HasSeverity(High)), Tally(kept, HasSeverity(Medium)))
    case _ => AllowReason(|kept|)
  }

  /** The first signal of the stable sort. */
  function Highest(signals: seq<Signal>): Signal
    requires signals != []
  {
    InsertAllIsStableSort(signals);
    SameLength(InsertAll(signals), signals);
    InsertAll(signals)[0]
  }

  function Decided(art: Artifact, signals: seq<Signal>, pol: Policy, engine: string): Verdict {
    var kept := Effective(pol, signals);
    var d := DecisionOf(pol, signals);
    Verdict(art, d, Reason(d, kept), InsertAll(kept), engine)
  }

  // ---- the code ----

  lemma {:induction false} NothingToFilter(pol: Policy, signals: seq<Signal>)
    requires pol.disabled == map[] && pol.overrides == map[]
    ensures Effective(pol, signals) == signals
    decreases |signals|
  {
    if signals != [] {
      var n := |signals| - 1;
      NothingToFilter(pol, signals[..n]);
      assert signals == signals[..n] + [signals[n]];
    }
  }

  lemma TallySnoc(signals: seq<Signal>, s: Signal, p: Signal -> bool)
    ensures Tally(signals + [s], p) == Tally(signals, p) + if p(s) then 1 else 0
  {
    assert (signals + [s])[..|signals|] == signals;
  }

  lemma {:induction false} TallyJoin(a: seq<Signal>, b: seq<Signal>, p: Signal -> bool)
    ensures Tally(a + b, p) == Tally(a, p) + Tally(b, p)
    decreases |b|
  {
    if b == [] {
      assert a + b == a;
    } else {
      var n := |b| - 1;
      assert (a + b)[..|a| + n] == a + b[..n];
      TallyJoin(a, b[..n], p);
    }
  }

  lemma KeptTally(pol: Policy, s: Signal, sev: Severity)
    ensures Tally(Kept(pol)(s), HasSeverity(sev)) == if Weighs(pol, sev)(s) then 1 else 0
  {
    if !Disabled(pol, s.rule) { TallySnoc([], s.(severity := Grade(pol, s)), HasSeverity(sev)); }
  }

  lemma {:induction false} CountedWhereKept(pol: Policy, signals: seq<Signal>, sev: Severity)
    ensures Tally(Effective(pol, signals), HasSeverity(sev)) == Number(pol, signals, sev)
    decreases |signals|
  {
    if signals != [] {
      var n := |signals| - 1;
      CountedWhereKept(pol, signals[..n], sev);
      TallyJoin(Effective(pol, signals[..n]), Kept(pol)(signals[n]), HasSeverity(sev));
      KeptTally(pol, signals[n], sev);
    }
  }

  function Entry(counts: map<Severity, nat>, sev: Severity): nat {
    if sev in counts then counts[sev] else 0
  }

  method Filter(signals: seq<Signal>, pol: Policy) returns (kept: seq<Signal>)
    ensures kept == Effective(pol, signals)
  {
    if |pol.disabled| > 0 || |pol.overrides| > 0 {
      kept := [];
      for i := 0 to |signals|
        invariant kept == Effective(pol, signals[..i])
      {
        var s := signals[i];
        assert signals[..i + 1][..i] == signals[..i];
        if s.rule in pol.disabled && pol.disabled[s.rule] { continue; }
        if s.rule in pol.overrides { s := s.(severity := pol.overrides[s.rule]); }
        kept := kept + [s];
      }
      assert signals[..|signals|] == signals;
    } else {
      NothingToFilter(pol, signals);
      kept := signals;
    }
  }

  method CountSeverities(signals: seq<Signal>) returns (counts: map<Severity, nat>)
    ensures forall sev :: Entry(counts, sev) == Tally(signals, HasSeverity(sev))
  {
    counts := map[];
    for i := 0 to |signals|
      invariant forall sev :: Entry(counts, sev) == Tally(signals[..i], HasSeverity(sev))
    {
      assert signals[..i + 1][..i] == signals[..i];
      var sev := signals[i].severity;
      counts := counts[sev := Entry(counts, sev) + 1];
    }
    assert signals[..|signals|] == signals;
  }

  method HighestSignal(signals: seq<Signal>) returns (top: Option<Signal>)
    ensures top == if signals == [] then None else Some(Highest(signals))
  {
    var sorted := SortSignals(signals);
    SameLength(InsertAll(signals), signals);
    top := if |sorted| == 0 then None else Some(sorted[0]);
  }

  method Explain(d: Decision, signals: seq<Signal>, counts: map<Severity, nat>) returns (why: string)
    requires forall sev :: Entry(counts, sev) == Tally(signals, HasSeverity(sev))
    ensures why == Reason(d, signals)
  {
    match d
    case Block =>
      var top := HighestSignal(signals);
      why := if top.Some? then BlockedOn(top.value) else "blocked";
    case Quarantine => why := QuarantineReason(Entry(counts, High), Entry(counts, Medium));
    case _ => why := AllowReason(|signals|);
  }

  /** The quorums, from the counts. */
  method Weigh(pol: Policy, counts: map<Severity, nat>) returns (d: Decision)
    ensures d == Outcome(pol, Entry(counts, Critical), Entry(counts, High), Entry(counts, Medium))
  {
    d := Allow;
    if Entry(counts, Critical) >= Quorum(pol.criticalQuorum, 1) {
      d := Block;
    } else if Entry(counts, High) >= Quorum(pol.highQuorum, 1) {
      d := Quarantine;
    } else if Entry(counts, Medium) >= Quorum(pol.mediumQuorum, 2) {
      d := Quarantine;
    }
    if pol.failClosed && d == Quarantine { d := Block; }
  }

  method Decide(art: Artifact, signals: seq<Signal>, pol: Policy, engine: string) returns (v: Verdict)
    ensures v == Decided(art, signals, pol, engine)
    ensures multiset(v.signals) == multiset(Effective(pol, signals)) && Sorted(v.signals)
  {
    var kept := Filter(signals, pol);
    var counts := CountSeverities(kept);
    CountedWhereKept(pol, signals, Critical);
    CountedWhereKept(pol, signals, High);
    CountedWhereKept(pol, signals, Medium);
    var decision := Weigh(pol, counts);
    var why := Explain(decision, kept, counts);
    var sorted := SortSignals(kept);
    v := Verdict(art, decision, why, sorted, engine);
  }

  // ---- what a verdict's reason tells ----

  lemma {:induction false} TallyFinds(signals: seq<Signal>, p: Signal -> bool)
    ensures Tally(signals, p) > 0 <==> exists x :: x in signals && p(x)
    decreases |signals|
  {
    if signals != [] {
      var n := |signals| - 1;
      TallyFinds(signals[..n], p);
      assert signals == signals[..n] + [signals[n]];
    }
  }

  /** No signal of the list outranks the highest one. */
  lemma HighestOutranks(signals: seq<Signal>)
    requires signals != []
    ensures Highest(signals) in signals
    ensures forall x :: x in signals ==> Rank(x.severity) <= Rank(Highest(signals).severity)
  {
    InsertAllIsStableSort(signals);
    SameLength(InsertAll(signals), signals);
    var sorted := InsertAll(signals);
    assert sorted[0] in multiset(sorted);
    forall x | x in signals ensures Rank(x.severity) <= Rank(sorted[0].severity) {
      assert x in multiset(sorted);
      var i :| 0 <= i < |sorted| && sorted[i] == x;
      if i > 0 { assert !Before(sorted[i], sorted[0]); }
    }
  }

  /**
   * A block always names a counted signal of the highest severity present: a critical one
   * when the critical quorum was met, and at least a medium one otherwise.
   */
  lemma BlockNamesASignal(art: Artifact, signals: seq<Signal>, pol: Policy, engine: string) returns (s: Signal)
    requires DecisionOf(pol, signals) == Block
    ensures s in Effective(pol, signals) && Decided(art, signals, pol, engine).reason == BlockedOn(s)
    ensures forall x :: x in Effective(pol, signals) ==> Rank(x.severity) <= Rank(s.severity)
    ensures s.severity in {Critical, High, Medium}
    ensures Number(pol, signals, Critical) >= CriticalQuorum(pol) ==> s.severity == Critical
  {
    var kept := Effective(pol, signals);
    CountedWhereKept(pol, signals, Critical);
    CountedWhereKept(pol, signals, High);
    CountedWhereKept(pol, signals, Medium);
    TallyFinds(kept, HasSeverity(Critical));
    TallyFinds(kept, HasSeverity(High));
    TallyFinds(kept, HasSeverity(Medium));
    assert exists x :: x in kept && Rank(x.severity) >= 3;
    HighestOutranks(kept);
    s := Highest(kept);
  }
}
