/** What the model's judgement can and cannot do to the decision of the rules. */
module Composition {
  import opened Verdicts
  import opened Engine
  import opened PolicyLaws
  import opened Regrading
  import opened Triage
  import opened Gate

  const TRIAGE_RULES := {"llm-allow", "llm-quarantine", "llm-block", "triage-unavailable", "rules-llm-disagreement"}

  ghost predicate TriageUntouched(pol: Policy) { forall r :: r in TRIAGE_RULES ==> Untouched(pol, r) }

  predicate ValidAnswer(a: Answer) { a.Answered? ==> ValidDecision(a.output.decision) }

  /** The signals the engine finally weighs. */
  function Composed(rules: seq<Signal>, pol: Policy, name: string, answer: Answer): seq<Signal> {
    rules + TriageSignals(rules, pol, name, answer)
  }

  function Final(rules: seq<Signal>, pol: Policy, name: string, answer: Answer): Decision {
    DecisionOf(pol, Composed(rules, pol, name, answer))
  }

  /** The model has no objection: it allows, or there is no answer. */
  predicate NoObjection(answer: Answer) { answer.Answered? ==> answer.output.decision == Allow }

  lemma AddOne(pol: Policy, signals: seq<Signal>, s: Signal)
    requires Untouched(pol, s.rule)
    ensures forall sev :: Number(pol, signals + [s], sev) == Number(pol, signals, sev) + if s.severity == sev then 1 else 0
  {
    assert (signals + [s])[..|signals|] == signals;
  }

  lemma JudgementIsTriage(o: Output, name: string)
    requires ValidDecision(o.decision)
    ensures SignalOf(o, name).rule in TRIAGE_RULES
  {
    assert "llm-" + "allow" == "llm-allow";
    assert "llm-" + "block" == "llm-block";
    assert "llm-" + "quarantine" == "llm-quarantine";
  }

  /** What triage adds to each count. */
  lemma TriageCounts(rules: seq<Signal>, pol: Policy, name: string, answer: Answer)
    requires TriageUntouched(pol) && ValidAnswer(answer)
    ensures var all := Composed(rules, pol, name, answer);
            var differ := answer.Answered? && (DecisionOf(pol, rules) == Allow) != (answer.output.decision == Allow);
            && Number(pol, all, Critical) == Number(pol, rules, Critical)
            && Number(pol, all, High)
            == Number(pol, rules, High) + (if answer.Answered? && answer.output.decision == Block then 1 else 0)
            && Number(pol, all, Medium)
            == Number(pol, rules, Medium) + (if answer.Answered? && answer.output.decision == Quarantine then 1 else 0)
               + (if differ then 1 else 0)
  {
    match answer
    case Failed(f) => AddOne(pol, rules, UnavailableSignal(FailureText(f)));
    case Answered(o) =>
      var first, second := SignalOf(o, name), Disagreement(DecisionOf(pol, rules), name, o);
      JudgementIsTriage(o, name);
      AddOne(pol, rules, first);
      AddOne(pol, rules + [first], second);
      assert rules + ([first] + [second]) == rules + [first] + [second];
      assert [first] + [] == [first];
  }

  /** Under any policy at all, asking the model never lowers the rules' decision. */
  lemma TriageNeverLowers(rules: seq<Signal>, pol: Policy, name: string, answer: Answer)
    ensures Level(DecisionOf(pol, rules)) <= Level(Final(rules, pol, name, answer))
  {
    AddingNeverLowers(pol, rules, Composed(rules, pol, name, answer));
  }

  /** The model alone cannot block, and cannot take a block back. */
  lemma OnlyRulesBlock(rules: seq<Signal>, pol: Policy, name: string, answer: Answer)
    requires TriageUntouched(pol) && ValidAnswer(answer) && !pol.failClosed
    ensures Final(rules, pol, name, answer) == Block <==> DecisionOf(pol, rules) == Block
  {
    TriageCounts(rules, pol, name, answer);
  }

  /** A package gets in only when the rules allow it and the model does not object. */
  ghost predicate AdmitsByUnanimity(pol: Policy) {
    forall rules, name, answer :: ValidAnswer(answer) ==>
      (Final(rules, pol, name, answer) == Allow <==> DecisionOf(pol, rules) == Allow && NoObjection(answer))
  }

  function Says(d: Decision): Answer { Answered(Output(d, 0.0, "", [])) }

  lemma NoRules(pol: Policy)
    ensures DecisionOf(pol, []) == Allow && forall sev :: Number(pol, [], sev) == 0
  {
  }

  lemma UnanimityHolds(rules: seq<Signal>, pol: Policy, name: string, answer: Answer)
    requires TriageUntouched(pol) && ValidAnswer(answer)
    requires MediumQuorum(pol) == 1 || (MediumQuorum(pol) == 2 && HighQuorum(pol) == 1)
    ensures Final(rules, pol, name, answer) == Allow <==> DecisionOf(pol, rules) == Allow && NoObjection(answer)
  {
    TriageCounts(rules, pol, name, answer);
    TriageNeverLowers(rules, pol, name, answer);
  }

  /** The model objects, and the package gets in all the same. */
  lemma ObjectionOverruled(pol: Policy)
    requires TriageUntouched(pol) && MediumQuorum(pol) > 1 && (MediumQuorum(pol) > 2 || HighQuorum(pol) > 1)
    ensures Final([], pol, "", Says(if MediumQuorum(pol) == 2 then Block else Quarantine)) == Allow
  {
    hide Number, TriageSignals, CriticalQuorum, HighQuorum, MediumQuorum;
    NoRules(pol);
    TriageCounts([], pol, "", Says(if MediumQuorum(pol) == 2 then Block else Quarantine));
  }

  /**
   Admission is unanimous exactly for the quorums at which one objection, of either strength, reaches
   a quorum together with the disagreement it causes. The shipped quorums (1, 1, 2) are among them.
  */
  lemma UnanimityIff(pol: Policy)
    requires TriageUntouched(pol)
    ensures AdmitsByUnanimity(pol) <==> MediumQuorum(pol) == 1 || (MediumQuorum(pol) == 2 && HighQuorum(pol) == 1)
  {
    if MediumQuorum(pol) == 1 || (MediumQuorum(pol) == 2 && HighQuorum(pol) == 1) {
      forall rules, name, answer | ValidAnswer(answer)
        ensures Final(rules, pol, name, answer) == Allow <==> DecisionOf(pol, rules) == Allow && NoObjection(answer) {
        UnanimityHolds(rules, pol, name, answer);
      }
    } else {
      ObjectionOverruled(pol);
      var answer := Says(if MediumQuorum(pol) == 2 then Block else Quarantine);
      assert ValidAnswer(answer) && !NoObjection(answer);
    }
  }

  /** The same for the shipped policy, as a plain statement. */
  lemma ShippedPolicyIsUnanimous(rules: seq<Signal>, name: string, answer: Answer)
    requires ValidAnswer(answer)
    ensures Final(rules, DEFAULT_POLICY, name, answer) == Allow
            <==> DecisionOf(DEFAULT_POLICY, rules) == Allow && NoObjection(answer)
  {
    UnanimityIff(DEFAULT_POLICY);
  }

  /**
   An artifact that cannot be unpacked, with nothing else against it, gets in exactly when one medium
   signal is below the medium quorum; so it does under the shipped policy.
  */
  lemma UnpackFailureAlone(pol: Policy)
    requires Untouched(pol, UNPACK_FAILED.rule)
    ensures DecisionOf(pol, [UNPACK_FAILED]) == Allow <==> MediumQuorum(pol) > 1
    ensures DecisionOf(DEFAULT_POLICY, [UNPACK_FAILED]) == Allow
  {
    NoRules(pol);
    NoRules(DEFAULT_POLICY);
    AddOne(pol, [], UNPACK_FAILED);
    AddOne(DEFAULT_POLICY, [], UNPACK_FAILED);
    assert [] + [UNPACK_FAILED] == [UNPACK_FAILED];
  }

  /**
   So the pipeline with a model, as it weighs an artifact: its verdict admits exactly what the rules
   allow and the model, shown those rules' signals, does not object to; and it blocks exactly what they
   block.
  */
  lemma PipelineIsUnanimous(p: Pipeline, ok: bool, readable: string -> bool, art: Artifact, data: Bytes)
    requires p.policy == DEFAULT_POLICY && p.stages.model.Some?
    ensures var (rules, diff) := RuleSignals(p.stages, p.cache.disk, ok, readable, art, data);
            var shown := Evidence(art, rules, diff, FilesOf(p.stages.decoders, art.ecosystem, data), None);
            var answer := p.stages.model.value.classify(shown);
            var d := Decided(art, p.AllSignals(ok, readable, art, data), p.policy, p.EngineName()).decision;
            ValidAnswer(answer) ==>
              && (d == Allow <==> DecisionOf(p.policy, rules) == Allow && NoObjection(answer))
              && (d == Block <==> DecisionOf(p.policy, rules) == Block)
  {
    var (rules, diff) := RuleSignals(p.stages, p.cache.disk, ok, readable, art, data);
    var m := p.stages.model.value;
    var answer := m.classify(Evidence(art, rules, diff, FilesOf(p.stages.decoders, art.ecosystem, data), None));
    if ValidAnswer(answer) {
      ShippedPolicyIsUnanimous(rules, m.name, answer);
      OnlyRulesBlock(rules, DEFAULT_POLICY, m.name, answer);
      assert p.AllSignals(ok, readable, art, data) == Composed(rules, DEFAULT_POLICY, m.name, answer);
    }
  }
}
