/** The offline scorer: the same rules and the same engine, over a tarball, a trace, or both. */
module Score {
  import opened Verdicts
  import opened Engine
  import opened Triage
  import opened Gate
  import Protocol
  import Unpack

  datatype Input = Input(artifact: Artifact, tarball: Option<Bytes>, trace: Option<Bytes>)

  /** The analysers; `behave` is None for a trace that does not parse. */
  datatype Rules = Rules(
    cfg: Protocol.Config,
    decoders: Unpack.Decoders,
    inspect: (Artifact, seq<Unpack.File>) -> seq<Signal>,
    behave: (string, Bytes) -> Option<seq<Signal>>)

  function Identified(r: Rules, input: Input): Artifact {
    if input.tarball.None? then input.artifact else input.artifact.(digest := r.cfg.digest(input.tarball.value))
  }

  function Unpacked(r: Rules, input: Input): Option<seq<Unpack.File>> {
    if input.tarball.None? then None else FilesOf(r.decoders, input.artifact.ecosystem, input.tarball.value)
  }

  /** Behaviour first, then source. */
  function Evidenced(r: Rules, input: Input): seq<Signal> {
    var behaved := if input.trace.None? then None else r.behave(input.artifact.ecosystem, input.trace.value);
    var u := Unpacked(r, input);
    (if behaved.Some? then behaved.value else [])
    + (if u.Some? then r.inspect(Identified(r, input), u.value) else [])
  }

  method Analyze(r: Rules, input: Input) returns (art: Artifact, signals: seq<Signal>, u: Option<seq<Unpack.File>>)
    requires Unpack.Decodes(r.decoders)
    ensures art == Identified(r, input) && signals == Evidenced(r, input) && u == Unpacked(r, input)
  {
    art, signals, u := input.artifact, [], None;
    if input.trace.Some? {
      var behaved := r.behave(art.ecosystem, input.trace.value);
      if behaved.Some? { signals := signals + behaved.value; }
    }
    if input.tarball.Some? {
      art := art.(digest := r.cfg.digest(input.tarball.value));
      u := UnpackFiles(r.decoders, art.ecosystem, input.tarball.value);
      if u.Some? { signals := signals + r.inspect(art, u.value); }
    }
  }

  method Score(r: Rules, input: Input, pol: Policy) returns (v: Verdict)
    requires Unpack.Decodes(r.decoders)
    ensures v == Decided(Identified(r, input), Evidenced(r, input), pol, "score")
  {
    var art, signals, u := Analyze(r, input);
    v := Decide(art, signals, pol, "score");
  }

  method Signals(r: Rules, input: Input) returns (art: Artifact, signals: seq<Signal>)
    requires Unpack.Decodes(r.decoders)
    ensures art == Identified(r, input) && signals == Evidenced(r, input)
  {
    var u;
    art, signals, u := Analyze(r, input);
  }

  /** The scorer's copy of the triage step; it shows the model the behaviour log and no diff. */
  method TriageStep(model: Model, art: Artifact, rules: seq<Signal>, u: Option<seq<Unpack.File>>,
        trace: Option<Bytes>, pol: Policy)
    returns (sigs: seq<Signal>)
    ensures sigs == TriageSignals(rules, pol, model.name, model.classify(Evidence(art, rules, None, u, trace)))
  {
    var answer := model.classify(Evidence(art, rules, None, u, trace));
    if answer.Failed? { return [UnavailableSignal(FailureText(answer.failure))]; }
    var o := answer.output;
    var judgement := ToSignal(o, model.name);
    sigs := [judgement];
    var v := Decide(art, rules, pol, "rules-only");
    if Clears(v.decision) != Clears(o.decision) {
      sigs := sigs + [Signal("triage", "rules-llm-disagreement", Medium,
                             "deterministic rules and LLM triage disagree on clearing this package",
                             "rules=" + DecisionText(v.decision) + " " + model.name + "=" + DecisionText(o.decision))];
    }
  }

  method ScoreTriage(r: Rules, input: Input, pol: Policy, model: Option<Model>) returns (v: Verdict)
    requires Unpack.Decodes(r.decoders)
    ensures var art, rules := Identified(r, input), Evidenced(r, input);
            v == Decided(art,
                   rules + (if model.None? then [] else
                     TriageSignals(rules, pol, model.value.name,
                       model.value.classify(Evidence(art, rules, None, Unpacked(r, input), input.trace)))),
                   pol, "score+triage")
  {
    var art, signals, u := Analyze(r, input);
    assert signals + [] == signals;
    if model.Some? {
      var more := TriageStep(model.value, art, signals, u, input.trace, pol);
      signals := signals + more;
    }
    v := Decide(art, signals, pol, "score+triage");
  }

  /** What the trace adds: its analysis, when there is a trace and it parses. */
  predicate BehaviourAdds(r: Rules, input: Input, sigs: seq<Signal>) {
    if input.trace.Some? && r.behave(input.artifact.ecosystem, input.trace.value).Some? then
      sigs == r.behave(input.artifact.ecosystem, input.trace.value).value
    else sigs == []
  }

  /** What the tarball adds: the inspection under its own digest, when there is one and it unpacks. */
  predicate SourceAdds(r: Rules, input: Input, sigs: seq<Signal>) {
    if input.tarball.Some? && FilesOf(r.decoders, input.artifact.ecosystem, input.tarball.value).Some? then
      sigs == r.inspect(input.artifact.(digest := r.cfg.digest(input.tarball.value)),
                        FilesOf(r.decoders, input.artifact.ecosystem, input.tarball.value).value)
    else sigs == []
  }

  /** The signals scored are the trace's and then the tarball's, each whatever becomes of the other. */
  lemma EvidenceIs(r: Rules, input: Input, behaved: seq<Signal>, source: seq<Signal>)
    requires BehaviourAdds(r, input, behaved) && SourceAdds(r, input, source)
    ensures Evidenced(r, input) == behaved + source
    ensures Identified(r, input).digest == if input.tarball.Some? then r.cfg.digest(input.tarball.value) else input.artifact.digest
    ensures Identified(r, input) == input.artifact.(digest := Identified(r, input).digest)
  {
  }
}
