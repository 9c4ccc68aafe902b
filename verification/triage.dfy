/** The model's judgement: read from its output, rendered as a signal, compared with the rules. */
module Triage {
  import opened Verdicts
  import opened Text
  import opened Engine
  import Scanner
  import JsonText

  datatype Output = Output(decision: Decision, confidence: real, rationale: string, signals: seq<string>)

  datatype Failure =
    | NoObject
    | Unparsable
    | InvalidVerdict(decision: Decision)
    | Unavailable(cause: string)

  datatype Answer = Answered(output: Output) | Failed(failure: Failure)

  // ---- from the model's standard output ----

  predicate ValidDecision(d: Decision) { d == Allow || d == Block || d == Quarantine }

  /** JSON decoding of the extracted object is the parameter `decode`. */
  function Parsed(stdout: Bytes, decode: Bytes -> Option<Output>): Answer {
    match Scanner.Extracted(stdout)
    case None => Failed(NoObject)
    case Some(text) =>
      match decode(text)
      case None => Failed(Unparsable)
      case Some(o) => if ValidDecision(o.decision) then Answered(o) else Failed(InvalidVerdict(o.decision))
  }

  method ParseOutput(stdout: Bytes, decode: Bytes -> Option<Output>) returns (answer: Answer)
    ensures answer == Parsed(stdout, decode)
  {
    var obj := Scanner.ExtractJSONObject(stdout);
    if obj.None? { return Failed(NoObject); }
    var o := decode(obj.value);
    if o.None? { return Failed(Unparsable); }
    if !ValidDecision(o.value.decision) { return Failed(InvalidVerdict(o.value.decision)); }
    answer := Answered(o.value);
  }

  /**
   Whatever log surrounds the model's final message, the answer is that message: the text the
   decoder sees is the last object printed, and anything it decodes to outside the three verdicts is refused.
  */
  lemma LastMessageDecides(segs: seq<JsonText.Segment>, tail: Bytes, decode: Bytes -> Option<Output>)
    requires segs != [] && JsonText.ValidLog(segs, tail)
    ensures var message := JsonText.Print(JsonText.Obj(segs[|segs| - 1].members));
            var answer := Parsed(JsonText.PrintLog(segs, tail), decode);
            && (answer.Answered? <==> decode(message).Some? && decode(message).value.decision in {Allow, Quarantine, Block})
            && (answer.Answered? ==> answer.output == decode(message).value)
            && answer != Failed(NoObject)
  {
    JsonText.ExtractsTheLastObject(segs, tail);
  }

  // ---- as signals ----

  function DecisionText(d: Decision): string {
    match d
    case Allow => "allow"
    case Quarantine => "quarantine"
    case Block => "block"
    case Undefined(text) => text
  }

  method JoinSignals(ss: seq<string>) returns (out: string)
    ensures out == JoinedWith(ss, "; ")
  {
    out := "";
    for i := 0 to |ss|
      invariant out == JoinedWith(ss[..i], "; ")
    {
      if i > 0 { out := out + "; "; }
      out := out + ss[i];
      assert ss[..i + 1][..i] == ss[..i];
      if i == 0 { assert "" + ss[0] == ss[0]; }
    }
    assert ss[..|ss|] == ss;
  }

  function JudgementSeverity(d: Decision): Severity {
    match d
    case Block => High
    case Quarantine => Medium
    case _ => Info
  }

  function SignalOf(o: Output, modelName: string): Signal {
    Signal("triage", "llm-" + DecisionText(o.decision), JudgementSeverity(o.decision),
           modelName + " triage: " + o.rationale, JoinedWith(o.signals, "; "))
  }

  ghost predicate Within(part: string, whole: string) {
    exists before: string, after: string :: whole == before + part + after
  }

  /** Every part can be read in the joined text. */
  lemma {:induction false} JoinedHolds(parts: seq<string>, sep: string, i: nat)
    requires i < |parts|
    ensures Within(parts[i], JoinedWith(parts, sep))
    decreases |parts|
  {
    var n, whole := |parts| - 1, JoinedWith(parts, sep);
    if |parts| == 1 {
      assert whole == "" + parts[0] + "";
    } else if i == n {
      assert whole == (JoinedWith(parts[..n], sep) + sep) + parts[n] + "";
    } else {
      JoinedHolds(parts[..n], sep, i);
      var before: string, after: string :| JoinedWith(parts[..n], sep) == before + parts[i] + after;
      assert whole == before + parts[i] + (after + sep + parts[n]);
    }
  }

  method ToSignal(o: Output, modelName: string) returns (s: Signal)
    ensures s == SignalOf(o, modelName)
    ensures (s.severity == High <==> o.decision == Block) && (s.severity == Medium <==> o.decision == Quarantine)
    ensures s.severity in {High, Medium, Info} && s.stage == "triage" && s.rule == "llm-" + DecisionText(o.decision)
    ensures o.signals == [] ==> s.evidence == ""
    ensures forall i :: 0 <= i < |o.signals| ==> Within(o.signals[i], s.evidence)
  {
    var sev := Info;
    match o.decision {
      case Block => sev := High;
      case Quarantine => sev := Medium;
      case _ =>
    }
    var evidence := JoinSignals(o.signals);
    forall i | 0 <= i < |o.signals| ensures Within(o.signals[i], evidence) { JoinedHolds(o.signals, "; ", i); }
    s := Signal("triage", "llm-" + DecisionText(o.decision), sev, modelName + " triage: " + o.rationale, evidence);
  }

  predicate Clears(d: Decision) { d == Allow }

  function Disagreement(rules: Decision, modelName: string, o: Output): Signal {
    Signal("triage", "rules-llm-disagreement", Medium,
           "deterministic rules and LLM triage disagree on clearing this package",
           "rules=" + DecisionText(rules) + " " + modelName + "=" + DecisionText(o.decision))
  }

  function UnavailableSignal(cause: string): Signal {
    Signal("triage", "triage-unavailable", Info, "LLM triage unavailable", cause)
  }

  function FailureText(f: Failure): string {
    match f
    case NoObject => "codex: no JSON object in output"
    case Unparsable => "codex: parse output"
    case InvalidVerdict(d) => "codex: invalid verdict " + DecisionText(d)
    case Unavailable(cause) => cause
  }

  /** What triage adds to the signals of the rules. */
  function TriageSignals(rules: seq<Signal>, pol: Policy, modelName: string, answer: Answer): seq<Signal> {
    match answer
    case Failed(f) => [UnavailableSignal(FailureText(f))]
    case Answered(o) =>
      [SignalOf(o, modelName)]
      + (if Clears(DecisionOf(pol, rules)) != Clears(o.decision) then [Disagreement(DecisionOf(pol, rules), modelName, o)] else [])
  }

  /** What triage adds, field by field. */
  lemma TriageAdds(rules: seq<Signal>, pol: Policy, modelName: string, answer: Answer)
    ensures match answer
            case Failed(f) =>
              TriageSignals(rules, pol, modelName, answer)
              == [Signal("triage", "triage-unavailable", Info, "LLM triage unavailable", FailureText(f))]
            case Answered(o) =>
              var sigs := TriageSignals(rules, pol, modelName, answer);
              && |sigs| == (if (DecisionOf(pol, rules) == Allow) == (o.decision == Allow) then 1 else 2)
              && sigs[0].stage == "triage" && sigs[0].rule == "llm-" + DecisionText(o.decision)
              && (sigs[0].severity == High <==> o.decision == Block) && (sigs[0].severity == Medium <==> o.decision == Quarantine)
              && sigs[0].description == modelName + " triage: " + o.rationale
              && (|sigs| == 2 ==> sigs[1].rule == "rules-llm-disagreement" && sigs[1].severity == Medium)
              && (|sigs| == 2 ==>
                    sigs[1].evidence == "rules=" + DecisionText(DecisionOf(pol, rules)) + " " + modelName + "=" + DecisionText(o.decision))
  {
  }
}
