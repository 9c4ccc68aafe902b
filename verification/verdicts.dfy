/** The records that travel between the stages: artifacts, signals, decisions, verdicts. */
module Verdicts {

  /** Byte strings; each char stands for one byte. */
  type Bytes = string

  datatype Option<+T> = None | Some(value: T)

  /** An admission outcome. Go's Decision is a string type, so a model may return any other text. */
  datatype Decision = Allow | Quarantine | Block | Undefined(text: string)

  /** A severity. `Ungraded` stands for every string outside the five constants. */
  datatype Severity = Info | Low | Medium | High | Critical | Ungraded(text: string)

  datatype Signal = Signal(stage: string, rule: string, severity: Severity, description: string, evidence: string)

  datatype Artifact = Artifact(ecosystem: string, name: string, version: string, digest: string)

  /** A verdict; the wall-clock stamp, the build stamp and the file diff are not part of this model. */
  datatype Verdict = Verdict(artifact: Artifact, decision: Decision, reason: string, signals: seq<Signal>, engine: string)
}
