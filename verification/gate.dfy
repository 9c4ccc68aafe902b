/** The admission pipeline and the offline scorer: both compose rule signals with the model's. */
module Gate {
  import opened Verdicts
  import opened Engine
  import opened Quorums
  import opened Triage
  import opened Store
  import Protocol
  import Unpack

  datatype Diff = Diff(prevVersion: string, added: seq<string>, removed: seq<string>, modified: seq<string>)

  /** What a model is shown. */
  datatype Evidence = Evidence(
    artifact: Artifact,
    signals: seq<Signal>,
    diff: Option<Diff>,
    files: Option<seq<Unpack.File>>,
    behavior: Option<Bytes>)

  datatype Model = Model(name: string, classify: Evidence -> Answer)

  /** The analysers behind the pipeline; each is a fixed function. */
  datatype Stages = Stages(
    decoders: Unpack.Decoders,
    inspect: (Artifact, seq<Unpack.File>) -> seq<Signal>,
    differ: (Artifact, string, seq<Unpack.File>, seq<Unpack.File>) -> (Diff, seq<Signal>),
    osv: Option<Artifact -> Option<seq<Signal>>>,
    model: Option<Model>)

  /** The unpacked files, or nothing when unpacking fails. */
  function FilesOf(d: Unpack.Decoders, ecosystem: string, data: Bytes): Option<seq<Unpack.File>> {
    var c := Unpack.Container(d, ecosystem, data);
    if c.Some? && Unpack.WithinBudget(c.value.0) then Some(Unpack.FiledAll(c.value.0, c.value.1)) else None
  }

  const UNPACK_FAILED :=
    Signal("static", "unpack-failed", Medium, "artifact could not be unpacked for inspection", "")
  const OSV_UNAVAILABLE :=
    Signal("osv", "osv-unavailable", Info, "OSV lookup unavailable; known-vuln status unknown", "")

  // ---- the previous good version ----

  /** The entry is an allowed version of other bytes that can still be read and unpacked. */
  predicate Good(d: Unpack.Decoders, disk: Protocol.Disk, readable: string -> bool, art: Artifact, e: Protocol.Entry) {
    && e.digest != art.digest && e.decision == Allow
    && readable(e.digest) && BytesAt(disk, e.digest).Some?
    && FilesOf(d, art.ecosystem, BytesAt(disk, e.digest).value).Some?
  }

  function IsGood(d: Unpack.Decoders, disk: Protocol.Disk, readable: string -> bool,
        art: Artifact): Protocol.Entry -> bool {
    (e: Protocol.Entry) => Good(d, disk, readable, art, e)
  }

  /** The newest entry with the property. */
  function Latest(past: seq<Protocol.Entry>, good: Protocol.Entry -> bool): Option<Protocol.Entry> {
    if past == [] then None
    else
      var n := |past| - 1;
      if good(past[n]) then Some(past[n]) else Latest(past[..n], good)
  }

  lemma {:induction false} LatestIsLatest(past: seq<Protocol.Entry>, good: Protocol.Entry -> bool)
    ensures match Latest(past, good)
            case None => forall k :: 0 <= k < |past| ==> !good(past[k])
            case Some(e) => exists i :: 0 <= i < |past| && past[i] == e && good(e) && forall k :: i < k < |past| ==> !good(past[k])
    decreases |past|
  {
    if past != [] {
      var n := |past| - 1;
      LatestIsLatest(past[..n], good);
      var below := Latest(past[..n], good);
      if !good(past[n]) && below.Some? {
        var i :| 0 <= i < n && past[..n][i] == below.value && forall k :: i < k < n ==> !good(past[..n][k]);
        assert past[i] == below.value;
        forall k | i < k < |past| ensures !good(past[k]) {
          if k < n { assert past[..n][k] == past[k]; }
        }
      }
    }
  }

  /** The candidate's predecessor, when the log is readable and has one. */
  function Previous(s: Stages, disk: Protocol.Disk, ok: bool, readable: string -> bool,
        art: Artifact): Option<Protocol.Entry> {
    var past := HistoryAt(disk, art.ecosystem, art.name);
    if ok && past.Some? then Latest(past.value, IsGood(s.decoders, disk, readable, art)) else None
  }

  // ---- the signals ----

  function OsvSignals(s: Stages, art: Artifact): seq<Signal> {
    if s.osv.None? then []
    else match s.osv.value(art) case None => [OSV_UNAVAILABLE] case Some(sigs) => sigs
  }

  /** Everything the deterministic stages say, with the diff against the predecessor. */
  function RuleSignals(s: Stages, disk: Protocol.Disk, ok: bool, readable: string -> bool, art: Artifact,
        data: Bytes): (seq<Signal>, Option<Diff>) {
    var u := FilesOf(s.decoders, art.ecosystem, data);
    if u.None? then ([UNPACK_FAILED] + OsvSignals(s, art), None)
    else
      var prev := Previous(s, disk, ok, readable, art);
      if prev.Some? && BytesAt(disk, prev.value.digest).Some?
         && FilesOf(s.decoders, art.ecosystem, BytesAt(disk, prev.value.digest).value).Some? then
        var before := FilesOf(s.decoders, art.ecosystem, BytesAt(disk, prev.value.digest).value).value;
        var (diff, sigs) := s.differ(art, prev.value.version, before, u.value);
        (s.inspect(art, u.value) + sigs + OsvSignals(s, art), Some(diff))
      else (s.inspect(art, u.value) + OsvSignals(s, art), None)
  }

  // ---- what the rule signals are made of ----

  /** Entry i is an allowed version of other bytes that can still be read and unpacked, and no later one is. */
  predicate IsPredecessor(s: Stages, disk: Protocol.Disk, readable: string -> bool, art: Artifact,
        past: seq<Protocol.Entry>, i: nat) {
    i < |past| && Usable(s, disk, readable, art, past[i]) && forall k :: i < k < |past| ==> !Usable(s, disk, readable, art, past[k])
  }

  predicate Usable(s: Stages, disk: Protocol.Disk, readable: string -> bool, art: Artifact, e: Protocol.Entry) {
    && e.decision == Allow && e.digest != art.digest
    && BytesAt(disk, e.digest).Some? && readable(e.digest)
    && FilesOf(s.decoders, art.ecosystem, BytesAt(disk, e.digest).value).Some?
  }

  /** The log can be read, and entry i of it is the predecessor. */
  predicate HasPredecessor(s: Stages, disk: Protocol.Disk, ok: bool, readable: string -> bool, art: Artifact, i: nat) {
    var past := HistoryAt(disk, art.ecosystem, art.name);
    ok && past.Some? && IsPredecessor(s, disk, readable, art, past.value, i)
  }

  lemma PreviousIs(s: Stages, disk: Protocol.Disk, ok: bool, readable: string -> bool, art: Artifact)
    ensures match Previous(s, disk, ok, readable, art)
            case None => forall i: nat :: !HasPredecessor(s, disk, ok, readable, art, i)
            case Some(e) => exists i: nat :: HasPredecessor(s, disk, ok, readable, art, i)
                              && HistoryAt(disk, art.ecosystem, art.name).value[i] == e
  {
    var past := HistoryAt(disk, art.ecosystem, art.name);
    if ok && past.Some? {
      var good := IsGood(s.decoders, disk, readable, art);
      LatestIsLatest(past.value, good);
      assert forall e :: good(e) <==> Usable(s, disk, readable, art, e);
      var prev := Latest(past.value, good);
      if prev.Some? {
        var i :| 0 <= i < |past.value| && past.value[i] == prev.value && good(prev.value)
                 && forall k :: i < k < |past.value| ==> !good(past.value[k]);
        assert HasPredecessor(s, disk, ok, readable, art, i);
      }
    }
  }

  /** There is one predecessor at most. */
  lemma OnePredecessor(s: Stages, disk: Protocol.Disk, ok: bool, readable: string -> bool, art: Artifact, i: nat, j: nat)
    requires HasPredecessor(s, disk, ok, readable, art, i) && HasPredecessor(s, disk, ok, readable, art, j)
    ensures i == j
  {
  }

  /** What the OSV stage adds: nothing without a client, its own signals, or that it cannot be reached. */
  predicate OsvAdds(s: Stages, art: Artifact, osv: seq<Signal>) {
    if s.osv.None? then osv == []
    else if s.osv.value(art).Some? then osv == s.osv.value(art).value
    else osv == [Signal("osv", "osv-unavailable", Info, "OSV lookup unavailable; known-vuln status unknown", "")]
  }

  /** The rules' signals when the artifact cannot be unpacked: the one that says so, and OSV's all the same. */
  lemma NotUnpacked(s: Stages, disk: Protocol.Disk, ok: bool, readable: string -> bool, art: Artifact, data: Bytes, osv: seq<Signal>)
    requires FilesOf(s.decoders, art.ecosystem, data).None? && OsvAdds(s, art, osv)
    ensures RuleSignals(s, disk, ok, readable, art, data)
         == ([Signal("static", "unpack-failed", Medium, "artifact could not be unpacked for inspection", "")] + osv, None)
  {
  }

  /** When it can be and has no predecessor: the inspection's, then OSV's. */
  lemma FirstVersion(s: Stages, disk: Protocol.Disk, ok: bool, readable: string -> bool, art: Artifact, data: Bytes,
        files: seq<Unpack.File>, osv: seq<Signal>)
    requires FilesOf(s.decoders, art.ecosystem, data) == Some(files) && OsvAdds(s, art, osv)
    requires forall i: nat :: !HasPredecessor(s, disk, ok, readable, art, i)
    ensures RuleSignals(s, disk, ok, readable, art, data) == (s.inspect(art, files) + osv, None)
  {
    PreviousIs(s, disk, ok, readable, art);
  }

  /** When it has one: also the differ's, from the predecessor's files to the candidate's. */
  lemma LaterVersion(s: Stages, disk: Protocol.Disk, ok: bool, readable: string -> bool, art: Artifact, data: Bytes,
        files: seq<Unpack.File>, osv: seq<Signal>, i: nat)
    requires FilesOf(s.decoders, art.ecosystem, data) == Some(files) && OsvAdds(s, art, osv)
    requires HasPredecessor(s, disk, ok, readable, art, i)
    ensures var e := HistoryAt(disk, art.ecosystem, art.name).value[i];
            var before := FilesOf(s.decoders, art.ecosystem, BytesAt(disk, e.digest).value).value;
            var (diff, sigs) := s.differ(art, e.version, before, files);
            RuleSignals(s, disk, ok, readable, art, data) == (s.inspect(art, files) + sigs + osv, Some(diff))
  {
    PreviousIs(s, disk, ok, readable, art);
    var e :| Previous(s, disk, ok, readable, art) == Some(e);
    var j: nat :| HasPredecessor(s, disk, ok, readable, art, j) && HistoryAt(disk, art.ecosystem, art.name).value[j] == e;
    OnePredecessor(s, disk, ok, readable, art, i, j);
  }

  /** Whatever becomes of the archive, all that OSV says is weighed. */
  lemma OsvIsWeighed(s: Stages, disk: Protocol.Disk, ok: bool, readable: string -> bool, art: Artifact, data: Bytes, x: Signal)
    requires s.osv.Some? && s.osv.value(art).Some? && x in s.osv.value(art).value
    ensures x in RuleSignals(s, disk, ok, readable, art, data).0
  {
  }

  ghost predicate KnownCritical(s: Stages, art: Artifact) {
    s.osv.Some? && s.osv.value(art).Some? && exists x :: x in s.osv.value(art).value && x.severity == Critical
  }

  method UnpackFiles(d: Unpack.Decoders, ecosystem: string, data: Bytes) returns (u: Option<seq<Unpack.File>>)
    requires Unpack.Decodes(d)
    ensures u == FilesOf(d, ecosystem, data)
  {
    var r := Unpack.UnpackAuto(d, ecosystem, data);
    u := match r case Ok(files) => Some(files) case Err(_) => None;
  }

  /** The gate's copy of the triage step. */
  method GateTriage(model: Model, art: Artifact, rules: seq<Signal>, diff: Option<Diff>,
        u: Option<seq<Unpack.File>>, pol: Policy)
    returns (sigs: seq<Signal>)
    ensures sigs == TriageSignals(rules, pol, model.name, model.classify(Evidence(art, rules, diff, u, None)))
  {
    var answer := model.classify(Evidence(art, rules, diff, u, None));
    if answer.Failed? { return [UnavailableSignal(FailureText(answer.failure))]; }
    var o := answer.output;
    var judgement := ToSignal(o, model.name);
    sigs := [judgement];
    var v := Decide(art, rules, pol, "rules-only");
    if Clears(v.decision) != Clears(o.decision) {
      sigs := sigs + [Signal("triage", "rules-llm-disagreement", Medium,
                             "deterministic rules and LLM triage disagree on clearing this package",
                             "rules=" + DecisionText(v.decision) + " " + model.name + "=" + DecisionText(o.decision))];
    }
  }

  class Pipeline {
    const stages: Stages
    const policy: Policy
    const cache: Cache

    constructor (stages: Stages, policy: Policy, cache: Cache)
      ensures this.stages == stages && this.policy == policy && this.cache == cache
    {
      this.stages := stages;
      this.policy := policy;
      this.cache := cache;
    }

    /** The search runs backward and stops at the first good entry. */
    method PreviousGood(art: Artifact, ok: bool, readable: string -> bool)
      returns (prev: Option<(seq<Unpack.File>, string)>)
      requires Unpack.Decodes(stages.decoders)
      ensures match Previous(stages, cache.disk, ok, readable, art)
              case None => prev == None
              case Some(e) =>
                && Good(stages.decoders, cache.disk, readable, art, e)
                && prev == Some((FilesOf(stages.decoders, art.ecosystem, BytesAt(cache.disk, e.digest).value).value, e.version))
    {
      var hist := cache.GetHistory(art.ecosystem, art.name, ok);
      if hist.None? || |hist.value| == 0 { return None; }
      var past := hist.value;
      ghost var good := IsGood(stages.decoders, cache.disk, readable, art);
      var i := |past|;
      assert past[..i] == past;
      while i > 0
        invariant i <= |past|
        invariant Latest(past, good) == Latest(past[..i], good)
      {
        i := i - 1;
        var e := past[i];
        assert past[..i + 1][..i] == past[..i];
        if e.digest == art.digest || e.decision != Allow { continue; }
        var data := cache.GetArtifact(e.digest, readable(e.digest));
        if data.None? { continue; }
        var u := UnpackFiles(stages.decoders, art.ecosystem, data.value);
        if u.None? { continue; }
        return Some((u.value, e.version));
      }
      prev := None;
    }

    function EngineName(): string {
      if stages.model.Some? then "static+triage-pipeline" else "static-pipeline"
    }

    /** The rules' signals followed by the model's. */
    ghost function AllSignals(ok: bool, readable: string -> bool, art: Artifact, data: Bytes): seq<Signal>
      reads cache
    {
      var (rules, diff) := RuleSignals(stages, cache.disk, ok, readable, art, data);
      if stages.model.None? then rules
      else
        var m := stages.model.value;
        rules + TriageSignals(rules, policy, m.name,
                  m.classify(Evidence(art, rules, diff, FilesOf(stages.decoders, art.ecosystem, data), None)))
    }

    method Analyze(art: Artifact, data: Bytes, ok: bool, readable: string -> bool)
      returns (signals: seq<Signal>, diff: Option<Diff>, u: Option<seq<Unpack.File>>)
      requires Unpack.Decodes(stages.decoders)
      ensures (signals, diff) == RuleSignals(stages, cache.disk, ok, readable, art, data)
      ensures u == FilesOf(stages.decoders, art.ecosystem, data)
    {
      signals, diff := [], None;
      u := UnpackFiles(stages.decoders, art.ecosystem, data);
      if u.None? {
        signals := signals + [UNPACK_FAILED];
        assert signals == [UNPACK_FAILED];
      } else {
        signals := signals + stages.inspect(art, u.value);
        assert signals == stages.inspect(art, u.value);
        var prev := PreviousGood(art, ok, readable);
        if prev.Some? {
          var (summary, sigs) := stages.differ(art, prev.value.1, prev.value.0, u.value);
          signals := signals + sigs;
          diff := Some(summary);
        }
      }
      assert signals + [] == signals;
      if stages.osv.Some? {
        match stages.osv.value(art)
        case None => signals := signals + [OSV_UNAVAILABLE];
        case Some(sigs) => signals := signals + sigs;
      }
    }

    /** The verdict is the engine's, over all signals; the package log gets it last. */
    method Admit(art: Artifact, data: Bytes, ok: bool, readable: string -> bool, okAgain: bool, f: Faults)
      returns (v: Verdict, diff: Option<Diff>)
      requires Unpack.Decodes(stages.decoders) && cache.Valid()
      modifies cache
      ensures cache.Valid()
      ensures v == Decided(art, old(AllSignals(ok, readable, art, data)), policy, EngineName())
      ensures diff == RuleSignals(stages, old(cache.disk), ok, readable, art, data).1
      ensures var e := Protocol.Entry(art.version, art.digest, v.decision);
              if old(cache.Extends(art.ecosystem, art.name, e, okAgain)) then
                cache.disk == Written(old(cache.disk), old(cache.nextTemp), Protocol.HistoryFile(art.ecosystem, art.name),
                                      Protocol.History(old(HistoryAt(cache.disk, art.ecosystem, art.name)).value + [e]), f)
              else cache.disk == old(cache.disk)
      ensures policy == DEFAULT_POLICY && KnownCritical(stages, art) ==> v.decision == Block
    {
      var signals, summary, u := Analyze(art, data, ok, readable);
      diff := summary;
      var engineName := "static-pipeline";
      if stages.model.Some? {
        var more := GateTriage(stages.model.value, art, signals, diff, u, policy);
        signals := signals + more;
        engineName := "static+triage-pipeline";
      }
      v := Decide(art, signals, policy, engineName);
      if policy == DEFAULT_POLICY && KnownCritical(stages, art) {
        ghost var x :| x in stages.osv.value(art).value && x.severity == Critical;
        OsvIsWeighed(stages, cache.disk, ok, readable, art, data, x);
        CriticalBlocks(art, signals, engineName, x);
      }
      var wrote := cache.AppendHistory(art.ecosystem, art.name, Protocol.Entry(art.version, art.digest, v.decision), okAgain, f);
    }
  }
}
