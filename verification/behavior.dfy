/** Behavioural rules over a detonation trace, whose phases are visited in no fixed order. */
module Behavior {
  import opened Verdicts
  import opened Text
  import opened Gathering
  import Ranking

  // ---- the trace ----

  datatype FileOp = FileOp(path: string, read: bool, write: bool, delete: bool)
  datatype Socket = Socket(address: string, port: int, hostnames: seq<string>)

  /** One phase with its name; a trace is its phases in the order a visit meets them. */
  datatype Phase = Phase(
    name: string,
    files: seq<FileOp>,
    commands: seq<seq<string>>,
    sockets: seq<Socket>,
    dns: seq<seq<string>>)

  datatype Finding = Finding(rule: string, severity: Severity, description: string)

  datatype Sensitive = Sensitive(category: string, severity: Severity)

  /** The pattern matching behind the rules. */
  datatype Rules = Rules(
    lower: string -> string,
    sensitive: string -> Option<Sensitive>,       // classifySensitiveRead
    write: string -> Option<Finding>,             // classifyWrite
    executable: string -> bool,                   // looksExecutablePath
    churn: string -> bool,                        // isPackageManagerChurn
    command: seq<string> -> Option<Finding>,      // classifyCommand
    routable: string -> bool)                     // isRoutablePublicIP

  /** reconTool: which of the tools a command mentions it names, a choice the runtime makes. */
  type Recon = seq<string> -> Option<string>

  const DESTRUCTION_THRESHOLD := 25
  const RECON_BURST_THRESHOLD := 3
  const DNS_EXFIL_THRESHOLD := 3

  // ---- destinations ----

  predicate IsMetadataEndpoint(address: string) { address == "169.254.169.254" || address == "169.254.170.2" }

  predicate IsMiningPoolPort(port: int) { port in {3333, 5555, 7777, 14444, 45700} }

  /** No hostname in the record but the address itself. */
  predicate Literal(s: Socket) { forall i :: 0 <= i < |s.hostnames| ==> s.hostnames[i] == "" || s.hostnames[i] == s.address }

  method ConnectsHardcodedIP(r: Rules, s: Socket) returns (yes: bool)
    ensures yes <==> Literal(s) && r.routable(s.address)
  {
    for i := 0 to |s.hostnames|
      invariant forall k :: 0 <= k < i ==> s.hostnames[k] == "" || s.hostnames[k] == s.address
    {
      var h := s.hostnames[i];
      if h != "" && h != s.address { return false; }
    }
    yes := r.routable(s.address);
  }

  function Whitelist(ecosystem: string): seq<string> {
    if ecosystem == "npm" then ["registry.npmjs.org", ".npmjs.org", ".npmjs.com", ".yarnpkg.com"]
    else if ecosystem == "pypi" then ["pypi.org", ".pypi.org", ".pythonhosted.org", "files.pythonhosted.org"]
    else []
  }

  predicate Whitelisted(ecosystem: string, host: string) {
    exists i :: 0 <= i < |Whitelist(ecosystem)| &&
      var suffix := Whitelist(ecosystem)[i]; host == TrimPrefix(suffix, ".") || HasSuffix(host, suffix)
  }

  predicate UnknownDomain(r: Rules, ecosystem: string, host: string) {
    var h := r.lower(TrimSuffix(host, "."));
    h != "" && h != "localhost" && !HasSuffix(h, ".local") && !Whitelisted(ecosystem, h)
  }

  method IsUnknownDomain(r: Rules, ecosystem: string, host: string) returns (yes: bool)
    ensures yes <==> UnknownDomain(r, ecosystem, host)
  {
    var h := r.lower(TrimSuffix(host, "."));
    if h == "" || h == "localhost" || HasSuffix(h, ".local") { return false; }
    var suffixes := Whitelist(ecosystem);
    for i := 0 to |suffixes|
      invariant forall k :: 0 <= k < i ==> h != TrimPrefix(suffixes[k], ".") && !HasSuffix(h, suffixes[k])
    {
      if h == TrimPrefix(suffixes[i], ".") || HasSuffix(h, suffixes[i]) { return false; }
    }
    yes := true;
  }

  function BaseName(path: string): string { LastPart(path, '/') }

  function ParentDomain(h: string): string {
    var parts := Split(h, '.');
    if |parts| <= 2 then h else Join(parts[|parts| - 2..], '.')
  }

  // ---- what one item contributes ----

  function Behaviour(rule: string, severity: Severity, description: string, phase: string, evidence: string): Signal {
    Signal("behavior", rule, severity, description + " during " + phase, evidence)
  }

  /** Two independent checks: a file can be read and written in one run. */
  function FileSignals(r: Rules, phase: string): FileOp -> seq<Signal> {
    (f: FileOp) =>
      (if f.read && r.sensitive(f.path).Some? then
         var s := r.sensitive(f.path).value;
         [Signal("behavior", "sensitive-read:" + s.category, s.severity, "reads " + s.category + " during " + phase, f.path)]
       else [])
      + (if f.write && r.write(f.path).Some? then
           var w := r.write(f.path).value;
           [Behaviour(w.rule, w.severity, w.description, phase, f.path)]
         else [])
  }

  predicate ReadsCredential(r: Rules, f: FileOp) {
    f.read && r.sensitive(f.path).Some? && Ranking.Rank(r.sensitive(f.path).value.severity) >= Ranking.Rank(High)
  }

  predicate ReadsToken(r: Rules, f: FileOp) {
    f.read && r.sensitive(f.path).Some? && r.sensitive(f.path).value.category in {"npm-token", "netrc"}
  }

  /** The names of the executables a file operation drops; none or one. */
  function Drops(r: Rules): FileOp -> seq<string> {
    (f: FileOp) => if f.write && r.executable(f.path) && !r.churn(f.path) then [BaseName(f.path)] else []
  }

  function Deletions(r: Rules): FileOp -> seq<string> {
    (f: FileOp) => if f.delete && !r.churn(f.path) then [f.path] else []
  }

  /** The first argument that is a path to a dropped file. */
  function Spawned(argv: seq<string>, written: set<string>): Option<string> {
    if argv == [] then None
    else if '/' in argv[0] && BaseName(argv[0]) in written then Some(argv[0])
    else Spawned(argv[1..], written)
  }

  method SpawnsWritten(argv: seq<string>, written: set<string>) returns (token: Option<string>)
    ensures token == Spawned(argv, written)
  {
    assert argv[0..] == argv;
    for i := 0 to |argv|
      invariant Spawned(argv, written) == Spawned(argv[i..], written)
    {
      assert argv[i..][1..] == argv[i + 1..];
      var a := argv[i];
      if '/' !in a { continue; }
      if BaseName(a) in written { return Some(a); }
    }
    token := None;
  }

  const DROP_AND_RUN := "download-and-execute"

  function CommandSignals(r: Rules, phase: string, written: set<string>): seq<string> -> seq<Signal> {
    (c: seq<string>) =>
      (if r.command(c).Some? then
         var d := r.command(c).value;
         [Behaviour(d.rule, d.severity, d.description, phase, Join(c, ' '))]
       else [])
      + (if Spawned(c, written).Some? then
           [Behaviour(DROP_AND_RUN, Critical, "executes a file it dropped", phase, Spawned(c, written).value)]
         else [])
  }

  function Tools(recon: Recon): seq<string> -> seq<string> {
    (c: seq<string>) => if recon(c).Some? then [recon(c).value] else []
  }

  function Endpoint(s: Socket): string { s.address + ":" + Text.Signed(s.port) }

  function SocketSignals(r: Rules, phase: string): Socket -> seq<Signal> {
    (s: Socket) =>
      if IsMetadataEndpoint(s.address) then
        [Behaviour("cloud-metadata-access", Critical, "connects to the cloud instance-metadata endpoint", phase, s.address)]
      else if IsMiningPoolPort(s.port) then
        [Behaviour("mining-pool-egress", High, "connects to a cryptomining-pool port", phase, Endpoint(s))]
      else if Literal(s) && r.routable(s.address) then
        [Behaviour("hardcoded-ip-egress", High, "connects to a hardcoded public IP with no DNS lookup", phase, Endpoint(s))]
      else []
  }

  function QuerySignals(r: Rules, ecosystem: string, phase: string): string -> seq<Signal> {
    (q: string) =>
      if UnknownDomain(r, ecosystem, q) then
        [Behaviour("unknown-domain", High, "resolves an unknown external domain", phase, q)]
      else []
  }

  function RecordSignals(r: Rules, ecosystem: string, phase: string): seq<string> -> seq<Signal> {
    (d: seq<string>) => Gather(d, QuerySignals(r, ecosystem, phase))
  }

  // ---- what a visit of the phases contributes ----

  function ToSet(names: seq<string>): set<string> { set x | x in names }

  function PhaseDrops(r: Rules): Phase -> seq<string> { (p: Phase) => Gather(p.files, Drops(r)) }
  function PhaseDeletions(r: Rules): Phase -> seq<string> { (p: Phase) => Gather(p.files, Deletions(r)) }
  function PhaseTools(recon: Recon): Phase -> seq<string> { (p: Phase) => Gather(p.commands, Tools(recon)) }

  /** The dropped names known after visiting these phases. */
  function Written(r: Rules, phases: seq<Phase>): set<string> { ToSet(Gather(phases, PhaseDrops(r))) }

  function PhaseSignals(r: Rules, ecosystem: string, p: Phase, written: set<string>): seq<Signal> {
    Gather(p.files, FileSignals(r, p.name))
    + Gather(p.commands, CommandSignals(r, p.name, written))
    + Gather(p.sockets, SocketSignals(r, p.name))
    + Gather(p.dns, RecordSignals(r, ecosystem, p.name))
  }

  /** Each phase of a visit with the names dropped in it or before it. */
  function Stamped(r: Rules, phases: seq<Phase>): seq<(Phase, set<string>)> {
    seq(|phases|, k requires 0 <= k < |phases| => (phases[k], Written(r, phases[..k + 1])))
  }

  function StampedSignals(r: Rules, ecosystem: string): ((Phase, set<string>)) -> seq<Signal> {
    (x: (Phase, set<string>)) => PhaseSignals(r, ecosystem, x.0, x.1)
  }

  /** The per-item signals of a visit. */
  function Visited(r: Rules, ecosystem: string, phases: seq<Phase>): seq<Signal> {
    Gather(Stamped(r, phases), StampedSignals(r, ecosystem))
  }

  lemma StampedAt(r: Rules, ecosystem: string, phases: seq<Phase>, k: nat)
    requires k < |phases|
    ensures |Stamped(r, phases)| == |phases|
    ensures StampedSignals(r, ecosystem)(Stamped(r, phases)[k])
         == PhaseSignals(r, ecosystem, phases[k], Written(r, phases[..k + 1]))
  {
  }

  lemma VisitedStep(r: Rules, ecosystem: string, phases: seq<Phase>, i: nat)
    requires i < |phases|
    ensures Visited(r, ecosystem, phases[..i + 1])
         == Visited(r, ecosystem, phases[..i]) + PhaseSignals(r, ecosystem, phases[i], Written(r, phases[..i + 1]))
  {
    var before, last := Stamped(r, phases[..i]), (phases[i], Written(r, phases[..i + 1]));
    forall k | 0 <= k < i ensures before[k] == Stamped(r, phases[..i + 1])[k] {
      assert phases[..i][..k + 1] == phases[..i + 1][..k + 1];
    }
    assert phases[..i + 1][..i + 1] == phases[..i + 1];
    assert Stamped(r, phases[..i + 1]) == before + [last];
    GatherJoin(before, [last], StampedSignals(r, ecosystem));
    GatherOne(last, StampedSignals(r, ecosystem));
  }
}
