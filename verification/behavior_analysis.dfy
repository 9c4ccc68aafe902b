/** The analysis of a whole trace: per-item signals, then the aggregates over all phases. */
module BehaviorAnalysis {
  import opened Verdicts
  import opened Text
  import opened Gathering
  import opened Behavior
  import Ranking

  // ---- aggregates, declaratively ----

  predicate AnySteals(r: Rules, files: seq<FileOp>) { exists i :: 0 <= i < |files| && Steals(r, files[i]) }

  predicate PhaseReads(r: Rules, p: Phase) { AnySteals(r, p.files) }

  predicate SocketEscapes(r: Rules, s: Socket) { IsMetadataEndpoint(s.address) || (Literal(s) && r.routable(s.address)) }

  predicate RecordEscapes(r: Rules, ecosystem: string, d: seq<string>) {
    exists i :: 0 <= i < |d| && UnknownDomain(r, ecosystem, d[i])
  }

  predicate PhaseEscapes(r: Rules, ecosystem: string, p: Phase) {
    || (exists i :: 0 <= i < |p.sockets| && SocketEscapes(r, p.sockets[i]))
    || (exists i :: 0 <= i < |p.dns| && RecordEscapes(r, ecosystem, p.dns[i]))
  }

  predicate Reads(r: Rules, phases: seq<Phase>) { exists i :: 0 <= i < |phases| && PhaseReads(r, phases[i]) }

  predicate Escapes(r: Rules, ecosystem: string, phases: seq<Phase>) {
    exists i :: 0 <= i < |phases| && PhaseEscapes(r, ecosystem, phases[i])
  }

  /** The parent domain of a query that looks like encoded data. */
  function EncodedParent(r: Rules, ecosystem: string): string -> seq<string> {
    (q: string) =>
      var h := r.lower(TrimSuffix(q, "."));
      if UnknownDomain(r, ecosystem, h) && |TrimSuffix(h, "." + ParentDomain(h))| >= 20 then [ParentDomain(h)] else []
  }

  function RecordParents(r: Rules, ecosystem: string): seq<string> -> seq<string> {
    (d: seq<string>) => Gather(d, EncodedParent(r, ecosystem))
  }

  function PhaseParents(r: Rules, ecosystem: string): Phase -> seq<string> {
    (p: Phase) => Gather(p.dns, RecordParents(r, ecosystem))
  }

  /** The parents of all encoded-looking queries, with repetition. */
  function Parents(r: Rules, ecosystem: string, phases: seq<Phase>): seq<string> {
    Gather(phases, PhaseParents(r, ecosystem))
  }

  function Deleted(r: Rules, phases: seq<Phase>): seq<string> { Gather(phases, PhaseDeletions(r)) }

  function ToolsSeen(recon: Recon, phases: seq<Phase>): set<string> { ToSet(Gather(phases, PhaseTools(recon))) }

  // ---- the code ----

  /** What the loop over the files has gathered. */
  datatype FileScan = FileScan(sigs: seq<Signal>, stole: bool, drops: seq<string>, deleted: seq<string>)

  predicate Steals(r: Rules, f: FileOp) { ReadsCredential(r, f) || ReadsToken(r, f) }

  function Scanned(r: Rules, phase: string, files: seq<FileOp>): FileScan {
    FileScan(Gather(files, FileSignals(r, phase)), AnySteals(r, files),
             Gather(files, Drops(r)), Gather(files, Deletions(r)))
  }

  function PlusFile(r: Rules, phase: string, st: FileScan, f: FileOp): FileScan {
    FileScan(st.sigs + FileSignals(r, phase)(f), st.stole || Steals(r, f), st.drops + Drops(r)(f), st.deleted + Deletions(r)(f))
  }

  lemma ScannedStep(r: Rules, phase: string, files: seq<FileOp>, i: nat)
    requires i < |files|
    ensures Scanned(r, phase, files[..i + 1]) == PlusFile(r, phase, Scanned(r, phase, files[..i]), files[i])
  {
    GatherStep(files, i, FileSignals(r, phase));
    GatherStep(files, i, Drops(r));
    GatherStep(files, i, Deletions(r));
    StealsStep(r, files, i);
  }

  lemma StealsStep(r: Rules, files: seq<FileOp>, i: nat)
    requires i < |files|
    ensures AnySteals(r, files[..i + 1]) <==> AnySteals(r, files[..i]) || Steals(r, files[i])
  {
    var before, after := files[..i], files[..i + 1];
    if k :| 0 <= k < |before| && Steals(r, before[k]) { assert Steals(r, after[k]); }
    if Steals(r, files[i]) { assert Steals(r, after[i]); }
  }

  method ScanFiles(r: Rules, p: Phase) returns (st: FileScan)
    ensures st == Scanned(r, p.name, p.files)
  {
    st := FileScan([], false, [], []);
    for i := 0 to |p.files|
      invariant st == Scanned(r, p.name, p.files[..i])
    {
      ScannedStep(r, p.name, p.files, i);
      var f := p.files[i];
      var more, credential, token := ReadFile(r, p.name, f);
      var drops, deletions := NoteFile(r, f);
      st := FileScan(st.sigs + more, st.stole || credential || token, st.drops + drops, st.deleted + deletions);
    }
    assert p.files[..|p.files|] == p.files;
  }

  lemma ToSetJoin(a: seq<string>, b: seq<string>)
    ensures ToSet(a + b) == ToSet(a) + ToSet(b)
  {
  }

  /** One file operation: an executable dropped, a file destroyed. */
  method NoteFile(r: Rules, f: FileOp) returns (drops: seq<string>, deletions: seq<string>)
    ensures drops == Drops(r)(f) && deletions == Deletions(r)(f)
  {
    drops, deletions := [], [];
    if f.write && r.executable(f.path) && !r.churn(f.path) { drops := [BaseName(f.path)]; }
    if f.delete && !r.churn(f.path) { deletions := [f.path]; }
  }

  /** One file operation: its signals, and what its read means. */
  method ReadFile(r: Rules, phase: string, f: FileOp) returns (sigs: seq<Signal>, credential: bool, token: bool)
    ensures sigs == FileSignals(r, phase)(f)
    ensures credential || token <==> Steals(r, f)
  {
    sigs, credential, token := [], false, false;
    if f.read {
      var s := r.sensitive(f.path);
      if s.Some? {
        if Ranking.Rank(s.value.severity) >= Ranking.Rank(High) {
          credential := true;
        } else if s.value.category == "npm-token" || s.value.category == "netrc" {
          token := true;
        }
        sigs := [Signal("behavior", "sensitive-read:" + s.value.category, s.value.severity,
                        "reads " + s.value.category + " during " + phase, f.path)];
      }
    }
    if f.write {
      var w := r.write(f.path);
      if w.Some? {
        sigs := sigs + [Signal("behavior", w.value.rule, w.value.severity, w.value.description + " during " + phase, f.path)];
      }
    }
  }

  method ScanCommands(r: Rules, recon: Recon, p: Phase, written: set<string>)
    returns (sigs: seq<Signal>, tools: set<string>)
    ensures sigs == Gather(p.commands, CommandSignals(r, p.name, written))
    ensures tools == ToSet(PhaseTools(recon)(p))
  {
    sigs, tools := [], {};
    for i := 0 to |p.commands|
      invariant sigs == Gather(p.commands[..i], CommandSignals(r, p.name, written))
      invariant tools == ToSet(Gather(p.commands[..i], Tools(recon)))
    {
      var c := p.commands[i];
      GatherStep(p.commands, i, CommandSignals(r, p.name, written));
      ToolsStep(recon, p.commands, i);
      var more := RunCommand(r, p.name, c, written);
      sigs := sigs + more;
      if recon(c).Some? { tools := tools + {recon(c).value}; }
    }
    assert p.commands[..|p.commands|] == p.commands;
  }

  lemma ToolsStep(recon: Recon, commands: seq<seq<string>>, i: nat)
    requires i < |commands|
    ensures ToSet(Gather(commands[..i + 1], Tools(recon))) ==
              ToSet(Gather(commands[..i], Tools(recon))) + if recon(commands[i]).Some? then {recon(commands[i]).value} else {}
  {
    GatherStep(commands, i, Tools(recon));
    ToSetJoin(Gather(commands[..i], Tools(recon)), Tools(recon)(commands[i]));
  }

  method RunCommand(r: Rules, phase: string, c: seq<string>, written: set<string>) returns (sigs: seq<Signal>)
    ensures sigs == CommandSignals(r, phase, written)(c)
  {
    sigs := [];
    var d := r.command(c);
    if d.Some? {
      sigs := [Signal("behavior", d.value.rule, d.value.severity, d.value.description + " during " + phase, Join(c, ' '))];
    }
    var dropped := SpawnsWritten(c, written);
    if dropped.Some? {
      sigs := sigs + [Signal("behavior", DROP_AND_RUN, Critical, "executes a file it dropped" + " during " + phase, dropped.value)];
    }
  }

  method ScanSockets(r: Rules, p: Phase) returns (sigs: seq<Signal>)
    ensures sigs == Gather(p.sockets, SocketSignals(r, p.name))
  {
    sigs := [];
    for i := 0 to |p.sockets|
      invariant sigs == Gather(p.sockets[..i], SocketSignals(r, p.name))
    {
      GatherStep(p.sockets, i, SocketSignals(r, p.name));
      var more := Connect(r, p.name, p.sockets[i]);
      sigs := sigs + more;
    }
    assert p.sockets[..|p.sockets|] == p.sockets;
  }

  method Connect(r: Rules, phase: string, s: Socket) returns (sigs: seq<Signal>)
    ensures sigs == SocketSignals(r, phase)(s)
  {
    if IsMetadataEndpoint(s.address) {
      return [Behaviour("cloud-metadata-access", Critical, "connects to the cloud instance-metadata endpoint", phase, s.address)];
    }
    if IsMiningPoolPort(s.port) {
      return [Behaviour("mining-pool-egress", High, "connects to a cryptomining-pool port", phase, Endpoint(s))];
    }
    var hardcoded := ConnectsHardcodedIP(r, s);
    sigs := if hardcoded then
      [Behaviour("hardcoded-ip-egress", High, "connects to a hardcoded public IP with no DNS lookup", phase, Endpoint(s))]
    else [];
  }

  method ScanDns(r: Rules, ecosystem: string, p: Phase) returns (sigs: seq<Signal>)
    ensures sigs == Gather(p.dns, RecordSignals(r, ecosystem, p.name))
  {
    sigs := [];
    for i := 0 to |p.dns|
      invariant sigs == Gather(p.dns[..i], RecordSignals(r, ecosystem, p.name))
    {
      GatherStep(p.dns, i, RecordSignals(r, ecosystem, p.name));
      var more := ScanRecord(r, ecosystem, p.name, p.dns[i]);
      sigs := sigs + more;
    }
    assert p.dns[..|p.dns|] == p.dns;
  }

  method ScanRecord(r: Rules, ecosystem: string, phase: string, d: seq<string>) returns (sigs: seq<Signal>)
    ensures sigs == RecordSignals(r, ecosystem, phase)(d)
  {
    sigs := [];
    for i := 0 to |d|
      invariant sigs == Gather(d[..i], QuerySignals(r, ecosystem, phase))
    {
      GatherStep(d, i, QuerySignals(r, ecosystem, phase));
      var unknown := IsUnknownDomain(r, ecosystem, d[i]);
      if unknown {
        sigs := sigs + [Behaviour("unknown-domain", High, "resolves an unknown external domain", phase, d[i])];
      }
    }
    assert d[..|d|] == d;
  }

  /** The busiest parent domain of encoded-looking queries, and how busy: the true maximum. */
  method DnsExfilPattern(r: Rules, ecosystem: string, phases: seq<Phase>) returns (best: string, n: nat)
    ensures n == multiset(Parents(r, ecosystem, phases))[best] || (n == 0 && best == "")
    ensures forall p :: multiset(Parents(r, ecosystem, phases))[p] <= n
  {
    var byParent := CountParents(r, ecosystem, phases);
    ghost var all := multiset(Parents(r, ecosystem, phases));
    best, n := "", 0;
    var todo := byParent.Keys;
    while todo != {}
      invariant todo <= byParent.Keys
      invariant n == all[best] || (n == 0 && best == "")
      invariant forall p :: p !in todo ==> all[p] <= n
      decreases |todo|
    {
      var p :| p in todo;
      if byParent[p] > n { best, n := p, byParent[p]; }
      todo := todo - {p};
    }
  }

  function At(m: map<string, nat>, k: string): nat { if k in m then m[k] else 0 }

  method CountParents(r: Rules, ecosystem: string, phases: seq<Phase>) returns (byParent: map<string, nat>)
    ensures forall p :: At(byParent, p) == multiset(Parents(r, ecosystem, phases))[p]
  {
    byParent := map[];
    for i := 0 to |phases|
      invariant forall p :: At(byParent, p) == multiset(Parents(r, ecosystem, phases[..i]))[p]
    {
      GatherStep(phases, i, PhaseParents(r, ecosystem));
      byParent := CountPhase(r, ecosystem, phases[i], byParent);
    }
    assert phases[..|phases|] == phases;
  }

  method CountPhase(r: Rules, ecosystem: string, ph: Phase, before: map<string, nat>) returns (after: map<string, nat>)
    ensures forall p :: At(after, p) == At(before, p) + multiset(PhaseParents(r, ecosystem)(ph))[p]
  {
    after := before;
    for i := 0 to |ph.dns|
      invariant forall p :: At(after, p) == At(before, p) + multiset(Gather(ph.dns[..i], RecordParents(r, ecosystem)))[p]
    {
      GatherStep(ph.dns, i, RecordParents(r, ecosystem));
      after := CountRecord(r, ecosystem, ph.dns[i], after);
    }
    assert ph.dns[..|ph.dns|] == ph.dns;
  }

  method CountRecord(r: Rules, ecosystem: string, d: seq<string>, before: map<string, nat>)
    returns (after: map<string, nat>)
    ensures forall p :: At(after, p) == At(before, p) + multiset(RecordParents(r, ecosystem)(d))[p]
  {
    after := before;
    for i := 0 to |d|
      invariant forall p :: At(after, p) == At(before, p) + multiset(Gather(d[..i], EncodedParent(r, ecosystem)))[p]
    {
      GatherStep(d, i, EncodedParent(r, ecosystem));
      var h := r.lower(TrimSuffix(d[i], "."));
      var unknown := IsUnknownDomain(r, ecosystem, h);
      if !unknown { continue; }
      var parent := ParentDomain(h);
      if |TrimSuffix(h, "." + parent)| >= 20 { after := after[parent := At(after, parent) + 1]; }
    }
    assert d[..|d|] == d;
  }

  method HasUnknownEgress(r: Rules, ecosystem: string, phases: seq<Phase>) returns (yes: bool)
    ensures yes <==> Escapes(r, ecosystem, phases)
  {
    for i := 0 to |phases|
      invariant forall k :: 0 <= k < i ==> !PhaseEscapes(r, ecosystem, phases[k])
    {
      var out := PhaseHasEgress(r, ecosystem, phases[i]);
      if out { return true; }
    }
    yes := false;
  }

  method PhaseHasEgress(r: Rules, ecosystem: string, p: Phase) returns (yes: bool)
    ensures yes <==> PhaseEscapes(r, ecosystem, p)
  {
    for i := 0 to |p.sockets|
      invariant forall k :: 0 <= k < i ==> !SocketEscapes(r, p.sockets[k])
    {
      var hardcoded := ConnectsHardcodedIP(r, p.sockets[i]);
      if IsMetadataEndpoint(p.sockets[i].address) || hardcoded {
        assert SocketEscapes(r, p.sockets[i]);
        return true;
      }
    }
    for i := 0 to |p.dns|
      invariant forall k :: 0 <= k < i ==> !RecordEscapes(r, ecosystem, p.dns[k])
    {
      var d := p.dns[i];
      for j := 0 to |d|
        invariant forall k :: 0 <= k < j ==> !UnknownDomain(r, ecosystem, d[k])
      {
        var unknown := IsUnknownDomain(r, ecosystem, d[j]);
        if unknown {
          assert RecordEscapes(r, ecosystem, p.dns[i]);
          return true;
        }
      }
    }
    yes := false;
  }

  // ---- the whole analysis ----

  const EXFIL_CHAIN :=
    Signal("behavior", "exfil-chain", Critical,
           "reads credential material and contacts an unknown destination (exfiltration pattern)", "")

  function Destruction(deleted: seq<string>): Signal {
    Signal("behavior", "data-destruction", Critical, "deletes " + Decimal(|deleted|) + " files (destructive)",
           JoinedWith(if |deleted| > 3 then deleted[..3] else deleted, ", "))
  }

  function ReconBurst(n: nat): Signal {
    Signal("behavior", "recon-burst", Medium, "host reconnaissance: " + Decimal(n) + " distinct profiling tools", "")
  }

  function DnsExfil(host: string, n: nat): Signal {
    Signal("behavior", "dns-exfil", High, Decimal(n) + " encoded-subdomain DNS queries to one parent (exfil pattern)", host)
  }

  function When(b: bool, s: Signal): seq<Signal> { if b then [s] else [] }

  /** The aggregate signals; `host` is the busiest parent the code happened to pick, n how busy it is. */
  function Aggregates(deleted: seq<string>, tools: set<string>, host: string, n: nat, chain: bool): seq<Signal> {
    When(|deleted| >= DESTRUCTION_THRESHOLD, Destruction(deleted))
    + When(|tools| >= RECON_BURST_THRESHOLD, ReconBurst(|tools|))
    + When(n >= DNS_EXFIL_THRESHOLD, DnsExfil(host, n))
    + When(chain, EXFIL_CHAIN)
  }

  /** `n` is the largest number of encoded-looking queries to one parent. */
  ghost predicate IsBusiest(r: Rules, ecosystem: string, phases: seq<Phase>, n: nat) {
    var all := multiset(Parents(r, ecosystem, phases));
    (forall p :: all[p] <= n) && (n > 0 ==> exists p :: all[p] == n)
  }

  /** What the loop over the phases has gathered. */
  datatype Scan = Scan(sigs: seq<Signal>, stole: bool, written: set<string>, deleted: seq<string>, tools: set<string>)

  function ScanOf(r: Rules, recon: Recon, ecosystem: string, phases: seq<Phase>): Scan {
    Scan(Visited(r, ecosystem, phases), Reads(r, phases), Written(r, phases), Deleted(r, phases), ToolsSeen(recon, phases))
  }

  function PlusPhase(r: Rules, recon: Recon, ecosystem: string, st: Scan, p: Phase): Scan {
    var written := st.written + ToSet(PhaseDrops(r)(p));
    Scan(st.sigs + PhaseSignals(r, ecosystem, p, written), st.stole || PhaseReads(r, p), written,
         st.deleted + PhaseDeletions(r)(p), st.tools + ToSet(PhaseTools(recon)(p)))
  }

  lemma ScanStep(r: Rules, recon: Recon, ecosystem: string, phases: seq<Phase>, i: nat)
    requires i < |phases|
    ensures ScanOf(r, recon, ecosystem, phases[..i + 1]) == PlusPhase(r, recon, ecosystem, ScanOf(r, recon, ecosystem, phases[..i]), phases[i])
  {
    GatherStep(phases, i, PhaseDrops(r));
    GatherStep(phases, i, PhaseDeletions(r));
    GatherStep(phases, i, PhaseTools(recon));
    ToSetJoin(Gather(phases[..i], PhaseDrops(r)), PhaseDrops(r)(phases[i]));
    ToSetJoin(Gather(phases[..i], PhaseTools(recon)), PhaseTools(recon)(phases[i]));
    VisitedStep(r, ecosystem, phases, i);
    ReadsStep(r, phases, i);
  }

  lemma ReadsStep(r: Rules, phases: seq<Phase>, i: nat)
    requires i < |phases|
    ensures Reads(r, phases[..i + 1]) <==> Reads(r, phases[..i]) || PhaseReads(r, phases[i])
  {
    var before, after := phases[..i], phases[..i + 1];
    if k :| 0 <= k < |before| && PhaseReads(r, before[k]) { assert PhaseReads(r, after[k]); }
    if k :| 0 <= k < |after| && PhaseReads(r, after[k]) { assert k < i ==> PhaseReads(r, before[k]); }
    if PhaseReads(r, phases[i]) { assert PhaseReads(r, after[i]); }
  }

  /** One turn of the loop over the phases: the files first, then the commands. */
  method ScanPhase(r: Rules, recon: Recon, ecosystem: string, p: Phase, before: Scan) returns (st: Scan)
    ensures st == PlusPhase(r, recon, ecosystem, before, p)
  {
    var files := ScanFiles(r, p);
    var written := before.written + ToSet(files.drops);
    var commands, tools := ScanCommands(r, recon, p, written);
    var sockets := ScanSockets(r, p);
    var dns := ScanDns(r, ecosystem, p);
    st := Scan(before.sigs + (files.sigs + commands + sockets + dns), before.stole || files.stole, written,
               before.deleted + files.deleted, before.tools + tools);
  }

  method ScanPhases(r: Rules, recon: Recon, ecosystem: string, phases: seq<Phase>) returns (st: Scan)
    ensures st == ScanOf(r, recon, ecosystem, phases)
  {
    st := Scan([], false, {}, [], {});
    for i := 0 to |phases|
      invariant st == ScanOf(r, recon, ecosystem, phases[..i])
    {
      ScanStep(r, recon, ecosystem, phases, i);
      st := ScanPhase(r, recon, ecosystem, phases[i], st);
    }
    assert phases[..|phases|] == phases;
  }

  method Aggregate(deleted: seq<string>, tools: set<string>, host: string, n: nat, chain: bool) returns (out: seq<Signal>)
    ensures out == Aggregates(deleted, tools, host, n, chain)
  {
    out := [];
    ghost var a, b := When(|deleted| >= DESTRUCTION_THRESHOLD, Destruction(deleted)), When(|tools| >= RECON_BURST_THRESHOLD, ReconBurst(|tools|));
    ghost var c := When(n >= DNS_EXFIL_THRESHOLD, DnsExfil(host, n));
    if |deleted| >= DESTRUCTION_THRESHOLD { out := out + [Destruction(deleted)]; }
    assert out == a;
    if |tools| >= RECON_BURST_THRESHOLD { out := out + [ReconBurst(|tools|)]; }
    assert out == a + b;
    if n >= DNS_EXFIL_THRESHOLD { out := out + [DnsExfil(host, n)]; }
    assert out == a + b + c;
    if chain { out := out + [EXFIL_CHAIN]; }
  }

  /** The signals of one analysis whose DNS pass settled on `host` with n queries. */
  ghost predicate Yields(r: Rules, recon: Recon, ecosystem: string, phases: seq<Phase>, host: string, n: nat,
        sigs: seq<Signal>) {
    && IsBusiest(r, ecosystem, phases, n)
    && sigs == Visited(r, ecosystem, phases)
             + Aggregates(Deleted(r, phases), ToolsSeen(recon, phases), host, n, Reads(r, phases) && Escapes(r, ecosystem, phases))
  }

  /**
   The map of phases is walked three times, each time in an order of the runtime's choosing: for the
   items, for the DNS pattern, for the egress test. Only the first order shows.
  */
  method Analyze(r: Rules, recon: Recon, ecosystem: string, phases: seq<Phase>, again: seq<Phase>, third: seq<Phase>)
    returns (sigs: seq<Signal>)
    requires multiset(phases) == multiset(again) == multiset(third)
    ensures exists host, n :: Yields(r, recon, ecosystem, phases, host, n, sigs)
  {
    var st := ScanPhases(r, recon, ecosystem, phases);
    var host, n := DnsExfilPattern(r, ecosystem, again);
    SameParents(r, ecosystem, phases, again);
    var chain := false;
    if st.stole { chain := HasUnknownEgress(r, ecosystem, third); }
    SameEscapes(r, ecosystem, phases, third);
    var out := Aggregate(st.deleted, st.tools, host, n, chain);
    sigs := st.sigs + out;
    assert IsBusiest(r, ecosystem, phases, n);
    assert Yields(r, recon, ecosystem, phases, host, n, sigs);
  }

  lemma SameParents(r: Rules, ecosystem: string, a: seq<Phase>, b: seq<Phase>)
    requires multiset(a) == multiset(b)
    ensures multiset(Parents(r, ecosystem, a)) == multiset(Parents(r, ecosystem, b))
  {
    GatherPermutes(a, b, PhaseParents(r, ecosystem));
  }

  lemma SameEscapes(r: Rules, ecosystem: string, a: seq<Phase>, b: seq<Phase>)
    requires multiset(a) == multiset(b)
    ensures Escapes(r, ecosystem, a) <==> Escapes(r, ecosystem, b)
  {
    if i :| 0 <= i < |a| && PhaseEscapes(r, ecosystem, a[i]) {
      assert a[i] in multiset(b);
      var j :| 0 <= j < |b| && b[j] == a[i];
    }
    if i :| 0 <= i < |b| && PhaseEscapes(r, ecosystem, b[i]) {
      assert b[i] in multiset(a);
      var j :| 0 <= j < |a| && a[j] == b[i];
    }
  }
}
