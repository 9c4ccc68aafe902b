/** When each rule is reported, over the events of the trace and whatever order its phases are visited in. */
module BehaviorRules {
  import opened Verdicts
  import opened Text
  import opened Gathering
  import opened Behavior
  import opened BehaviorAnalysis
  import opened BehaviorLaws

  // ---- what a single event is reported as ----

  predicate FileIs(r: Rules, phase: string, f: FileOp, s: Signal) {
    || (f.read && r.sensitive(f.path).Some?
        && var x := r.sensitive(f.path).value;
           s == Signal("behavior", "sensitive-read:" + x.category, x.severity, "reads " + x.category + " during " + phase, f.path))
    || (f.write && r.write(f.path).Some?
        && var x := r.write(f.path).value;
           s == Signal("behavior", x.rule, x.severity, x.description + " during " + phase, f.path))
  }

  predicate CommandIs(r: Rules, phase: string, c: seq<string>, s: Signal) {
    r.command(c).Some?
    && var x := r.command(c).value;
       s == Signal("behavior", x.rule, x.severity, x.description + " during " + phase, Join(c, ' '))
  }

  predicate ToMetadata(s: Socket) { s.address in {"169.254.169.254", "169.254.170.2"} }

  predicate ToPool(s: Socket) { !ToMetadata(s) && s.port in {3333, 5555, 7777, 14444, 45700} }

  /** To a public address nobody resolved, when neither of the above. */
  predicate ToBareAddress(r: Rules, s: Socket) {
    !ToMetadata(s) && !ToPool(s) && r.routable(s.address) && forall h :: h in s.hostnames ==> h == "" || h == s.address
  }

  function MetadataSignal(phase: string, k: Socket): (s: Signal)
    ensures s.rule == "cloud-metadata-access" && s.severity == Critical
  {
    Signal("behavior", "cloud-metadata-access", Critical, "connects to the cloud instance-metadata endpoint during " + phase, k.address)
  }

  function PoolSignal(phase: string, k: Socket): (s: Signal)
    ensures s.rule == "mining-pool-egress" && s.severity == High
  {
    Signal("behavior", "mining-pool-egress", High, "connects to a cryptomining-pool port during " + phase,
           k.address + ":" + Signed(k.port))
  }

  function BareSignal(phase: string, k: Socket): (s: Signal)
    ensures s.rule == "hardcoded-ip-egress" && s.severity == High
  {
    Signal("behavior", "hardcoded-ip-egress", High, "connects to a hardcoded public IP with no DNS lookup during " + phase,
           k.address + ":" + Signed(k.port))
  }

  predicate SocketIs(r: Rules, phase: string, k: Socket, s: Signal) {
    || (ToMetadata(k) && s == MetadataSignal(phase, k))
    || (ToPool(k) && s == PoolSignal(phase, k))
    || (ToBareAddress(r, k) && s == BareSignal(phase, k))
  }

  /** A host an install has no business with, case and a final dot aside. */
  predicate Foreign(r: Rules, ecosystem: string, host: string) {
    var h := r.lower(if |host| > 0 && host[|host| - 1] == '.' then host[..|host| - 1] else host);
    && h != "" && h != "localhost" && !HasSuffix(h, ".local")
    && (ecosystem == "npm" ==>
         && h !in {"npmjs.org", "npmjs.com", "yarnpkg.com"} && !HasSuffix(h, "registry.npmjs.org")
         && !HasSuffix(h, ".npmjs.org") && !HasSuffix(h, ".npmjs.com") && !HasSuffix(h, ".yarnpkg.com"))
    && (ecosystem == "pypi" ==>
         && h != "pythonhosted.org" && !HasSuffix(h, "pypi.org")
         && !HasSuffix(h, ".pythonhosted.org") && !HasSuffix(h, "files.pythonhosted.org"))
  }

  predicate QueryIs(r: Rules, ecosystem: string, phase: string, q: string, s: Signal) {
    Foreign(r, ecosystem, q)
    && s == Signal("behavior", "unknown-domain", High, "resolves an unknown external domain during " + phase, q)
  }

  predicate PhaseReports(r: Rules, ecosystem: string, p: Phase, s: Signal) {
    || (exists f :: f in p.files && FileIs(r, p.name, f, s))
    || (exists c :: c in p.commands && CommandIs(r, p.name, c, s))
    || (exists k :: k in p.sockets && SocketIs(r, p.name, k, s))
    || (exists d :: d in p.dns && exists q :: q in d && QueryIs(r, ecosystem, p.name, q, s))
  }

  // ---- the code's signals are these ----

  lemma FileSays(r: Rules, phase: string, f: FileOp, s: Signal)
    ensures s in FileSignals(r, phase)(f) <==> FileIs(r, phase, f, s)
  {
  }

  lemma CommandSays(r: Rules, phase: string, w: set<string>, c: seq<string>, s: Signal)
    requires s.rule != DROP_AND_RUN
    ensures s in CommandSignals(r, phase, w)(c) <==> CommandIs(r, phase, c, s)
  {
  }

  lemma BareMeans(r: Rules, k: Socket)
    ensures Literal(k) <==> forall h :: h in k.hostnames ==> h == "" || h == k.address
  {
    if Literal(k) {
      forall h | h in k.hostnames ensures h == "" || h == k.address {
        var i :| 0 <= i < |k.hostnames| && k.hostnames[i] == h;
      }
    }
    forall i | 0 <= i < |k.hostnames| ensures k.hostnames[i] in k.hostnames {
    }
  }

  lemma SocketSays(r: Rules, phase: string, k: Socket, s: Signal)
    ensures s in SocketSignals(r, phase)(k) <==> SocketIs(r, phase, k, s)
  {
    BareMeans(r, k);
    assert "connects to the cloud instance-metadata endpoint" + " during " == "connects to the cloud instance-metadata endpoint during ";
    assert "connects to a cryptomining-pool port" + " during " == "connects to a cryptomining-pool port during ";
    assert "connects to a hardcoded public IP with no DNS lookup" + " during " == "connects to a hardcoded public IP with no DNS lookup during ";
  }

  /** How one entry of the list is matched. */
  predicate Match(h: string, entry: string) { h == TrimPrefix(entry, ".") || HasSuffix(h, entry) }

  lemma MatchDotted(h: string, entry: string, bare: string)
    requires entry == "." + bare
    ensures Match(h, entry) <==> h == bare || HasSuffix(h, entry)
  {
    assert entry[..1] == "." && entry[1..] == bare;
  }

  lemma MatchPlain(h: string, entry: string)
    requires entry != "" && entry[0] != '.'
    ensures Match(h, entry) <==> HasSuffix(h, entry)
  {
    assert entry[..1] == [entry[0]];
    assert entry[|entry| - |entry|..] == entry;
  }

  lemma WhitelistedMatches(ecosystem: string, h: string)
    ensures Whitelisted(ecosystem, h) <==> exists i :: 0 <= i < |Whitelist(ecosystem)| && Match(h, Whitelist(ecosystem)[i])
  {
    var list := Whitelist(ecosystem);
    forall i | 0 <= i < |list|
      ensures Match(h, list[i]) <==> (var suffix := list[i]; h == TrimPrefix(suffix, ".") || HasSuffix(h, suffix)) {
    }
  }

  lemma NpmEntries(h: string)
    ensures Match(h, "registry.npmjs.org") <==> HasSuffix(h, "registry.npmjs.org")
    ensures Match(h, ".npmjs.org") <==> h == "npmjs.org" || HasSuffix(h, ".npmjs.org")
    ensures Match(h, ".npmjs.com") <==> h == "npmjs.com" || HasSuffix(h, ".npmjs.com")
    ensures Match(h, ".yarnpkg.com") <==> h == "yarnpkg.com" || HasSuffix(h, ".yarnpkg.com")
  {
    hide Match, HasSuffix;
    MatchPlain(h, "registry.npmjs.org");
    MatchDotted(h, ".npmjs.org", "npmjs.org");
    MatchDotted(h, ".npmjs.com", "npmjs.com");
    MatchDotted(h, ".yarnpkg.com", "yarnpkg.com");
  }

  lemma NpmMatches(h: string)
    ensures Whitelisted("npm", h) <==>
              Match(h, "registry.npmjs.org") || Match(h, ".npmjs.org") || Match(h, ".npmjs.com") || Match(h, ".yarnpkg.com")
  {
    var list := Whitelist("npm");
    WhitelistedMatches("npm", h);
    hide Match, Whitelisted;
    assert Whitelisted("npm", h) <==> Match(h, list[0]) || Match(h, list[1]) || Match(h, list[2]) || Match(h, list[3]);
  }

  lemma NpmWhitelist(h: string)
    ensures Whitelisted("npm", h) <==>
              || h in {"npmjs.org", "npmjs.com", "yarnpkg.com"} || HasSuffix(h, "registry.npmjs.org")
              || HasSuffix(h, ".npmjs.org") || HasSuffix(h, ".npmjs.com") || HasSuffix(h, ".yarnpkg.com")
  {
    hide *;
    NpmEntries(h);
    NpmMatches(h);
  }

  lemma PypiWhitelist(h: string)
    ensures Whitelisted("pypi", h) <==>
              || h == "pythonhosted.org" || HasSuffix(h, "pypi.org")
              || HasSuffix(h, ".pythonhosted.org") || HasSuffix(h, "files.pythonhosted.org")
  {
    var list := Whitelist("pypi");
    assert "npm"[0] != "pypi"[0];
    MatchPlain(h, list[0]);
    MatchDotted(h, list[1], "pypi.org");
    MatchDotted(h, list[2], "pythonhosted.org");
    MatchPlain(h, list[3]);
    if HasSuffix(h, ".pypi.org") { assert h[|h| - 9..][1..] == h[|h| - 8..]; }
    WhitelistedMatches("pypi", h);
    hide Match, HasSuffix, Whitelisted;
    assert Whitelisted("pypi", h) <==> Match(h, list[0]) || Match(h, list[1]) || Match(h, list[2]) || Match(h, list[3]);
  }

  lemma ForeignMeans(r: Rules, ecosystem: string, host: string)
    ensures UnknownDomain(r, ecosystem, host) <==> Foreign(r, ecosystem, host)
  {
    var cut := if |host| > 0 && host[|host| - 1] == '.' then host[..|host| - 1] else host;
    assert TrimSuffix(host, ".") == cut by {
      if |host| > 0 { assert host[|host| - 1..] == [host[|host| - 1]]; }
    }
    NpmWhitelist(r.lower(cut));
    PypiWhitelist(r.lower(cut));
    if ecosystem != "npm" && ecosystem != "pypi" { assert Whitelist(ecosystem) == []; }
  }

  lemma QuerySays(r: Rules, ecosystem: string, phase: string, q: string, s: Signal)
    ensures s in QuerySignals(r, ecosystem, phase)(q) <==> QueryIs(r, ecosystem, phase, q, s)
  {
    ForeignMeans(r, ecosystem, q);
    assert "resolves an unknown external domain" + " during " == "resolves an unknown external domain during ";
  }

  /** Membership in what is gathered, by membership in the list. */
  lemma GatheredIn<A>(items: seq<A>, f: A -> seq<Signal>, s: Signal)
    ensures s in Gather(items, f) <==> exists x :: x in items && s in f(x)
  {
    GatherIn(items, f, s);
    if x :| x in items && s in f(x) {
      var i :| 0 <= i < |items| && items[i] == x;
    }
  }

  lemma PhaseSays(r: Rules, ecosystem: string, p: Phase, w: set<string>, s: Signal)
    requires s.rule != DROP_AND_RUN
    ensures s in PhaseSignals(r, ecosystem, p, w) <==> PhaseReports(r, ecosystem, p, s)
  {
    GatheredIn(p.files, FileSignals(r, p.name), s);
    GatheredIn(p.commands, CommandSignals(r, p.name, w), s);
    GatheredIn(p.sockets, SocketSignals(r, p.name), s);
    GatheredIn(p.dns, RecordSignals(r, ecosystem, p.name), s);
    forall f ensures s in FileSignals(r, p.name)(f) <==> FileIs(r, p.name, f, s) { FileSays(r, p.name, f, s); }
    forall c ensures s in CommandSignals(r, p.name, w)(c) <==> CommandIs(r, p.name, c, s) { CommandSays(r, p.name, w, c, s); }
    forall k ensures s in SocketSignals(r, p.name)(k) <==> SocketIs(r, p.name, k, s) { SocketSays(r, p.name, k, s); }
    forall d ensures s in RecordSignals(r, ecosystem, p.name)(d) <==> exists q :: q in d && QueryIs(r, ecosystem, p.name, q, s) {
      RecordSays(r, ecosystem, p.name, d, s);
    }
  }

  lemma RecordSays(r: Rules, ecosystem: string, phase: string, d: seq<string>, s: Signal)
    ensures s in RecordSignals(r, ecosystem, phase)(d) <==> exists q :: q in d && QueryIs(r, ecosystem, phase, q, s)
  {
    GatheredIn(d, QuerySignals(r, ecosystem, phase), s);
    forall q ensures s in QuerySignals(r, ecosystem, phase)(q) <==> QueryIs(r, ecosystem, phase, q, s) {
      QuerySays(r, ecosystem, phase, q, s);
    }
  }

  lemma VisitedSays(r: Rules, ecosystem: string, phases: seq<Phase>, s: Signal)
    requires s.rule != DROP_AND_RUN
    ensures s in Visited(r, ecosystem, phases) <==> exists p :: p in phases && PhaseReports(r, ecosystem, p, s)
  {
    var stamped, f := Stamped(r, phases), StampedSignals(r, ecosystem);
    GatherIn(stamped, f, s);
    forall k: nat | k < |phases| ensures s in f(stamped[k]) <==> PhaseReports(r, ecosystem, phases[k], s) {
      StampedAt(r, ecosystem, phases, k);
      PhaseSays(r, ecosystem, phases[k], Written(r, phases[..k + 1]), s);
    }
    if p :| p in phases && PhaseReports(r, ecosystem, p, s) {
      var k: nat :| k < |phases| && phases[k] == p;
      assert s in f(stamped[k]);
    }
  }

  const AGGREGATE_RULES := {"data-destruction", "recon-burst", "dns-exfil", "exfil-chain"}

  lemma AggregatesSay(deleted: seq<string>, tools: set<string>, host: string, n: nat, chain: bool, s: Signal)
    requires s in Aggregates(deleted, tools, host, n, chain)
    ensures s.rule in AGGREGATE_RULES
  {
  }

  predicate AboutEvents(rule: string) {
    rule !in {"data-destruction", "recon-burst", "dns-exfil", "exfil-chain", "download-and-execute"}
  }

  lemma EventsAreVisited(r: Rules, recon: Recon, ecosystem: string, phases: seq<Phase>, host: string, n: nat, sigs: seq<Signal>, s: Signal)
    requires Yields(r, recon, ecosystem, phases, host, n, sigs) && AboutEvents(s.rule)
    ensures s in sigs <==> s in Visited(r, ecosystem, phases)
  {
    hide IsBusiest, Visited, Aggregates, Reads, Escapes, Deleted, ToolsSeen;
    var chain := Reads(r, phases) && Escapes(r, ecosystem, phases);
    var aggregates := Aggregates(Deleted(r, phases), ToolsSeen(recon, phases), host, n, chain);
    if s in aggregates { AggregatesSay(Deleted(r, phases), ToolsSeen(recon, phases), host, n, chain, s); }
  }

  /**
   Whatever the order of the visit, a signal of a rule about single events is reported exactly when some
   phase holds an event that is reported so.
  */
  lemma ReportedIff(r: Rules, recon: Recon, ecosystem: string, phases: seq<Phase>, host: string, n: nat, sigs: seq<Signal>, s: Signal)
    requires Yields(r, recon, ecosystem, phases, host, n, sigs) && AboutEvents(s.rule)
    ensures s in sigs <==> exists p :: p in phases && PhaseReports(r, ecosystem, p, s)
  {
    EventsAreVisited(r, recon, ecosystem, phases, host, n, sigs, s);
    hide PhaseReports, Yields;
    VisitedSays(r, ecosystem, phases, s);
  }

  // ---- rule by rule ----

  predicate FileGraded(r: Rules, f: FileOp, rule: string, severity: Severity) {
    || (f.read && r.sensitive(f.path).Some?
        && rule == "sensitive-read:" + r.sensitive(f.path).value.category && severity == r.sensitive(f.path).value.severity)
    || (f.write && r.write(f.path).Some? && rule == r.write(f.path).value.rule && severity == r.write(f.path).value.severity)
  }

  predicate CommandGraded(r: Rules, c: seq<string>, rule: string, severity: Severity) {
    r.command(c).Some? && rule == r.command(c).value.rule && severity == r.command(c).value.severity
  }

  predicate SocketGraded(r: Rules, k: Socket, rule: string, severity: Severity) {
    || (ToMetadata(k) && rule == "cloud-metadata-access" && severity == Critical)
    || (ToPool(k) && rule == "mining-pool-egress" && severity == High)
    || (ToBareAddress(r, k) && rule == "hardcoded-ip-egress" && severity == High)
  }

  predicate RecordGraded(r: Rules, ecosystem: string, d: seq<string>, rule: string, severity: Severity) {
    rule == "unknown-domain" && severity == High && exists q :: q in d && Foreign(r, ecosystem, q)
  }

  /** The phase holds an event that is graded so. */
  predicate PhaseGrades(r: Rules, ecosystem: string, p: Phase, rule: string, severity: Severity) {
    || (exists f :: f in p.files && FileGraded(r, f, rule, severity))
    || (exists c :: c in p.commands && CommandGraded(r, c, rule, severity))
    || (exists k :: k in p.sockets && SocketGraded(r, k, rule, severity))
    || (exists d :: d in p.dns && RecordGraded(r, ecosystem, d, rule, severity))
  }

  predicate IsGraded(s: Signal, rule: string, severity: Severity) { s.rule == rule && s.severity == severity }

  lemma FileGradedIff(r: Rules, phase: string, f: FileOp, rule: string, severity: Severity)
    ensures FileGraded(r, f, rule, severity) <==> exists s :: FileIs(r, phase, f, s) && IsGraded(s, rule, severity)
  {
    if FileGraded(r, f, rule, severity) {
      if f.read && r.sensitive(f.path).Some? && rule == "sensitive-read:" + r.sensitive(f.path).value.category
         && severity == r.sensitive(f.path).value.severity {
        var x := r.sensitive(f.path).value;
        assert FileIs(r, phase, f, Signal("behavior", rule, severity, "reads " + x.category + " during " + phase, f.path));
      } else {
        var x := r.write(f.path).value;
        assert FileIs(r, phase, f, Signal("behavior", rule, severity, x.description + " during " + phase, f.path));
      }
    }
  }

  lemma CommandGradedIff(r: Rules, phase: string, c: seq<string>, rule: string, severity: Severity)
    ensures CommandGraded(r, c, rule, severity) <==> exists s :: CommandIs(r, phase, c, s) && IsGraded(s, rule, severity)
  {
    if r.command(c).Some? {
      var x := r.command(c).value;
      assert CommandIs(r, phase, c, Signal("behavior", x.rule, x.severity, x.description + " during " + phase, Join(c, ' ')));
    }
  }

  lemma SocketGradedIff(r: Rules, phase: string, k: Socket, rule: string, severity: Severity)
    ensures SocketGraded(r, k, rule, severity) <==> exists s :: SocketIs(r, phase, k, s) && IsGraded(s, rule, severity)
  {
    hide ToMetadata, ToPool, ToBareAddress, MetadataSignal, PoolSignal, BareSignal;
    var a, b, c := MetadataSignal(phase, k), PoolSignal(phase, k), BareSignal(phase, k);
    assert ToMetadata(k) ==> SocketIs(r, phase, k, a);
    assert ToPool(k) ==> SocketIs(r, phase, k, b);
    assert ToBareAddress(r, k) ==> SocketIs(r, phase, k, c);
    assert IsGraded(a, "cloud-metadata-access", Critical) && IsGraded(b, "mining-pool-egress", High) && IsGraded(c, "hardcoded-ip-egress", High);
  }

  lemma RecordSignal(r: Rules, ecosystem: string, phase: string, d: seq<string>, rule: string, severity: Severity)
    returns (q: string, s: Signal)
    requires RecordGraded(r, ecosystem, d, rule, severity)
    ensures q in d && QueryIs(r, ecosystem, phase, q, s) && IsGraded(s, rule, severity)
  {
    q :| q in d && Foreign(r, ecosystem, q);
    s := Signal("behavior", "unknown-domain", High, "resolves an unknown external domain during " + phase, q);
  }

  lemma RecordOf(r: Rules, ecosystem: string, phase: string, d: seq<string>, q: string, s: Signal)
    requires q in d && QueryIs(r, ecosystem, phase, q, s)
    ensures RecordGraded(r, ecosystem, d, s.rule, s.severity)
  {
  }

  lemma GradedIsReported(r: Rules, ecosystem: string, p: Phase, rule: string, severity: Severity) returns (s: Signal)
    requires PhaseGrades(r, ecosystem, p, rule, severity)
    ensures PhaseReports(r, ecosystem, p, s) && IsGraded(s, rule, severity)
  {
    hide FileGraded, CommandGraded, SocketGraded, RecordGraded, FileIs, CommandIs, SocketIs, QueryIs;
    if f :| f in p.files && FileGraded(r, f, rule, severity) {
      FileGradedIff(r, p.name, f, rule, severity);
      s :| FileIs(r, p.name, f, s) && IsGraded(s, rule, severity);
    } else if c :| c in p.commands && CommandGraded(r, c, rule, severity) {
      CommandGradedIff(r, p.name, c, rule, severity);
      s :| CommandIs(r, p.name, c, s) && IsGraded(s, rule, severity);
    } else if k :| k in p.sockets && SocketGraded(r, k, rule, severity) {
      SocketGradedIff(r, p.name, k, rule, severity);
      s :| SocketIs(r, p.name, k, s) && IsGraded(s, rule, severity);
    } else {
      var d :| d in p.dns && RecordGraded(r, ecosystem, d, rule, severity);
      var q;
      q, s := RecordSignal(r, ecosystem, p.name, d, rule, severity);
    }
  }

  lemma ReportedIsGraded(r: Rules, ecosystem: string, p: Phase, s: Signal)
    requires PhaseReports(r, ecosystem, p, s)
    ensures PhaseGrades(r, ecosystem, p, s.rule, s.severity)
  {
    hide FileGraded, CommandGraded, SocketGraded, RecordGraded, FileIs, CommandIs, SocketIs, QueryIs;
    if f :| f in p.files && FileIs(r, p.name, f, s) {
      FileGradedIff(r, p.name, f, s.rule, s.severity);
    } else if c :| c in p.commands && CommandIs(r, p.name, c, s) {
      CommandGradedIff(r, p.name, c, s.rule, s.severity);
    } else if k :| k in p.sockets && SocketIs(r, p.name, k, s) {
      SocketGradedIff(r, p.name, k, s.rule, s.severity);
    } else {
      var d :| d in p.dns && exists q :: q in d && QueryIs(r, ecosystem, p.name, q, s);
      var q :| q in d && QueryIs(r, ecosystem, p.name, q, s);
      RecordOf(r, ecosystem, p.name, d, q, s);
    }
  }

  /** Some signal of the analysis has this rule and this severity. */
  ghost predicate Reported(sigs: seq<Signal>, rule: string, severity: Severity) {
    exists s :: s in sigs && IsGraded(s, rule, severity)
  }

  /** A rule about single events is reported at a severity exactly when some phase holds an event graded so. */
  lemma GradedIff(r: Rules, recon: Recon, ecosystem: string, phases: seq<Phase>, host: string, n: nat, sigs: seq<Signal>,
        rule: string, severity: Severity)
    requires Yields(r, recon, ecosystem, phases, host, n, sigs) && AboutEvents(rule)
    ensures Reported(sigs, rule, severity) <==> exists p :: p in phases && PhaseGrades(r, ecosystem, p, rule, severity)
  {
    hide PhaseReports, PhaseGrades, Yields, AboutEvents;
    if Reported(sigs, rule, severity) {
      var s :| s in sigs && IsGraded(s, rule, severity);
      ReportedIff(r, recon, ecosystem, phases, host, n, sigs, s);
      var p :| p in phases && PhaseReports(r, ecosystem, p, s);
      ReportedIsGraded(r, ecosystem, p, s);
    }
    if p :| p in phases && PhaseGrades(r, ecosystem, p, rule, severity) {
      var s := GradedIsReported(r, ecosystem, p, rule, severity);
      ReportedIff(r, recon, ecosystem, phases, host, n, sigs, s);
    }
  }

  const SOCKET_RULES := {"cloud-metadata-access", "mining-pool-egress", "hardcoded-ip-egress"}

  lemma SensitiveRule(category: string)
    ensures var rule := "sensitive-read:" + category;
            rule !in COMMAND_RULES && rule !in WRITE_RULES && rule !in SOCKET_RULES && rule != "unknown-domain" && AboutEvents(rule)
  {
    var rule := "sensitive-read:" + category;
    assert rule[0] == 's' && rule[..15] == "sensitive-read:";
  }

  /** Where the signals of a network rule can come from. */
  lemma NetworkGrades(r: Rules, ecosystem: string, p: Phase, rule: string, severity: Severity)
    requires NamesItsRules(r) && (rule in SOCKET_RULES || rule == "unknown-domain")
    ensures PhaseGrades(r, ecosystem, p, rule, severity) <==>
              || (rule == "mining-pool-egress" && exists c :: c in p.commands && CommandGraded(r, c, rule, severity))
              || (exists k :: k in p.sockets && SocketGraded(r, k, rule, severity))
              || (exists d :: d in p.dns && RecordGraded(r, ecosystem, d, rule, severity))
  {
    forall f ensures !FileGraded(r, f, rule, severity) {
      if r.sensitive(f.path).Some? { SensitiveRule(r.sensitive(f.path).value.category); }
    }
    forall c ensures CommandGraded(r, c, rule, severity) ==> rule == "mining-pool-egress" {
    }
  }

  /** Where the signals of a file rule can come from. */
  lemma FileGrades(r: Rules, ecosystem: string, p: Phase, rule: string, severity: Severity)
    requires NamesItsRules(r) && (rule in WRITE_RULES || exists category :: rule == "sensitive-read:" + category)
    ensures PhaseGrades(r, ecosystem, p, rule, severity) <==> exists f :: f in p.files && FileGraded(r, f, rule, severity)
    ensures AboutEvents(rule)
  {
    if category :| rule == "sensitive-read:" + category { SensitiveRule(category); }
    assert forall c :: !CommandGraded(r, c, rule, severity);
    assert forall k :: !SocketGraded(r, k, rule, severity);
    assert forall d :: !RecordGraded(r, ecosystem, d, rule, severity);
  }

  lemma SocketGrades(r: Rules, k: Socket, severity: Severity)
    ensures SocketGraded(r, k, "cloud-metadata-access", severity) <==> ToMetadata(k) && severity == Critical
    ensures SocketGraded(r, k, "mining-pool-egress", severity) <==> ToPool(k) && severity == High
    ensures SocketGraded(r, k, "hardcoded-ip-egress", severity) <==> ToBareAddress(r, k) && severity == High
  {
    hide ToMetadata, ToPool, ToBareAddress;
    assert "cloud-metadata-access"[0] == 'c' && "mining-pool-egress"[0] == 'm' && "hardcoded-ip-egress"[0] == 'h';
  }

  lemma NetworkIsAboutEvents(rule: string)
    requires rule in SOCKET_RULES || rule == "unknown-domain"
    ensures AboutEvents(rule)
  {
  }

  lemma NoRecordGraded(r: Rules, ecosystem: string, d: seq<string>, rule: string, severity: Severity)
    requires rule in SOCKET_RULES
    ensures !RecordGraded(r, ecosystem, d, rule, severity)
  {
  }

  // ---- the phases ----

  predicate ContactsMetadata(p: Phase) { exists k :: k in p.sockets && ToMetadata(k) }
  predicate ContactsPool(p: Phase) { exists k :: k in p.sockets && ToPool(k) }
  predicate ContactsBareAddress(r: Rules, p: Phase) { exists k :: k in p.sockets && ToBareAddress(r, k) }
  predicate AsksForeign(r: Rules, ecosystem: string, p: Phase) { exists d :: d in p.dns && exists q :: q in d && Foreign(r, ecosystem, q) }
  predicate RunsGraded(r: Rules, p: Phase, rule: string, severity: Severity) {
    exists c :: c in p.commands && r.command(c).Some? && r.command(c).value.rule == rule && r.command(c).value.severity == severity
  }
  predicate ReadsCategory(r: Rules, p: Phase, category: string, severity: Severity) {
    exists f :: f in p.files && f.read && r.sensitive(f.path) == Some(Sensitive(category, severity))
  }
  predicate WritesGraded(r: Rules, p: Phase, rule: string, severity: Severity) {
    exists f :: f in p.files && f.write && r.write(f.path).Some?
                && r.write(f.path).value.rule == rule && r.write(f.path).value.severity == severity
  }

  lemma MetadataPhase(r: Rules, ecosystem: string, p: Phase, severity: Severity)
    requires NamesItsRules(r)
    ensures PhaseGrades(r, ecosystem, p, "cloud-metadata-access", severity) <==> severity == Critical && ContactsMetadata(p)
  {
    NetworkGrades(r, ecosystem, p, "cloud-metadata-access", severity);
    OnlySockets(r, ecosystem, p, "cloud-metadata-access", severity);
    hide PhaseGrades, NamesItsRules, SocketGraded, RecordGraded, ToMetadata;
    forall k ensures SocketGraded(r, k, "cloud-metadata-access", severity) <==> ToMetadata(k) && severity == Critical {
      SocketGrades(r, k, severity);
    }
  }

  lemma BarePhase(r: Rules, ecosystem: string, p: Phase, severity: Severity)
    requires NamesItsRules(r)
    ensures PhaseGrades(r, ecosystem, p, "hardcoded-ip-egress", severity) <==> severity == High && ContactsBareAddress(r, p)
  {
    NetworkGrades(r, ecosystem, p, "hardcoded-ip-egress", severity);
    OnlySockets(r, ecosystem, p, "hardcoded-ip-egress", severity);
    hide PhaseGrades, NamesItsRules, SocketGraded, RecordGraded, ToBareAddress;
    forall k ensures SocketGraded(r, k, "hardcoded-ip-egress", severity) <==> ToBareAddress(r, k) && severity == High {
      SocketGrades(r, k, severity);
    }
  }

  lemma PoolPhase(r: Rules, ecosystem: string, p: Phase, severity: Severity)
    requires NamesItsRules(r)
    ensures PhaseGrades(r, ecosystem, p, "mining-pool-egress", severity)
            <==> (severity == High && ContactsPool(p)) || RunsGraded(r, p, "mining-pool-egress", severity)
  {
    NetworkGrades(r, ecosystem, p, "mining-pool-egress", severity);
    OnlySockets(r, ecosystem, p, "mining-pool-egress", severity);
    hide PhaseGrades, NamesItsRules, SocketGraded, RecordGraded, ToPool;
    forall k ensures SocketGraded(r, k, "mining-pool-egress", severity) <==> ToPool(k) && severity == High {
      SocketGrades(r, k, severity);
    }
  }

  lemma OnlySockets(r: Rules, ecosystem: string, p: Phase, rule: string, severity: Severity)
    requires rule in SOCKET_RULES
    ensures !exists d :: d in p.dns && RecordGraded(r, ecosystem, d, rule, severity)
  {
    forall d ensures !RecordGraded(r, ecosystem, d, rule, severity) { NoRecordGraded(r, ecosystem, d, rule, severity); }
  }

  lemma ForeignPhase(r: Rules, ecosystem: string, p: Phase, severity: Severity)
    requires NamesItsRules(r)
    ensures PhaseGrades(r, ecosystem, p, "unknown-domain", severity) <==> severity == High && AsksForeign(r, ecosystem, p)
  {
    NetworkGrades(r, ecosystem, p, "unknown-domain", severity);
    hide PhaseGrades, NamesItsRules, SocketGraded, Foreign;
    forall k ensures !SocketGraded(r, k, "unknown-domain", severity) { NoSocketGraded(r, k, "unknown-domain", severity); }
  }

  lemma NoSocketGraded(r: Rules, k: Socket, rule: string, severity: Severity)
    requires rule == "unknown-domain"
    ensures !SocketGraded(r, k, rule, severity)
  {
    assert rule[0] == 'u';
  }

  lemma ReadPhase(r: Rules, ecosystem: string, p: Phase, category: string, severity: Severity)
    requires NamesItsRules(r)
    ensures AboutEvents("sensitive-read:" + category)
    ensures PhaseGrades(r, ecosystem, p, "sensitive-read:" + category, severity) <==> ReadsCategory(r, p, category, severity)
  {
    FileGrades(r, ecosystem, p, "sensitive-read:" + category, severity);
    hide PhaseGrades, FileGraded;
    forall f
      ensures FileGraded(r, f, "sensitive-read:" + category, severity)
              <==> f.read && r.sensitive(f.path) == Some(Sensitive(category, severity)) {
      ReadGraded(r, f, category, severity);
    }
  }

  lemma ReadGraded(r: Rules, f: FileOp, category: string, severity: Severity)
    requires NamesItsRules(r)
    ensures FileGraded(r, f, "sensitive-read:" + category, severity)
            <==> f.read && r.sensitive(f.path) == Some(Sensitive(category, severity))
  {
    SensitiveRule(category);
    if r.sensitive(f.path).Some? {
      var other := r.sensitive(f.path).value.category;
      assert ("sensitive-read:" + category)[15..] == category && ("sensitive-read:" + other)[15..] == other;
    }
  }

  lemma WritePhase(r: Rules, ecosystem: string, p: Phase, rule: string, severity: Severity)
    requires NamesItsRules(r) && rule in WRITE_RULES
    ensures AboutEvents(rule)
    ensures PhaseGrades(r, ecosystem, p, rule, severity) <==> WritesGraded(r, p, rule, severity)
  {
    FileGrades(r, ecosystem, p, rule, severity);
    hide PhaseGrades;
    forall f | f in p.files
      ensures FileGraded(r, f, rule, severity) <==>
                f.write && r.write(f.path).Some? && r.write(f.path).value.rule == rule && r.write(f.path).value.severity == severity {
      if r.sensitive(f.path).Some? { SensitiveRule(r.sensitive(f.path).value.category); }
    }
  }

  // ---- the trace ----

  /** cloud-metadata-access: at critical, exactly for a contact with one of the two metadata addresses. */
  lemma MetadataIff(r: Rules, recon: Recon, ecosystem: string, phases: seq<Phase>, host: string, n: nat, sigs: seq<Signal>,
        severity: Severity)
    requires NamesItsRules(r) && Yields(r, recon, ecosystem, phases, host, n, sigs)
    ensures Reported(sigs, "cloud-metadata-access", severity) <==> severity == Critical && exists p :: p in phases && ContactsMetadata(p)
  {
    GradedIff(r, recon, ecosystem, phases, host, n, sigs, "cloud-metadata-access", severity);
    hide Yields, Reported, PhaseGrades, NamesItsRules, ContactsMetadata;
    forall p ensures PhaseGrades(r, ecosystem, p, "cloud-metadata-access", severity) <==> severity == Critical && ContactsMetadata(p) {
      MetadataPhase(r, ecosystem, p, severity);
    }
  }

  /**
   hardcoded-ip-egress: at high, exactly for a contact neither with these nor with a mining port, with a
   routable address that no name was resolved to.
  */
  lemma BareAddressIff(r: Rules, recon: Recon, ecosystem: string, phases: seq<Phase>, host: string, n: nat, sigs: seq<Signal>,
        severity: Severity)
    requires NamesItsRules(r) && Yields(r, recon, ecosystem, phases, host, n, sigs)
    ensures Reported(sigs, "hardcoded-ip-egress", severity) <==> severity == High && exists p :: p in phases && ContactsBareAddress(r, p)
  {
    GradedIff(r, recon, ecosystem, phases, host, n, sigs, "hardcoded-ip-egress", severity);
    hide Yields, Reported, PhaseGrades, NamesItsRules, ContactsBareAddress;
    forall p ensures PhaseGrades(r, ecosystem, p, "hardcoded-ip-egress", severity) <==> severity == High && ContactsBareAddress(r, p) {
      BarePhase(r, ecosystem, p, severity);
    }
  }

  /** mining-pool-egress: at high for a contact with a mining port, or as the command pattern grades it. */
  lemma MiningIff(r: Rules, recon: Recon, ecosystem: string, phases: seq<Phase>, host: string, n: nat, sigs: seq<Signal>,
        severity: Severity)
    requires NamesItsRules(r) && Yields(r, recon, ecosystem, phases, host, n, sigs)
    ensures Reported(sigs, "mining-pool-egress", severity)
            <==> exists p :: p in phases && ((severity == High && ContactsPool(p)) || RunsGraded(r, p, "mining-pool-egress", severity))
  {
    GradedIff(r, recon, ecosystem, phases, host, n, sigs, "mining-pool-egress", severity);
    hide Yields, Reported, PhaseGrades, NamesItsRules, ContactsPool, RunsGraded;
    forall p
      ensures PhaseGrades(r, ecosystem, p, "mining-pool-egress", severity)
              <==> (severity == High && ContactsPool(p)) || RunsGraded(r, p, "mining-pool-egress", severity) {
      PoolPhase(r, ecosystem, p, severity);
    }
  }

  /** unknown-domain: at high, exactly for a query outside the registries. */
  lemma UnknownDomainIff(r: Rules, recon: Recon, ecosystem: string, phases: seq<Phase>, host: string, n: nat, sigs: seq<Signal>,
        severity: Severity)
    requires NamesItsRules(r) && Yields(r, recon, ecosystem, phases, host, n, sigs)
    ensures Reported(sigs, "unknown-domain", severity) <==> severity == High && exists p :: p in phases && AsksForeign(r, ecosystem, p)
  {
    GradedIff(r, recon, ecosystem, phases, host, n, sigs, "unknown-domain", severity);
    hide Yields, Reported, PhaseGrades, NamesItsRules, AsksForeign;
    forall p ensures PhaseGrades(r, ecosystem, p, "unknown-domain", severity) <==> severity == High && AsksForeign(r, ecosystem, p) {
      ForeignPhase(r, ecosystem, p, severity);
    }
  }

  /** A read of a sensitive category: exactly for a file of it that was read, at its grade. */
  lemma SensitiveReadIff(r: Rules, recon: Recon, ecosystem: string, phases: seq<Phase>, host: string, n: nat, sigs: seq<Signal>,
        category: string, severity: Severity)
    requires NamesItsRules(r) && Yields(r, recon, ecosystem, phases, host, n, sigs)
    ensures Reported(sigs, "sensitive-read:" + category, severity) <==> exists p :: p in phases && ReadsCategory(r, p, category, severity)
  {
    SensitiveRule(category);
    GradedIff(r, recon, ecosystem, phases, host, n, sigs, "sensitive-read:" + category, severity);
    hide Yields, Reported, PhaseGrades, NamesItsRules, ReadsCategory;
    forall p ensures PhaseGrades(r, ecosystem, p, "sensitive-read:" + category, severity) <==> ReadsCategory(r, p, category, severity) {
      ReadPhase(r, ecosystem, p, category, severity);
    }
  }

  /** persistence-write and binary-overwrite: exactly for a file written that the pattern grades so. */
  lemma WriteIff(r: Rules, recon: Recon, ecosystem: string, phases: seq<Phase>, host: string, n: nat, sigs: seq<Signal>,
        rule: string, severity: Severity)
    requires NamesItsRules(r) && Yields(r, recon, ecosystem, phases, host, n, sigs) && rule in {"persistence-write", "binary-overwrite"}
    ensures Reported(sigs, rule, severity) <==> exists p :: p in phases && WritesGraded(r, p, rule, severity)
  {
    WritePhase(r, ecosystem, Phase("", [], [], [], []), rule, severity);
    GradedIff(r, recon, ecosystem, phases, host, n, sigs, rule, severity);
    hide Yields, Reported, PhaseGrades, NamesItsRules, WritesGraded;
    forall p ensures PhaseGrades(r, ecosystem, p, rule, severity) <==> WritesGraded(r, p, rule, severity) {
      WritePhase(r, ecosystem, p, rule, severity);
    }
  }
}
