/** What the behavioural analysis promises, for every order in which the phases may be visited. */
module BehaviorLaws {
  import opened Verdicts
  import opened Text
  import opened Seqs
  import opened Gathering
  import opened Behavior
  import opened BehaviorAnalysis

  // ---- order independence ----

  /** The kind of a signal; the two rules that may depend on the runtime's choices have none. */
  function KindOf(): Signal -> seq<(string, Severity)> {
    (s: Signal) => if s.rule == DROP_AND_RUN || s.rule == "recon-burst" then [] else [(s.rule, s.severity)]
  }

  function Kinds(sigs: seq<Signal>): seq<(string, Severity)> { Gather(sigs, KindOf()) }

  lemma KindsJoin(a: seq<Signal>, b: seq<Signal>)
    ensures Kinds(a + b) == Kinds(a) + Kinds(b)
  {
    GatherJoin(a, b, KindOf());
  }

  lemma KindsJoinFour(a: seq<Signal>, b: seq<Signal>, c: seq<Signal>, d: seq<Signal>)
    ensures Kinds(a + b + c + d) == Kinds(a) + Kinds(b) + Kinds(c) + Kinds(d)
  {
    KindsJoin(a + b + c, d);
    KindsJoin(a + b, c);
    KindsJoin(a, b);
  }

  function PhaseKinds(r: Rules, ecosystem: string): Phase -> seq<(string, Severity)> {
    (p: Phase) => Kinds(PhaseSignals(r, ecosystem, p, {}))
  }

  lemma CommandKinds(r: Rules, phase: string, w: set<string>, c: seq<string>)
    ensures Kinds(CommandSignals(r, phase, w)(c)) == Kinds(CommandSignals(r, phase, {})(c))
  {
    var d: seq<Signal> := if r.command(c).Some? then
      [Behaviour(r.command(c).value.rule, r.command(c).value.severity, r.command(c).value.description, phase, Join(c, ' '))] else [];
    KindsOfDrop(r, phase, w, c, d);
    KindsOfDrop(r, phase, {}, c, d);
  }

  lemma KindsOfDrop(r: Rules, phase: string, w: set<string>, c: seq<string>, d: seq<Signal>)
    requires d == if r.command(c).Some? then
      [Behaviour(r.command(c).value.rule, r.command(c).value.severity, r.command(c).value.description, phase, Join(c, ' '))] else []
    ensures Kinds(CommandSignals(r, phase, w)(c)) == Kinds(d)
  {
    var all := CommandSignals(r, phase, w)(c);
    if Spawned(c, w).Some? {
      var e := Behaviour(DROP_AND_RUN, Critical, "executes a file it dropped", phase, Spawned(c, w).value);
      assert all == d + [e];
      KindsJoin(d, [e]);
      GatherOne(e, KindOf());
    } else {
      assert all == d;
    }
  }

  lemma {:induction false} CommandsKinds(r: Rules, phase: string, w: set<string>, commands: seq<seq<string>>)
    ensures Kinds(Gather(commands, CommandSignals(r, phase, w))) == Kinds(Gather(commands, CommandSignals(r, phase, {})))
    decreases |commands|
  {
    if commands != [] {
      var n := |commands| - 1;
      CommandsKinds(r, phase, w, commands[..n]);
      CommandKinds(r, phase, w, commands[n]);
      KindsJoin(Gather(commands[..n], CommandSignals(r, phase, w)), CommandSignals(r, phase, w)(commands[n]));
      KindsJoin(Gather(commands[..n], CommandSignals(r, phase, {})), CommandSignals(r, phase, {})(commands[n]));
    }
  }

  lemma PhaseKindsAnyHistory(r: Rules, ecosystem: string, p: Phase, w: set<string>)
    ensures Kinds(PhaseSignals(r, ecosystem, p, w)) == PhaseKinds(r, ecosystem)(p)
  {
    FourParts(r, ecosystem, p, w);
    FourParts(r, ecosystem, p, {});
    CommandsKinds(r, p.name, w, p.commands);
  }

  lemma FourParts(r: Rules, ecosystem: string, p: Phase, w: set<string>)
    ensures Kinds(PhaseSignals(r, ecosystem, p, w)) ==
              Kinds(Gather(p.files, FileSignals(r, p.name))) + Kinds(Gather(p.commands, CommandSignals(r, p.name, w)))
              + Kinds(Gather(p.sockets, SocketSignals(r, p.name))) + Kinds(Gather(p.dns, RecordSignals(r, ecosystem, p.name)))
  {
    KindsJoinFour(Gather(p.files, FileSignals(r, p.name)), Gather(p.commands, CommandSignals(r, p.name, w)),
                  Gather(p.sockets, SocketSignals(r, p.name)), Gather(p.dns, RecordSignals(r, ecosystem, p.name)));
  }

  lemma {:induction false} VisitedKinds(r: Rules, ecosystem: string, phases: seq<Phase>, n: nat)
    requires n <= |phases|
    ensures Kinds(Visited(r, ecosystem, phases[..n])) == Gather(phases[..n], PhaseKinds(r, ecosystem))
  {
    if n > 0 {
      var w := Written(r, phases[..n]);
      VisitedKinds(r, ecosystem, phases, n - 1);
      VisitedStep(r, ecosystem, phases, n - 1);
      GatherStep(phases, n - 1, PhaseKinds(r, ecosystem));
      PhaseKindsAnyHistory(r, ecosystem, phases[n - 1], w);
      KindsJoin(Visited(r, ecosystem, phases[..n - 1]), PhaseSignals(r, ecosystem, phases[n - 1], w));
    }
  }

  /** The aggregate kinds in terms of what triggers them. */
  function AggregateKinds(many: bool, busy: bool, chain: bool): seq<(string, Severity)> {
    (if many then [("data-destruction", Critical)] else [])
    + (if busy then [("dns-exfil", High)] else [])
    + (if chain then [("exfil-chain", Critical)] else [])
  }

  lemma WhenKinds(b: bool, s: Signal)
    ensures Kinds(When(b, s)) == if b then KindOf()(s) else []
  {
    if b { GatherOne(s, KindOf()); }
  }

  lemma AggregatesKinds(deleted: seq<string>, tools: set<string>, host: string, n: nat, chain: bool)
    ensures Kinds(Aggregates(deleted, tools, host, n, chain)) ==
              AggregateKinds(|deleted| >= DESTRUCTION_THRESHOLD, n >= DNS_EXFIL_THRESHOLD, chain)
  {
    AggregatesKindsOneByOne(deleted, tools, host, n, chain);
    KindsJoinFour(When(|deleted| >= DESTRUCTION_THRESHOLD, Destruction(deleted)), When(|tools| >= RECON_BURST_THRESHOLD, ReconBurst(|tools|)),
                  When(n >= DNS_EXFIL_THRESHOLD, DnsExfil(host, n)), When(chain, EXFIL_CHAIN));
    var x: seq<(string, Severity)> := if |deleted| >= DESTRUCTION_THRESHOLD then [("data-destruction", Critical)] else [];
    assert x + [] == x;
  }

  lemma AggregatesKindsOneByOne(deleted: seq<string>, tools: set<string>, host: string, n: nat, chain: bool)
    ensures Kinds(When(|deleted| >= DESTRUCTION_THRESHOLD, Destruction(deleted)))
         == if |deleted| >= DESTRUCTION_THRESHOLD then [("data-destruction", Critical)] else []
    ensures Kinds(When(|tools| >= RECON_BURST_THRESHOLD, ReconBurst(|tools|))) == []
    ensures Kinds(When(n >= DNS_EXFIL_THRESHOLD, DnsExfil(host, n))) == if n >= DNS_EXFIL_THRESHOLD then [("dns-exfil", High)] else []
    ensures Kinds(When(chain, EXFIL_CHAIN)) == if chain then [("exfil-chain", Critical)] else []
  {
    WhenKinds(|deleted| >= DESTRUCTION_THRESHOLD, Destruction(deleted));
    WhenKinds(|tools| >= RECON_BURST_THRESHOLD, ReconBurst(|tools|));
    WhenKinds(n >= DNS_EXFIL_THRESHOLD, DnsExfil(host, n));
    WhenKinds(chain, EXFIL_CHAIN);
  }

  lemma SameReads(r: Rules, a: seq<Phase>, b: seq<Phase>)
    requires multiset(a) == multiset(b) && Reads(r, a)
    ensures Reads(r, b)
  {
    var i :| 0 <= i < |a| && PhaseReads(r, a[i]);
    assert a[i] in multiset(b);
    var j :| 0 <= j < |b| && b[j] == a[i];
  }

  lemma VisitedKindsPermute(r: Rules, ecosystem: string, a: seq<Phase>, b: seq<Phase>)
    requires multiset(a) == multiset(b)
    ensures multiset(Kinds(Visited(r, ecosystem, a))) == multiset(Kinds(Visited(r, ecosystem, b)))
  {
    VisitedKinds(r, ecosystem, a, |a|);
    VisitedKinds(r, ecosystem, b, |b|);
    assert a[..|a|] == a && b[..|b|] == b;
    GatherPermutes(a, b, PhaseKinds(r, ecosystem));
  }

  /** What triggers the aggregates does not depend on the order. */
  lemma SameTriggers(r: Rules, ecosystem: string, a: seq<Phase>, b: seq<Phase>, n: nat, n2: nat)
    requires multiset(a) == multiset(b)
    requires IsBusiest(r, ecosystem, a, n) && IsBusiest(r, ecosystem, b, n2)
    ensures n == n2 && |Deleted(r, a)| == |Deleted(r, b)|
    ensures Reads(r, a) && Escapes(r, ecosystem, a) <==> Reads(r, b) && Escapes(r, ecosystem, b)
  {
    SameParents(r, ecosystem, a, b);
    BusiestIsUnique(r, ecosystem, a, b, n, n2);
    SameEscapes(r, ecosystem, a, b);
    if Reads(r, a) { SameReads(r, a, b); }
    if Reads(r, b) { SameReads(r, b, a); }
    GatherPermutes(a, b, PhaseDeletions(r));
    SameLength(Deleted(r, a), Deleted(r, b));
  }

  lemma KindsOfYield(r: Rules, recon: Recon, ecosystem: string, phases: seq<Phase>, host: string, n: nat,
        sigs: seq<Signal>)
    requires Yields(r, recon, ecosystem, phases, host, n, sigs)
    ensures Kinds(sigs) == Kinds(Visited(r, ecosystem, phases))
              + AggregateKinds(|Deleted(r, phases)| >= DESTRUCTION_THRESHOLD, n >= DNS_EXFIL_THRESHOLD,
                               Reads(r, phases) && Escapes(r, ecosystem, phases))
  {
    var chain := Reads(r, phases) && Escapes(r, ecosystem, phases);
    var out := Aggregates(Deleted(r, phases), ToolsSeen(recon, phases), host, n, chain);
    AggregatesKinds(Deleted(r, phases), ToolsSeen(recon, phases), host, n, chain);
    KindsJoin(Visited(r, ecosystem, phases), out);
  }

  /**
   Two analyses of one trace, whatever orders and tool names the runtime chose, give the same
   multiset of rule and severity, apart from download-and-execute and recon-burst.
  */
  lemma OrderDoesNotShow(r: Rules, recon: Recon, recon2: Recon, ecosystem: string, a: seq<Phase>, b: seq<Phase>,
      host: string, n: nat, host2: string, n2: nat, sigs: seq<Signal>, sigs2: seq<Signal>)
    requires multiset(a) == multiset(b)
    requires Yields(r, recon, ecosystem, a, host, n, sigs) && Yields(r, recon2, ecosystem, b, host2, n2, sigs2)
    ensures multiset(Kinds(sigs)) == multiset(Kinds(sigs2))
  {
    SameTriggers(r, ecosystem, a, b, n, n2);
    VisitedKindsPermute(r, ecosystem, a, b);
    KindsOfYield(r, recon, ecosystem, a, host, n, sigs);
    KindsOfYield(r, recon2, ecosystem, b, host2, n2, sigs2);
  }

  lemma BusiestIsUnique(r: Rules, ecosystem: string, a: seq<Phase>, b: seq<Phase>, n: nat, n2: nat)
    requires multiset(Parents(r, ecosystem, a)) == multiset(Parents(r, ecosystem, b))
    requires IsBusiest(r, ecosystem, a, n) && IsBusiest(r, ecosystem, b, n2)
    ensures n == n2
  {
  }

  // ---- when each aggregate fires ----

  predicate HasRule(sigs: seq<Signal>, rule: string) { exists i :: 0 <= i < |sigs| && sigs[i].rule == rule }

  const COMMAND_RULES := {"process-spawn", "reverse-shell", "data-destruction", "mining-pool-egress"}
  const WRITE_RULES := {"persistence-write", "binary-overwrite"}

  /** The rules classifyCommand and classifyWrite can name. */
  ghost predicate NamesItsRules(r: Rules) {
    && (forall c :: r.command(c).Some? ==> r.command(c).value.rule in COMMAND_RULES)
    && (forall p :: r.write(p).Some? ==> r.write(p).value.rule in WRITE_RULES)
  }

  predicate ItemRule(rule: string) {
    || rule in COMMAND_RULES || rule in WRITE_RULES || HasPrefix(rule, "sensitive-read:")
    || rule in {DROP_AND_RUN, "cloud-metadata-access", "hardcoded-ip-egress", "unknown-domain"}
  }

  lemma ItemRulesAreNotAggregates(rule: string)
    requires ItemRule(rule)
    ensures rule !in {"exfil-chain", "dns-exfil", "recon-burst"}
  {
    if HasPrefix(rule, "sensitive-read:") { assert rule[0] == "sensitive-read:"[0]; }
  }

  lemma {:induction false} ItemRules<A>(items: seq<A>, f: A -> seq<Signal>, s: Signal)
    requires forall x, t :: t in f(x) ==> ItemRule(t.rule)
    requires s in Gather(items, f)
    ensures ItemRule(s.rule)
  {
    GatherIn(items, f, s);
  }

  lemma FileRules(r: Rules, phase: string)
    requires NamesItsRules(r)
    ensures forall f, t :: t in FileSignals(r, phase)(f) ==> ItemRule(t.rule)
  {
    forall f, t | t in FileSignals(r, phase)(f) ensures ItemRule(t.rule) {
      if t.rule !in WRITE_RULES {
        assert t.rule == "sensitive-read:" + r.sensitive(f.path).value.category;
        assert t.rule[..15] == "sensitive-read:";
      }
    }
  }

  lemma CommandRules(r: Rules, phase: string, w: set<string>)
    requires NamesItsRules(r)
    ensures forall c, t :: t in CommandSignals(r, phase, w)(c) ==> ItemRule(t.rule)
  {
  }

  lemma SocketRule(r: Rules, phase: string, s: Socket, t: Signal)
    requires t in SocketSignals(r, phase)(s)
    ensures ItemRule(t.rule)
  {
  }

  lemma NetworkRules(r: Rules, ecosystem: string, phase: string)
    ensures forall s, t :: t in SocketSignals(r, phase)(s) ==> ItemRule(t.rule)
    ensures forall d, t :: t in RecordSignals(r, ecosystem, phase)(d) ==> ItemRule(t.rule)
  {
    forall s, t | t in SocketSignals(r, phase)(s) ensures ItemRule(t.rule) {
      SocketRule(r, phase, s, t);
    }
    forall d, t | t in RecordSignals(r, ecosystem, phase)(d) ensures ItemRule(t.rule) {
      ItemRules(d, QuerySignals(r, ecosystem, phase), t);
    }
  }

  lemma PhaseRules(r: Rules, ecosystem: string, p: Phase, w: set<string>, s: Signal)
    requires NamesItsRules(r) && s in PhaseSignals(r, ecosystem, p, w)
    ensures ItemRule(s.rule)
  {
    if s in Gather(p.files, FileSignals(r, p.name)) {
      FileRules(r, p.name);
      ItemRules(p.files, FileSignals(r, p.name), s);
    } else if s in Gather(p.commands, CommandSignals(r, p.name, w)) {
      CommandRules(r, p.name, w);
      ItemRules(p.commands, CommandSignals(r, p.name, w), s);
    } else {
      NetworkRules(r, ecosystem, p.name);
      if s in Gather(p.sockets, SocketSignals(r, p.name)) {
        ItemRules(p.sockets, SocketSignals(r, p.name), s);
      } else {
        ItemRules(p.dns, RecordSignals(r, ecosystem, p.name), s);
      }
    }
  }

  lemma VisitedRules(r: Rules, ecosystem: string, phases: seq<Phase>, s: Signal)
    requires NamesItsRules(r) && s in Visited(r, ecosystem, phases)
    ensures ItemRule(s.rule)
  {
    var stamped, f := Stamped(r, phases), StampedSignals(r, ecosystem);
    GatherIn(stamped, f, s);
    var k :| 0 <= k < |stamped| && s in f(stamped[k]);
    StampedAt(r, ecosystem, phases, k);
    PhaseRules(r, ecosystem, phases[k], Written(r, phases[..k + 1]), s);
  }

  lemma HasRuleJoin(a: seq<Signal>, b: seq<Signal>, rule: string)
    ensures HasRule(a + b, rule) <==> HasRule(a, rule) || HasRule(b, rule)
  {
    var t := a + b;
    if i :| 0 <= i < |a| && a[i].rule == rule { assert t[i].rule == rule; }
    if i :| 0 <= i < |b| && b[i].rule == rule { assert t[|a| + i].rule == rule; }
  }

  /**
   exfil-chain fires exactly when some file read anywhere is of credential material and some contact
   anywhere is with an unknown destination; dns-exfil exactly when some parent domain received at
   least three encoded-looking queries.
  */
  lemma AggregatesFireIff(r: Rules, recon: Recon, ecosystem: string, phases: seq<Phase>, host: string, n: nat,
        sigs: seq<Signal>)
    requires NamesItsRules(r) && Yields(r, recon, ecosystem, phases, host, n, sigs)
    ensures HasRule(sigs, "exfil-chain") <==> Reads(r, phases) && Escapes(r, ecosystem, phases)
    ensures HasRule(sigs, "dns-exfil") <==> exists p :: multiset(Parents(r, ecosystem, phases))[p] >= 3
  {
    var items := Visited(r, ecosystem, phases);
    var chain := Reads(r, phases) && Escapes(r, ecosystem, phases);
    var aggregates := Aggregates(Deleted(r, phases), ToolsSeen(recon, phases), host, n, chain);
    forall i | 0 <= i < |items| ensures items[i].rule !in {"exfil-chain", "dns-exfil"} {
      VisitedRules(r, ecosystem, phases, items[i]);
      ItemRulesAreNotAggregates(items[i].rule);
    }
    HasRuleJoin(items, aggregates, "exfil-chain");
    HasRuleJoin(items, aggregates, "dns-exfil");
    AggregateHasRule(Deleted(r, phases), ToolsSeen(recon, phases), host, n, chain, "exfil-chain");
    AggregateHasRule(Deleted(r, phases), ToolsSeen(recon, phases), host, n, chain, "dns-exfil");
  }

  lemma WhenHasRule(b: bool, s: Signal, rule: string)
    ensures HasRule(When(b, s), rule) <==> b && s.rule == rule
  {
    if b { assert When(b, s)[0] == s; }
  }

  lemma HasRuleJoinFour(a: seq<Signal>, b: seq<Signal>, c: seq<Signal>, d: seq<Signal>, rule: string)
    ensures HasRule(a + b + c + d, rule) <==> HasRule(a, rule) || HasRule(b, rule) || HasRule(c, rule) || HasRule(d, rule)
  {
    HasRuleJoin(a + b + c, d, rule);
    HasRuleJoin(a + b, c, rule);
    HasRuleJoin(a, b, rule);
  }

  lemma AggregateHasRule(deleted: seq<string>, tools: set<string>, host: string, n: nat, chain: bool, rule: string)
    ensures HasRule(Aggregates(deleted, tools, host, n, chain), rule)
            <==> || (|deleted| >= DESTRUCTION_THRESHOLD && rule == "data-destruction")
                 || (|tools| >= RECON_BURST_THRESHOLD && rule == "recon-burst")
                 || (n >= DNS_EXFIL_THRESHOLD && rule == "dns-exfil")
                 || (chain && rule == "exfil-chain")
  {
    HasRuleJoinFour(When(|deleted| >= DESTRUCTION_THRESHOLD, Destruction(deleted)), When(|tools| >= RECON_BURST_THRESHOLD, ReconBurst(|tools|)),
                    When(n >= DNS_EXFIL_THRESHOLD, DnsExfil(host, n)), When(chain, EXFIL_CHAIN), rule);
    WhenHasRule(|deleted| >= DESTRUCTION_THRESHOLD, Destruction(deleted), rule);
    WhenHasRule(|tools| >= RECON_BURST_THRESHOLD, ReconBurst(|tools|), rule);
    WhenHasRule(n >= DNS_EXFIL_THRESHOLD, DnsExfil(host, n), rule);
    WhenHasRule(chain, EXFIL_CHAIN, rule);
  }

  // ---- destruction, and drop-and-run ----

  predicate SomeCommand(r: Rules, p: Phase, rule: string) {
    exists i :: 0 <= i < |p.commands| && r.command(p.commands[i]).Some? && r.command(p.commands[i]).value.rule == rule
  }

  predicate RunsDropped(p: Phase, w: set<string>) {
    exists i :: 0 <= i < |p.commands| && Spawned(p.commands[i], w).Some?
  }

  /** A rule that only commands can name fires in a phase exactly when one of its commands does. */
  lemma PhaseHasRule(r: Rules, ecosystem: string, p: Phase, w: set<string>)
    requires NamesItsRules(r)
    ensures HasRule(PhaseSignals(r, ecosystem, p, w), "data-destruction") <==> SomeCommand(r, p, "data-destruction")
    ensures HasRule(PhaseSignals(r, ecosystem, p, w), DROP_AND_RUN) <==> RunsDropped(p, w)
  {
    var a, b := Gather(p.files, FileSignals(r, p.name)), Gather(p.commands, CommandSignals(r, p.name, w));
    var c, d := Gather(p.sockets, SocketSignals(r, p.name)), Gather(p.dns, RecordSignals(r, ecosystem, p.name));
    forall rule | rule in {"data-destruction", DROP_AND_RUN}
      ensures HasRule(a + b + c + d, rule) <==> HasRule(b, rule) {
      HasRuleJoinFour(a, b, c, d, rule);
      NotFromFiles(r, p.name, p.files, rule);
      NotFromNetwork(r, ecosystem, p, rule);
    }
    FromCommands(r, p, w);
  }

  /** Membership in what is gathered, by rule. */
  lemma GatherHasRule<A>(items: seq<A>, f: A -> seq<Signal>, rule: string)
    ensures HasRule(Gather(items, f), rule) <==> exists i :: 0 <= i < |items| && HasRule(f(items[i]), rule)
  {
    var all := Gather(items, f);
    if k :| 0 <= k < |all| && all[k].rule == rule {
      GatherIn(items, f, all[k]);
      var i :| 0 <= i < |items| && all[k] in f(items[i]);
      assert HasRule(f(items[i]), rule);
    }
    if i :| 0 <= i < |items| && HasRule(f(items[i]), rule) {
      var k :| 0 <= k < |f(items[i])| && f(items[i])[k].rule == rule;
      GatherIn(items, f, f(items[i])[k]);
      assert f(items[i])[k] in all;
    }
  }

  lemma NotFromFiles(r: Rules, phase: string, files: seq<FileOp>, rule: string)
    requires NamesItsRules(r) && rule in {"data-destruction", DROP_AND_RUN}
    ensures !HasRule(Gather(files, FileSignals(r, phase)), rule)
  {
    GatherHasRule(files, FileSignals(r, phase), rule);
    forall i | 0 <= i < |files| ensures !HasRule(FileSignals(r, phase)(files[i]), rule) {
      var f := files[i];
      if r.sensitive(f.path).Some? { assert ("sensitive-read:" + r.sensitive(f.path).value.category)[0] == 's'; }
    }
  }

  lemma NotFromSocket(r: Rules, phase: string, s: Socket, rule: string)
    requires rule in {"data-destruction", DROP_AND_RUN}
    ensures !HasRule(SocketSignals(r, phase)(s), rule)
  {
  }

  lemma NotFromRecord(r: Rules, ecosystem: string, phase: string, d: seq<string>, rule: string)
    requires rule in {"data-destruction", DROP_AND_RUN}
    ensures !HasRule(RecordSignals(r, ecosystem, phase)(d), rule)
  {
    GatherHasRule(d, QuerySignals(r, ecosystem, phase), rule);
  }

  lemma NotFromNetwork(r: Rules, ecosystem: string, p: Phase, rule: string)
    requires rule in {"data-destruction", DROP_AND_RUN}
    ensures !HasRule(Gather(p.sockets, SocketSignals(r, p.name)), rule)
    ensures !HasRule(Gather(p.dns, RecordSignals(r, ecosystem, p.name)), rule)
  {
    GatherHasRule(p.sockets, SocketSignals(r, p.name), rule);
    GatherHasRule(p.dns, RecordSignals(r, ecosystem, p.name), rule);
    forall i | 0 <= i < |p.sockets| ensures !HasRule(SocketSignals(r, p.name)(p.sockets[i]), rule) {
      NotFromSocket(r, p.name, p.sockets[i], rule);
    }
    forall i | 0 <= i < |p.dns| ensures !HasRule(RecordSignals(r, ecosystem, p.name)(p.dns[i]), rule) {
      NotFromRecord(r, ecosystem, p.name, p.dns[i], rule);
    }
  }

  lemma FromCommands(r: Rules, p: Phase, w: set<string>)
    requires NamesItsRules(r)
    ensures HasRule(Gather(p.commands, CommandSignals(r, p.name, w)), "data-destruction") <==> SomeCommand(r, p, "data-destruction")
    ensures HasRule(Gather(p.commands, CommandSignals(r, p.name, w)), DROP_AND_RUN) <==> RunsDropped(p, w)
  {
    GatherHasRule(p.commands, CommandSignals(r, p.name, w), "data-destruction");
    GatherHasRule(p.commands, CommandSignals(r, p.name, w), DROP_AND_RUN);
    forall i | 0 <= i < |p.commands|
      ensures HasRule(CommandSignals(r, p.name, w)(p.commands[i]), "data-destruction")
              <==> r.command(p.commands[i]).Some? && r.command(p.commands[i]).value.rule == "data-destruction"
      ensures HasRule(CommandSignals(r, p.name, w)(p.commands[i]), DROP_AND_RUN) <==> Spawned(p.commands[i], w).Some?
    {
      OneCommand(r, p.name, w, p.commands[i]);
    }
  }

  lemma OneCommand(r: Rules, phase: string, w: set<string>, c: seq<string>)
    requires NamesItsRules(r)
    ensures HasRule(CommandSignals(r, phase, w)(c), "data-destruction")
            <==> r.command(c).Some? && r.command(c).value.rule == "data-destruction"
    ensures HasRule(CommandSignals(r, phase, w)(c), DROP_AND_RUN) <==> Spawned(c, w).Some?
  {
    var sigs := CommandSignals(r, phase, w)(c);
    if r.command(c).Some? { assert sigs[0].rule == r.command(c).value.rule; }
    if Spawned(c, w).Some? { assert sigs[|sigs| - 1].rule == DROP_AND_RUN; }
  }

  /** The k-th phase of the visit brings a signal of this rule. */
  predicate BringsRule(r: Rules, ecosystem: string, phases: seq<Phase>, k: nat, rule: string)
    requires k < |phases|
  {
    HasRule(PhaseSignals(r, ecosystem, phases[k], Written(r, phases[..k + 1])), rule)
  }

  lemma BroughtBy(r: Rules, ecosystem: string, phases: seq<Phase>, rule: string) returns (k: nat)
    requires HasRule(Visited(r, ecosystem, phases), rule)
    ensures k < |phases| && BringsRule(r, ecosystem, phases, k, rule)
  {
    var stamped, f := Stamped(r, phases), StampedSignals(r, ecosystem);
    GatherHasRule(stamped, f, rule);
    k :| 0 <= k < |stamped| && HasRule(f(stamped[k]), rule);
    StampedAt(r, ecosystem, phases, k);
  }

  lemma Brings(r: Rules, ecosystem: string, phases: seq<Phase>, rule: string, k: nat)
    requires k < |phases| && BringsRule(r, ecosystem, phases, k, rule)
    ensures HasRule(Visited(r, ecosystem, phases), rule)
  {
    var stamped, f := Stamped(r, phases), StampedSignals(r, ecosystem);
    StampedAt(r, ecosystem, phases, k);
    assert HasRule(f(stamped[k]), rule);
    GatherHasRule(stamped, f, rule);
  }

  lemma VisitedHasRule(r: Rules, ecosystem: string, phases: seq<Phase>, rule: string)
    ensures HasRule(Visited(r, ecosystem, phases), rule)
            <==> exists k :: 0 <= k < |phases| && BringsRule(r, ecosystem, phases, k, rule)
  {
    if HasRule(Visited(r, ecosystem, phases), rule) {
      var k := BroughtBy(r, ecosystem, phases, rule);
    }
    if k :| 0 <= k < |phases| && BringsRule(r, ecosystem, phases, k, rule) {
      Brings(r, ecosystem, phases, rule, k);
    }
  }

  lemma YieldsRule(r: Rules, recon: Recon, ecosystem: string, phases: seq<Phase>, host: string, n: nat,
        sigs: seq<Signal>, rule: string)
    requires Yields(r, recon, ecosystem, phases, host, n, sigs) && rule in {"data-destruction", DROP_AND_RUN}
    ensures HasRule(sigs, rule)
            <==> (rule == "data-destruction" && |Deleted(r, phases)| >= DESTRUCTION_THRESHOLD)
                 || exists k :: 0 <= k < |phases| && BringsRule(r, ecosystem, phases, k, rule)
  {
    var chain := Reads(r, phases) && Escapes(r, ecosystem, phases);
    var tools := ToolsSeen(recon, phases);
    HasRuleJoin(Visited(r, ecosystem, phases), Aggregates(Deleted(r, phases), tools, host, n, chain), rule);
    VisitedHasRule(r, ecosystem, phases, rule);
    AggregateHasRule(Deleted(r, phases), tools, host, n, chain, rule);
  }

  /**
   data-destruction fires exactly when a command is destructive or at least 25 files were deleted,
   over all phases.
  */
  lemma DestructionIff(r: Rules, recon: Recon, ecosystem: string, phases: seq<Phase>, host: string, n: nat,
        sigs: seq<Signal>)
    requires NamesItsRules(r) && Yields(r, recon, ecosystem, phases, host, n, sigs)
    ensures HasRule(sigs, "data-destruction")
            <==> |Deleted(r, phases)| >= 25
                 || exists k :: 0 <= k < |phases| && SomeCommand(r, phases[k], "data-destruction")
  {
    YieldsRule(r, recon, ecosystem, phases, host, n, sigs, "data-destruction");
    forall k | 0 <= k < |phases|
      ensures BringsRule(r, ecosystem, phases, k, "data-destruction") <==> SomeCommand(r, phases[k], "data-destruction") {
      PhaseHasRule(r, ecosystem, phases[k], Written(r, phases[..k + 1]));
    }
  }

  /**
   download-and-execute fires exactly when a command names, by path, a file dropped in its own phase
   or in one visited before it.
  */
  lemma DropAndRunIff(r: Rules, recon: Recon, ecosystem: string, phases: seq<Phase>, host: string, n: nat,
        sigs: seq<Signal>)
    requires NamesItsRules(r) && Yields(r, recon, ecosystem, phases, host, n, sigs)
    ensures HasRule(sigs, DROP_AND_RUN)
            <==> exists k :: 0 <= k < |phases| && RunsDropped(phases[k], Written(r, phases[..k + 1]))
  {
    YieldsRule(r, recon, ecosystem, phases, host, n, sigs, DROP_AND_RUN);
    forall k | 0 <= k < |phases|
      ensures BringsRule(r, ecosystem, phases, k, DROP_AND_RUN) <==> RunsDropped(phases[k], Written(r, phases[..k + 1])) {
      PhaseHasRule(r, ecosystem, phases[k], Written(r, phases[..k + 1]));
    }
  }

  /** A file dropped and run by path in one phase is reported whatever the order. */
  lemma SamePhaseAlwaysFires(r: Rules, recon: Recon, ecosystem: string, phases: seq<Phase>, host: string,
        n: nat, sigs: seq<Signal>,
      k: nat, f: FileOp, c: seq<string>, token: string)
    requires NamesItsRules(r) && Yields(r, recon, ecosystem, phases, host, n, sigs)
    requires k < |phases| && f in phases[k].files && c in phases[k].commands && token in c
    requires f.write && r.executable(f.path) && !r.churn(f.path)
    requires '/' in token && BaseName(token) == BaseName(f.path)
    ensures HasRule(sigs, DROP_AND_RUN)
  {
    DropAndRunIff(r, recon, ecosystem, phases, host, n, sigs);
    var w := Written(r, phases[..k + 1]);
    GatherStep(phases, k, PhaseDrops(r));
    GatherIn(phases[k].files, Drops(r), BaseName(f.path));
    var i :| 0 <= i < |phases[k].files| && phases[k].files[i] == f;
    assert BaseName(f.path) in Drops(r)(phases[k].files[i]);
    SpawnedFinds(c, w, token);
    var j :| 0 <= j < |phases[k].commands| && phases[k].commands[j] == c;
    assert RunsDropped(phases[k], w);
  }

  lemma {:induction false} SpawnedFinds(c: seq<string>, w: set<string>, token: string)
    requires token in c && '/' in token && BaseName(token) in w
    ensures Spawned(c, w).Some?
    decreases |c|
  {
    if !('/' in c[0] && BaseName(c[0]) in w) { SpawnedFinds(c[1..], w, token); }
  }
}
