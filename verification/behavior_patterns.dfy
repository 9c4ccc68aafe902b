/** When the rules over a whole trace fire, over its events. */
module BehaviorPatterns {
  import opened Verdicts
  import opened Text
  import opened Gathering
  import opened Behavior
  import opened BehaviorAnalysis
  import opened BehaviorLaws
  import opened BehaviorRules
  import Ranking

  // ---- exfil-chain ----

  /** A read of credentials: a grave one, or a registry token. */
  predicate TakesCredential(r: Rules, f: FileOp) {
    && f.read && r.sensitive(f.path).Some?
    && var x := r.sensitive(f.path).value; x.severity in {High, Critical} || x.category in {"npm-token", "netrc"}
  }

  /** A contact an install has no business with. */
  predicate LeavesBySocket(r: Rules, k: Socket) {
    ToMetadata(k) || (r.routable(k.address) && forall h :: h in k.hostnames ==> h == "" || h == k.address)
  }

  predicate PhaseTakes(r: Rules, p: Phase) { exists f :: f in p.files && TakesCredential(r, f) }
  predicate PhaseLeaves(r: Rules, ecosystem: string, p: Phase) {
    (exists k :: k in p.sockets && LeavesBySocket(r, k)) || AsksForeign(r, ecosystem, p)
  }

  lemma TakesIs(r: Rules, f: FileOp)
    ensures Steals(r, f) <==> TakesCredential(r, f)
  {
  }

  lemma PhaseTakesIs(r: Rules, p: Phase)
    ensures PhaseReads(r, p) <==> PhaseTakes(r, p)
  {
    if i :| 0 <= i < |p.files| && Steals(r, p.files[i]) {
      TakesIs(r, p.files[i]);
      assert p.files[i] in p.files;
    }
    if f :| f in p.files && TakesCredential(r, f) {
      var i :| 0 <= i < |p.files| && p.files[i] == f;
      TakesIs(r, p.files[i]);
    }
  }

  lemma LeavesIs(r: Rules, k: Socket)
    ensures SocketEscapes(r, k) <==> LeavesBySocket(r, k)
  {
    BareMeans(r, k);
  }

  lemma PhaseLeavesIs(r: Rules, ecosystem: string, p: Phase)
    ensures PhaseEscapes(r, ecosystem, p) <==> PhaseLeaves(r, ecosystem, p)
  {
    SocketsLeaveIs(r, p);
    QueriesLeaveIs(r, ecosystem, p);
  }

  lemma SocketsLeaveIs(r: Rules, p: Phase)
    ensures (exists i :: 0 <= i < |p.sockets| && SocketEscapes(r, p.sockets[i])) <==> exists k :: k in p.sockets && LeavesBySocket(r, k)
  {
    hide SocketEscapes, LeavesBySocket;
    if i :| 0 <= i < |p.sockets| && SocketEscapes(r, p.sockets[i]) {
      LeavesIs(r, p.sockets[i]);
      assert p.sockets[i] in p.sockets;
    }
    if k :| k in p.sockets && LeavesBySocket(r, k) {
      var i :| 0 <= i < |p.sockets| && p.sockets[i] == k;
      LeavesIs(r, p.sockets[i]);
    }
  }

  lemma RecordLeavesIs(r: Rules, ecosystem: string, d: seq<string>)
    ensures RecordEscapes(r, ecosystem, d) <==> exists q :: q in d && Foreign(r, ecosystem, q)
  {
    hide UnknownDomain, Foreign;
    if i :| 0 <= i < |d| && UnknownDomain(r, ecosystem, d[i]) {
      ForeignMeans(r, ecosystem, d[i]);
      assert d[i] in d;
    }
    if q :| q in d && Foreign(r, ecosystem, q) {
      var i :| 0 <= i < |d| && d[i] == q;
      ForeignMeans(r, ecosystem, d[i]);
    }
  }

  lemma QueriesLeaveIs(r: Rules, ecosystem: string, p: Phase)
    ensures (exists i :: 0 <= i < |p.dns| && RecordEscapes(r, ecosystem, p.dns[i])) <==> AsksForeign(r, ecosystem, p)
  {
    hide RecordEscapes, Foreign;
    if i :| 0 <= i < |p.dns| && RecordEscapes(r, ecosystem, p.dns[i]) {
      RecordLeavesIs(r, ecosystem, p.dns[i]);
      assert p.dns[i] in p.dns;
    }
    if d :| d in p.dns && exists q :: q in d && Foreign(r, ecosystem, q) {
      var i :| 0 <= i < |p.dns| && p.dns[i] == d;
      RecordLeavesIs(r, ecosystem, p.dns[i]);
    }
  }

  lemma ReadsIs(r: Rules, phases: seq<Phase>)
    ensures Reads(r, phases) <==> exists p :: p in phases && PhaseTakes(r, p)
  {
    hide PhaseReads, PhaseTakes;
    if i :| 0 <= i < |phases| && PhaseReads(r, phases[i]) {
      PhaseTakesIs(r, phases[i]);
      assert phases[i] in phases;
    }
    if p :| p in phases && PhaseTakes(r, p) {
      var i :| 0 <= i < |phases| && phases[i] == p;
      PhaseTakesIs(r, phases[i]);
    }
  }

  lemma EscapesIs(r: Rules, ecosystem: string, phases: seq<Phase>)
    ensures Escapes(r, ecosystem, phases) <==> exists p :: p in phases && PhaseLeaves(r, ecosystem, p)
  {
    hide PhaseEscapes, PhaseLeaves;
    if i :| 0 <= i < |phases| && PhaseEscapes(r, ecosystem, phases[i]) {
      PhaseLeavesIs(r, ecosystem, phases[i]);
      assert phases[i] in phases;
    }
    if p :| p in phases && PhaseLeaves(r, ecosystem, p) {
      var i :| 0 <= i < |phases| && phases[i] == p;
      PhaseLeavesIs(r, ecosystem, phases[i]);
    }
  }

  /** exfil-chain: exactly when some phase takes credentials and some phase, perhaps another, leaves. */
  lemma ExfilChainIff(r: Rules, recon: Recon, ecosystem: string, phases: seq<Phase>, host: string, n: nat, sigs: seq<Signal>)
    requires NamesItsRules(r) && Yields(r, recon, ecosystem, phases, host, n, sigs)
    ensures HasRule(sigs, "exfil-chain") <==>
              (exists p :: p in phases && PhaseTakes(r, p)) && exists p :: p in phases && PhaseLeaves(r, ecosystem, p)
  {
    AggregatesFireIff(r, recon, ecosystem, phases, host, n, sigs);
    hide *;
    ReadsIs(r, phases);
    EscapesIs(r, ecosystem, phases);
  }

  // ---- recon-burst ----

  /** Some command names this tool. */
  ghost predicate Profiles(recon: Recon, phases: seq<Phase>, tool: string) {
    exists p, c :: p in phases && c in p.commands && recon(c) == Some(tool)
  }

  lemma ToolSeenIs(recon: Recon, phases: seq<Phase>, tool: string)
    ensures tool in ToolsSeen(recon, phases) <==> Profiles(recon, phases, tool)
  {
    GatherIn(phases, PhaseTools(recon), tool);
    forall p ensures tool in PhaseTools(recon)(p) <==> exists c :: c in p.commands && recon(c) == Some(tool) {
      PhaseToolIs(recon, p, tool);
    }
    if i :| 0 <= i < |phases| && tool in PhaseTools(recon)(phases[i]) { assert phases[i] in phases; }
    if p, c :| p in phases && c in p.commands && recon(c) == Some(tool) {
      var i :| 0 <= i < |phases| && phases[i] == p;
      assert tool in PhaseTools(recon)(phases[i]);
    }
  }

  lemma PhaseToolIs(recon: Recon, p: Phase, tool: string)
    ensures tool in PhaseTools(recon)(p) <==> exists c :: c in p.commands && recon(c) == Some(tool)
  {
    GatherIn(p.commands, Tools(recon), tool);
    if i :| 0 <= i < |p.commands| && tool in Tools(recon)(p.commands[i]) { assert p.commands[i] in p.commands; }
    if c :| c in p.commands && recon(c) == Some(tool) {
      var i :| 0 <= i < |p.commands| && p.commands[i] == c;
      assert tool in Tools(recon)(p.commands[i]);
    }
  }

  lemma PickThree(s: set<string>) returns (a: string, b: string, c: string)
    requires |s| >= 3
    ensures a in s && b in s && c in s && a != b && b != c && a != c
  {
    a :| a in s;
    var t := s - {a};
    assert |t| == |s| - 1;
    assert t != {};
    b :| b in t;
    var u := t - {b};
    assert |u| == |t| - 1;
    assert u != {};
    c :| c in u;
  }

  lemma HasThree(s: set<string>, a: string, b: string, c: string)
    requires a in s && b in s && c in s && a != b && b != c && a != c
    ensures |s| >= 3
  {
    assert s == {a, b, c} + (s - {a, b, c});
  }

  /** recon-burst: exactly when commands name three different profiling tools. */
  lemma ReconBurstIff(r: Rules, recon: Recon, ecosystem: string, phases: seq<Phase>, host: string, n: nat, sigs: seq<Signal>)
    requires NamesItsRules(r) && Yields(r, recon, ecosystem, phases, host, n, sigs)
    ensures HasRule(sigs, "recon-burst") <==>
              exists a, b, c :: a != b && b != c && a != c && Profiles(recon, phases, a) && Profiles(recon, phases, b) && Profiles(recon, phases, c)
  {
    var tools := ToolsSeen(recon, phases);
    BurstIff(r, recon, ecosystem, phases, host, n, sigs);
    hide *;
    forall t ensures t in tools <==> Profiles(recon, phases, t) { ToolSeenIs(recon, phases, t); }
    if |tools| >= 3 { var a, b, c := PickThree(tools); }
    if a, b, c :| a != b && b != c && a != c && Profiles(recon, phases, a) && Profiles(recon, phases, b) && Profiles(recon, phases, c) {
      HasThree(tools, a, b, c);
    }
  }

  lemma BurstIff(r: Rules, recon: Recon, ecosystem: string, phases: seq<Phase>, host: string, n: nat, sigs: seq<Signal>)
    requires NamesItsRules(r) && Yields(r, recon, ecosystem, phases, host, n, sigs)
    ensures HasRule(sigs, "recon-burst") <==> |ToolsSeen(recon, phases)| >= 3
  {
    var items := Visited(r, ecosystem, phases);
    var chain := Reads(r, phases) && Escapes(r, ecosystem, phases);
    var aggregates := Aggregates(Deleted(r, phases), ToolsSeen(recon, phases), host, n, chain);
    hide Visited, Reads, Escapes, Deleted, ToolsSeen, IsBusiest, Aggregates;
    forall i | 0 <= i < |items| ensures items[i].rule != "recon-burst" {
      VisitedRules(r, ecosystem, phases, items[i]);
      ItemRulesAreNotAggregates(items[i].rule);
    }
    HasRuleJoin(items, aggregates, "recon-burst");
    AggregateHasRule(Deleted(r, phases), ToolsSeen(recon, phases), host, n, chain, "recon-burst");
  }

  // ---- dns-exfil ----

  /** A name of three labels or more, cut before its last two: the parent is those two. */
  lemma ParentMeans(sub: string, x: string, y: string)
    requires '.' !in x && '.' !in y
    ensures ParentDomain(sub + "." + x + "." + y) == x + "." + y
  {
    var h := sub + "." + x + "." + y;
    assert h == sub + ['.'] + (x + ['.'] + y);
    SplitBoth(sub, x + ['.'] + y, '.');
    SplitBoth(x, y, '.');
    SplitPlain(x, '.');
    SplitPlain(y, '.');
    var parts := Split(h, '.');
    assert parts == Split(sub, '.') + ([x] + [y]);
    assert |parts| > 2 && parts[|parts| - 2..] == [x, y];
    assert [x, y][1..] == [y];
    assert Join([x, y], '.') == x + ['.'] + y;
  }

  /** A query counts as encoded exactly when 20 or more characters stand before its parent domain. */
  lemma EncodedMeans(r: Rules, ecosystem: string, q: string, sub: string, x: string, y: string)
    requires '.' !in x && '.' !in y
    requires r.lower(TrimSuffix(q, ".")) == sub + "." + x + "." + y
    ensures EncodedParent(r, ecosystem)(q) ==
              if Foreign(r, ecosystem, sub + "." + x + "." + y) && |sub| >= 20 then [x + "." + y] else []
  {
    var h := sub + "." + x + "." + y;
    ParentMeans(sub, x, y);
    ForeignMeans(r, ecosystem, h);
    assert h == sub + ("." + (x + "." + y));
    assert TrimSuffix(h, "." + (x + "." + y)) == sub;
  }

  lemma {:induction false} GatherAtLeast<A, T>(items: seq<A>, f: A -> seq<T>, x: T, at: set<nat>)
    requires forall i :: i in at ==> i < |items| && x in f(items[i])
    ensures multiset(Gather(items, f))[x] >= |at|
    decreases |items|
  {
    if items != [] {
      var n := |items| - 1;
      GatherAtLeast(items[..n], f, x, at - {n});
      var rest := at - {n};
      assert |at| <= |rest| + 1 && (n !in at ==> at == rest);
      assert multiset(Gather(items, f)) == multiset(Gather(items[..n], f)) + multiset(f(items[n]));
    } else {
      assert at == {};
    }
  }

  lemma {:induction false} GatherOnePart<A, T>(items: seq<A>, f: A -> seq<T>, x: T, i: nat)
    requires i < |items|
    ensures multiset(Gather(items, f))[x] >= multiset(f(items[i]))[x]
    decreases |items|
  {
    var n := |items| - 1;
    if i < n { GatherOnePart(items[..n], f, x, i); }
  }

  predicate ThreeEncoded(r: Rules, ecosystem: string, d: seq<string>, a: nat, b: nat, c: nat, parent: string) {
    && a < b < c < |d|
    && parent in EncodedParent(r, ecosystem)(d[a]) && parent in EncodedParent(r, ecosystem)(d[b])
    && parent in EncodedParent(r, ecosystem)(d[c])
  }

  lemma ThreeInRecord(r: Rules, ecosystem: string, d: seq<string>, a: nat, b: nat, c: nat, parent: string)
    requires ThreeEncoded(r, ecosystem, d, a, b, c, parent)
    ensures multiset(RecordParents(r, ecosystem)(d))[parent] >= 3
  {
    hide EncodedParent;
    GatherAtLeast(d, EncodedParent(r, ecosystem), parent, {a, b, c});
  }

  lemma ThreeInTrace(r: Rules, ecosystem: string, phases: seq<Phase>, k: nat, m: nat, parent: string)
    requires k < |phases| && m < |phases[k].dns| && multiset(RecordParents(r, ecosystem)(phases[k].dns[m]))[parent] >= 3
    ensures multiset(Parents(r, ecosystem, phases))[parent] >= 3
  {
    hide RecordParents;
    GatherOnePart(phases[k].dns, RecordParents(r, ecosystem), parent, m);
    GatherOnePart(phases, PhaseParents(r, ecosystem), parent, k);
  }

  /** Three encoded queries to one parent in one record are reported, wherever the record is. */
  lemma ThreeQueriesFire(r: Rules, recon: Recon, ecosystem: string, phases: seq<Phase>, host: string, n: nat, sigs: seq<Signal>,
        k: nat, m: nat, a: nat, b: nat, c: nat, parent: string)
    requires NamesItsRules(r) && Yields(r, recon, ecosystem, phases, host, n, sigs)
    requires k < |phases| && m < |phases[k].dns| && ThreeEncoded(r, ecosystem, phases[k].dns[m], a, b, c, parent)
    ensures HasRule(sigs, "dns-exfil")
  {
    hide *;
    ThreeInRecord(r, ecosystem, phases[k].dns[m], a, b, c, parent);
    ThreeInTrace(r, ecosystem, phases, k, m, parent);
    AggregatesFireIff(r, recon, ecosystem, phases, host, n, sigs);
  }

  // ---- data-destruction ----

  /** The deletions outside the package manager's own trees. */
  function Destroyed(r: Rules, files: seq<FileOp>): set<nat> { set i: nat | i < |files| && files[i].delete && !r.churn(files[i].path) }

  function AllDestroyed(r: Rules, phases: seq<Phase>): nat {
    if phases == [] then 0
    else |Destroyed(r, phases[|phases| - 1].files)| + AllDestroyed(r, phases[..|phases| - 1])
  }

  lemma DestroyedSnoc(r: Rules, files: seq<FileOp>)
    requires files != []
    ensures var n := |files| - 1;
            |Destroyed(r, files)| == |Destroyed(r, files[..n])| + if files[n].delete && !r.churn(files[n].path) then 1 else 0
  {
    var n := |files| - 1;
    var before := Destroyed(r, files[..n]);
    if files[n].delete && !r.churn(files[n].path) {
      assert Destroyed(r, files) == before + {n};
    } else {
      assert Destroyed(r, files) == before;
    }
  }

  lemma {:induction false} DeletionsCounted(r: Rules, files: seq<FileOp>)
    ensures |Gather(files, Deletions(r))| == |Destroyed(r, files)|
    decreases |files|
  {
    hide Destroyed;
    if files != [] {
      DeletionsCounted(r, files[..|files| - 1]);
      DestroyedSnoc(r, files);
    } else {
      NothingDestroyed(r);
    }
  }

  lemma NothingDestroyed(r: Rules)
    ensures Destroyed(r, []) == {}
  {
  }

  lemma {:induction false} DeletedIsDestroyed(r: Rules, phases: seq<Phase>)
    ensures |Deleted(r, phases)| == AllDestroyed(r, phases)
    decreases |phases|
  {
    if phases != [] {
      var n := |phases| - 1;
      DeletedIsDestroyed(r, phases[..n]);
      DeletionsCounted(r, phases[n].files);
    }
  }

  /** data-destruction: exactly for 25 such deletions over all phases, or a command graded so. */
  lemma DataDestructionIff(r: Rules, recon: Recon, ecosystem: string, phases: seq<Phase>, host: string, n: nat, sigs: seq<Signal>)
    requires NamesItsRules(r) && Yields(r, recon, ecosystem, phases, host, n, sigs)
    ensures HasRule(sigs, "data-destruction")
            <==> AllDestroyed(r, phases) >= 25 || exists p :: p in phases && RunsDestructive(r, p)
  {
    hide *;
    DestructionIff(r, recon, ecosystem, phases, host, n, sigs);
    DeletedIsDestroyed(r, phases);
    SomeDestructive(r, phases);
  }

  lemma SomeDestructive(r: Rules, phases: seq<Phase>)
    ensures (exists k :: 0 <= k < |phases| && SomeCommand(r, phases[k], "data-destruction"))
            <==> exists p :: p in phases && RunsDestructive(r, p)
  {
    hide SomeCommand, RunsDestructive;
    if k :| 0 <= k < |phases| && SomeCommand(r, phases[k], "data-destruction") {
      DestructiveIs(r, phases[k]);
      assert phases[k] in phases;
    }
    if p :| p in phases && RunsDestructive(r, p) {
      var k :| 0 <= k < |phases| && phases[k] == p;
      DestructiveIs(r, p);
    }
  }

  predicate RunsDestructive(r: Rules, p: Phase) {
    exists c :: c in p.commands && r.command(c).Some? && r.command(c).value.rule == "data-destruction"
  }

  lemma DestructiveIs(r: Rules, p: Phase)
    ensures SomeCommand(r, p, "data-destruction") <==> RunsDestructive(r, p)
  {
    if c :| c in p.commands && r.command(c).Some? && r.command(c).value.rule == "data-destruction" {
      var i :| 0 <= i < |p.commands| && p.commands[i] == c;
    }
    if i :| 0 <= i < |p.commands| && r.command(p.commands[i]).Some? && r.command(p.commands[i]).value.rule == "data-destruction" {
      assert p.commands[i] in p.commands;
    }
  }
}
