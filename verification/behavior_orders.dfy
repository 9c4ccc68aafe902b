/** How much of download-and-execute depends on the order in which the phases are visited. */
module BehaviorOrders {
  import opened Verdicts
  import opened Text
  import opened Gathering
  import opened Behavior
  import opened BehaviorAnalysis
  import opened BehaviorLaws
  import Orders

  /** Phase a drops a file that a command of phase b names by path. */
  function DropsForRun(r: Rules): (Phase, Phase) -> bool {
    (a: Phase, b: Phase) => RunsDropped(b, ToSet(PhaseDrops(r)(a)))
  }

  lemma {:induction false} SpawnedIs(c: seq<string>, w: set<string>)
    requires Spawned(c, w).Some?
    ensures var token := Spawned(c, w).value; token in c && '/' in token && BaseName(token) in w
    decreases |c|
  {
    if !('/' in c[0] && BaseName(c[0]) in w) { SpawnedIs(c[1..], w); }
  }

  /** More dropped names, more runs of them. */
  lemma RunsMore(p: Phase, less: set<string>, more: set<string>)
    requires RunsDropped(p, less) && less <= more
    ensures RunsDropped(p, more)
  {
    var i :| 0 <= i < |p.commands| && Spawned(p.commands[i], less).Some?;
    SpawnedIs(p.commands[i], less);
    SpawnedFinds(p.commands[i], more, Spawned(p.commands[i], less).value);
  }

  /** A phase runs something the visited phases dropped exactly when one of them dropped it. */
  lemma RunsWrittenIff(r: Rules, visited: seq<Phase>, p: Phase)
    ensures RunsDropped(p, Written(r, visited)) <==> exists k :: 0 <= k < |visited| && DropsForRun(r)(visited[k], p)
  {
    var w := Written(r, visited);
    if RunsDropped(p, w) {
      var i :| 0 <= i < |p.commands| && Spawned(p.commands[i], w).Some?;
      SpawnedIs(p.commands[i], w);
      var token := Spawned(p.commands[i], w).value;
      GatherIn(visited, PhaseDrops(r), BaseName(token));
      var k :| 0 <= k < |visited| && BaseName(token) in PhaseDrops(r)(visited[k]);
      SpawnedFinds(p.commands[i], ToSet(PhaseDrops(r)(visited[k])), token);
      assert DropsForRun(r)(visited[k], p);
    }
    if k :| 0 <= k < |visited| && DropsForRun(r)(visited[k], p) {
      forall x | x in ToSet(PhaseDrops(r)(visited[k])) ensures x in w { GatherIn(visited, PhaseDrops(r), x); }
      RunsMore(p, ToSet(PhaseDrops(r)(visited[k])), w);
    }
  }

  /** In one order the rule fires exactly when some drop does not come after its run. */
  lemma FiresWherePointsForward(r: Rules, recon: Recon, ecosystem: string, order: seq<Phase>, host: string, n: nat,
        sigs: seq<Signal>)
    requires NamesItsRules(r) && Yields(r, recon, ecosystem, order, host, n, sigs)
    ensures HasRule(sigs, DROP_AND_RUN) <==> Orders.PointsForward(DropsForRun(r), order)
  {
    DropAndRunIff(r, recon, ecosystem, order, host, n, sigs);
    var edge := DropsForRun(r);
    forall k | 0 <= k < |order|
      ensures RunsDropped(order[k], Written(r, order[..k + 1])) <==> exists i :: 0 <= i <= k && edge(order[i], order[k]) {
      RunsWrittenIff(r, order[..k + 1], order[k]);
      PrefixEdges(edge, order, k, order[..k + 1]);
    }
  }

  lemma PrefixEdges(edge: (Phase, Phase) -> bool, order: seq<Phase>, k: nat, visited: seq<Phase>)
    requires k < |order| && visited == order[..k + 1]
    ensures (exists i :: 0 <= i < |visited| && edge(visited[i], order[k])) <==> exists i :: 0 <= i <= k && edge(order[i], order[k])
  {
    if i :| 0 <= i <= k && edge(order[i], order[k]) { assert edge(visited[i], order[k]); }
  }

  // ---- every order has an outcome ----

  lemma {:induction false} MostFrequent(all: seq<string>) returns (n: nat, best: string)
    ensures forall p :: multiset(all)[p] <= n
    ensures n > 0 ==> multiset(all)[best] == n
    decreases |all|
  {
    n, best := 0, "";
    if all != [] {
      var m := |all| - 1;
      n, best := MostFrequent(all[..m]);
      assert all == all[..m] + [all[m]];
      if multiset(all)[all[m]] > n { n, best := multiset(all)[all[m]], all[m]; }
    }
  }

  lemma SomeOutcome(r: Rules, recon: Recon, ecosystem: string, order: seq<Phase>)
    returns (host: string, n: nat, sigs: seq<Signal>)
    ensures Yields(r, recon, ecosystem, order, host, n, sigs)
  {
    n, host := MostFrequent(Parents(r, ecosystem, order));
    sigs := Visited(r, ecosystem, order)
            + Aggregates(Deleted(r, order), ToolsSeen(recon, order), host, n, Reads(r, order) && Escapes(r, ecosystem, order));
  }

  /** Whatever order the runtime picks, the analysis reports download-and-execute. */
  ghost predicate AlwaysFires(r: Rules, recon: Recon, ecosystem: string, trace: seq<Phase>) {
    forall order, host, n, sigs :: multiset(order) == multiset(trace) && Yields(r, recon, ecosystem, order, host, n, sigs) ==>
      HasRule(sigs, DROP_AND_RUN)
  }

  /**
   download-and-execute is reported in every visiting order exactly when some phases, perhaps a single
   one, drop and run in a circle: each drops a file the next one runs by path.
  */
  lemma AlwaysFiresIffCycle(r: Rules, recon: Recon, ecosystem: string, trace: seq<Phase>)
    requires NamesItsRules(r)
    ensures AlwaysFires(r, recon, ecosystem, trace) <==> Orders.HasCycle(DropsForRun(r), trace)
  {
    var edge := DropsForRun(r);
    Orders.ForwardIffCycle(edge, trace);
    if AlwaysFires(r, recon, ecosystem, trace) {
      forall order | multiset(order) == multiset(trace) ensures Orders.PointsForward(edge, order) {
        var host, n, sigs := SomeOutcome(r, recon, ecosystem, order);
        FiresWherePointsForward(r, recon, ecosystem, order, host, n, sigs);
      }
    }
    if Orders.EveryOrderPointsForward(edge, trace) {
      forall order, host, n, sigs
        | multiset(order) == multiset(trace) && Yields(r, recon, ecosystem, order, host, n, sigs)
        ensures HasRule(sigs, DROP_AND_RUN) {
        FiresWherePointsForward(r, recon, ecosystem, order, host, n, sigs);
      }
    }
  }

  /** In some order it is reported. */
  ghost predicate CanFire(r: Rules, recon: Recon, ecosystem: string, trace: seq<Phase>) {
    exists order, host, n, sigs ::
      multiset(order) == multiset(trace) && Yields(r, recon, ecosystem, order, host, n, sigs) && HasRule(sigs, DROP_AND_RUN)
  }

  /** ... and in some order exactly when any phase drops what it or another one runs by path. */
  lemma CanFireIffAnyEdge(r: Rules, recon: Recon, ecosystem: string, trace: seq<Phase>)
    requires NamesItsRules(r)
    ensures CanFire(r, recon, ecosystem, trace) <==> exists a, b :: a in trace && b in trace && DropsForRun(r)(a, b)
  {
    if CanFire(r, recon, ecosystem, trace) { FiringHasEdge(r, recon, ecosystem, trace); }
    if a, b :| a in trace && b in trace && DropsForRun(r)(a, b) { EdgeCanFire(r, recon, ecosystem, trace, a, b); }
  }

  lemma FiringHasEdge(r: Rules, recon: Recon, ecosystem: string, trace: seq<Phase>)
    requires NamesItsRules(r) && CanFire(r, recon, ecosystem, trace)
    ensures exists a, b :: a in trace && b in trace && DropsForRun(r)(a, b)
  {
    hide Yields, HasRule, NamesItsRules, DropsForRun;
    var order, host, n, sigs :|
      multiset(order) == multiset(trace) && Yields(r, recon, ecosystem, order, host, n, sigs) && HasRule(sigs, DROP_AND_RUN);
    FiresWherePointsForward(r, recon, ecosystem, order, host, n, sigs);
    var i, k :| 0 <= i <= k < |order| && DropsForRun(r)(order[i], order[k]);
    assert order[i] in multiset(trace) && order[k] in multiset(trace);
  }

  lemma EdgeCanFire(r: Rules, recon: Recon, ecosystem: string, trace: seq<Phase>, a: Phase, b: Phase)
    requires NamesItsRules(r) && a in trace && b in trace && DropsForRun(r)(a, b)
    ensures CanFire(r, recon, ecosystem, trace)
  {
    hide Yields, HasRule, NamesItsRules, DropsForRun;
    var order := Orders.WithInFront(DropsForRun(r), trace, a, b);
    var host, n, sigs := SomeOutcome(r, recon, ecosystem, order);
    FiresWherePointsForward(r, recon, ecosystem, order, host, n, sigs);
  }
}
