/** A whole atomic write of one thread, played without interruption, against its specification. */
module ProtocolWrites {
  import opened Verdicts
  import opened Protocol
  import opened Store

  lemma PlayOne(cfg: Config, s: State, a: Action, f: Faults)
    requires Enabled(s, a)
    ensures Legal(cfg, s, [a]) && Run(cfg, s, [a]) == Apply(cfg, s, a)
    ensures WriteStep(s, a, f) ==> OnlyWrites(cfg, s, [a], f)
  {
    assert [a][1..] == [];
  }

  /** Play `a` first, then `rest`. */
  lemma PlayFirst(cfg: Config, s: State, a: Action, rest: seq<Action>, f: Faults)
    requires Enabled(s, a) && Legal(cfg, Apply(cfg, s, a), rest)
    ensures Legal(cfg, s, [a] + rest) && Run(cfg, s, [a] + rest) == Run(cfg, Apply(cfg, s, a), rest)
    ensures WriteStep(s, a, f) && OnlyWrites(cfg, Apply(cfg, s, a), rest, f) ==> OnlyWrites(cfg, s, [a] + rest, f)
  {
    assert ([a] + rest)[1..] == rest;
  }

  predicate WriteStep(s: State, a: Action, f: Faults)
    requires Enabled(s, a)
  {
    a.Step? && s.threads[a.t].pc.Store? && a.choice in {f.create, f.fill, f.rename, f.remove}
  }

  /** Every step is one of an atomic write that meets these faults. */
  predicate OnlyWrites(cfg: Config, s: State, acts: seq<Action>, f: Faults)
    requires Legal(cfg, s, acts)
    decreases |acts|
  {
    acts == [] || (WriteStep(s, acts[0], f) && OnlyWrites(cfg, Apply(cfg, s, acts[0]), acts[1..], f))
  }

  predicate Writing(s: State, t: nat, phase: Phase) {
    t < |s.threads| && s.threads[t].pc.Store? && s.threads[t].pc.phase == phase && !s.threads[t].pc.target.TempFile?
  }

  /** From s to s' thread t has ended its write, with this disk. */
  ghost predicate Ended(cfg: Config, s: State, t: nat, s': State, disk: Disk)
    requires t < |s.threads| && s.threads[t].pc.Store?
  {
    var pc := s.threads[t].pc;
    && |s'.threads| == |s.threads|
    && s'.threads[t].req == s.threads[t].req
    && s'.threads[t].pc == After(cfg, s.threads[t].req, pc.target, pc.body, pc.verdict)
    && (forall u :: 0 <= u < |s.threads| && u != t ==> s'.threads[u] == s.threads[u])
    && s'.disk == disk
    && s'.log == s.log && s'.locks == s.locks && s'.holder == s.holder && s'.nextMutex == s.nextMutex
  }

  lemma RemoveEnds(cfg: Config, s: State, t: nat, n: nat, f: Faults) returns (acts: seq<Action>)
    requires Writing(s, t, Remove(n))
    ensures Legal(cfg, s, acts) && OnlyWrites(cfg, s, acts, f)
    ensures Ended(cfg, s, t, Run(cfg, s, acts), if f.remove.Go? then s.disk - {TempFile(n)} else s.disk)
    ensures Run(cfg, s, acts).nextTemp == s.nextTemp
  {
    acts := [Step(t, f.remove)];
    PlayOne(cfg, s, Step(t, f.remove), f);
  }

  lemma RenameEnds(cfg: Config, s: State, t: nat, n: nat, f: Faults) returns (acts: seq<Action>)
    requires Writing(s, t, Rename(n)) && TempFile(n) in s.disk && s.disk[TempFile(n)] == s.threads[t].pc.content
    requires f.create.Go? && f.fill.Go?
    ensures Legal(cfg, s, acts) && OnlyWrites(cfg, s, acts, f)
    ensures Ended(cfg, s, t, Run(cfg, s, acts),
                  Written(s.disk - {TempFile(n)}, n, s.threads[t].pc.target, s.threads[t].pc.content, f))
    ensures Run(cfg, s, acts).nextTemp == s.nextTemp
  {
    var a := Step(t, f.rename);
    var s1 := Apply(cfg, s, a);
    if f.rename.Go? {
      acts := [a];
      PlayOne(cfg, s, a, f);
    } else {
      var rest := RemoveEnds(cfg, s1, t, n, f);
      acts := [a] + rest;
      PlayFirst(cfg, s, a, rest, f);
      assert (s.disk - {TempFile(n)})[TempFile(n) := s.disk[TempFile(n)]] == s.disk;
    }
  }

  lemma FillEnds(cfg: Config, s: State, t: nat, n: nat, f: Faults) returns (acts: seq<Action>)
    requires Writing(s, t, Fill(n)) && TempFile(n) in s.disk && f.create.Go?
    ensures Legal(cfg, s, acts) && OnlyWrites(cfg, s, acts, f)
    ensures Ended(cfg, s, t, Run(cfg, s, acts),
                  Written(s.disk - {TempFile(n)}, n, s.threads[t].pc.target, s.threads[t].pc.content, f))
    ensures Run(cfg, s, acts).nextTemp == s.nextTemp
  {
    var a := Step(t, f.fill);
    var s1 := Apply(cfg, s, a);
    var rest;
    assert s1.disk - {TempFile(n)} == s.disk - {TempFile(n)};
    if f.fill.Go? {
      rest := RenameEnds(cfg, s1, t, n, f);
    } else {
      rest := RemoveEnds(cfg, s1, t, n, f);
      assert s1.disk == (s.disk - {TempFile(n)})[TempFile(n) := s1.disk[TempFile(n)]];
    }
    acts := [a] + rest;
    PlayFirst(cfg, s, a, rest, f);
  }

  /** The steps of one atomic write, left alone, do what the cache object's AtomicWrite does. */
  lemma WriteEnds(cfg: Config, s: State, t: nat, f: Faults) returns (acts: seq<Action>)
    requires Writing(s, t, Create) && TempFile(s.nextTemp) !in s.disk
    ensures Legal(cfg, s, acts) && OnlyWrites(cfg, s, acts, f)
    ensures Ended(cfg, s, t, Run(cfg, s, acts),
                  Written(s.disk, s.nextTemp, s.threads[t].pc.target, s.threads[t].pc.content, f))
    ensures Run(cfg, s, acts).nextTemp == s.nextTemp + if f.create.Go? then 1 else 0
  {
    var a := Step(t, f.create);
    var s1 := Apply(cfg, s, a);
    if f.create.Go? {
      assert s1.disk - {TempFile(s.nextTemp)} == s.disk;
      var rest := FillEnds(cfg, s1, t, s.nextTemp, f);
      acts := [a] + rest;
      PlayFirst(cfg, s, a, rest, f);
    } else {
      acts := [a];
      PlayOne(cfg, s, a, f);
    }
  }
}
