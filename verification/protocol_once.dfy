/**
 At-most-once work: after a slow path has put all three documents in place, no later request for
 that URL reaches upstream or the gate, unless reading one of the three files fails.
*/
module ProtocolOnce {
  import opened Verdicts
  import opened Protocol
  import opened ProtocolLocks
  import opened ProtocolSafety

  /** The three documents a fast path needs are on disk. */
  predicate Settled(s: State, key: string) {
    var p := LocatorFile(key);
    p in s.disk && s.disk[p].Pointer? && IsDigest(s.disk[p].digest) && Filled(s, s.disk[p].digest)
  }

  predicate Filled(s: State, digest: string) { VerdictFile(digest) in s.disk && ArtifactFile(digest) in s.disk }

  /** The thread is not doing slow-path work and will find what it still has to read. */
  predicate Calm(s: State, pc: Pc) {
    match pc
    case ReadVerdict(d) => IsDigest(d) && Filled(s, d)
    case ReadArtifact(_, d) => IsDigest(d) && Filled(s, d)
    case Fetch => false
    case CheckVerdict(_) => false
    case Judge(_) => false
    case ReadHistory(_, _) => false
    case Store(_, _, _, _, _) => false
    case _ => true
  }

  ghost predicate AllCalm(s: State, key: string) {
    && Settled(s, key)
    && forall t :: 0 <= t < |s.threads| && s.threads[t].req.Key() == key ==> Calm(s, s.threads[t].pc)
  }

  /**
   Locators are written by requests for their own key only, with their own body's digest; and
   whatever a thread marked as put or found is on disk.
  */
  ghost predicate OnceInv(cfg: Config, s: State) {
    Inv(cfg, s) && forall t :: 0 <= t < |s.threads| ==> OnceThread(cfg, s, s.threads[t])
  }

  /** No named file is ever removed. */
  lemma NamedFilesStay(cfg: Config, s: State, a: Action, p: Path)
    requires Inv(cfg, s) && Enabled(s, a) && p in s.disk && !p.TempFile?
    ensures p in Apply(cfg, s, a).disk
  {
    if a.Step? && s.threads[a.t].pc.Store? {
      StoreEffect(cfg, s, a.t, a.choice);
    }
  }

  /** The locator of `key` changes only when a request for `key` renames it into place. */
  lemma LocatorStays(cfg: Config, s: State, a: Action, key: string)
    requires OnceInv(cfg, s) && Enabled(s, a) && LocatorFile(key) in s.disk
    requires a.Step? && s.threads[a.t].req.Key() == key ==> !s.threads[a.t].pc.Store?
    ensures LocatorFile(key) in Apply(cfg, s, a).disk
    ensures Apply(cfg, s, a).disk[LocatorFile(key)] == s.disk[LocatorFile(key)]
  {
    if a.Step? && s.threads[a.t].pc.Store? {
      StoreEffect(cfg, s, a.t, a.choice);
    }
  }

  /** What the thread's own record keeps, given what it is about to do. */
  ghost predicate OnceThread(cfg: Config, s: State, th: Thread) {
    && (th.pc.Store? && th.pc.target.LocatorFile? ==>
         th.pc.target.key == th.req.Key() && th.pc.content == Pointer(cfg.digest(th.pc.body)))
    && forall p :: p in th.wrote ==> p in s.disk && !p.TempFile?
  }

  lemma OnceStore(cfg: Config, s: State, t: nat, c: Choice)
    requires OnceInv(cfg, s) && CanStep(s, t) && s.threads[t].pc.Store?
    ensures OnceThread(cfg, DoStore(cfg, s, t, c), DoStore(cfg, s, t, c).threads[t])
  {
    assert PcOk(cfg, s, s.threads[t].pc) && OnceThread(cfg, s, s.threads[t]);
    StoreEffect(cfg, s, t, c);
    forall p | p in s.threads[t].wrote ensures p in DoStore(cfg, s, t, c).disk {
    }
  }

  lemma OnceRead(cfg: Config, s: State, t: nat, c: Choice)
    requires OnceInv(cfg, s) && CanStep(s, t)
    requires var pc := s.threads[t].pc; pc.ReadLocator? || pc.ReadVerdict? || pc.ReadArtifact? || pc.Fetch?
    ensures OnceThread(cfg, StepThread(cfg, s, t, c), StepThread(cfg, s, t, c).threads[t])
  {
    assert OnceThread(cfg, s, s.threads[t]);
    match s.threads[t].pc
    case ReadLocator =>
    case ReadVerdict(_) =>
    case ReadArtifact(_, _) =>
    case Fetch =>
  }

  lemma OnceJudge(cfg: Config, s: State, t: nat, c: Choice)
    requires OnceInv(cfg, s) && CanStep(s, t)
    requires var pc := s.threads[t].pc; pc.CheckVerdict? || pc.Judge? || pc.ReadHistory?
    ensures OnceThread(cfg, StepThread(cfg, s, t, c), StepThread(cfg, s, t, c).threads[t])
  {
    assert OnceThread(cfg, s, s.threads[t]);
    match s.threads[t].pc
    case CheckVerdict(_) =>
    case Judge(_) =>
    case ReadHistory(_, _) =>
  }

  lemma OnceOther(cfg: Config, s: State, t: nat, c: Choice)
    requires OnceInv(cfg, s) && CanStep(s, t) && !s.threads[t].pc.Store?
    ensures OnceThread(cfg, StepThread(cfg, s, t, c), StepThread(cfg, s, t, c).threads[t])
  {
    assert OnceThread(cfg, s, s.threads[t]);
    match s.threads[t].pc
    case ReadLocator => OnceRead(cfg, s, t, c);
    case ReadVerdict(_) => OnceRead(cfg, s, t, c);
    case ReadArtifact(_, _) => OnceRead(cfg, s, t, c);
    case Fetch => OnceRead(cfg, s, t, c);
    case CheckVerdict(_) => OnceJudge(cfg, s, t, c);
    case Judge(_) => OnceJudge(cfg, s, t, c);
    case ReadHistory(_, _) => OnceJudge(cfg, s, t, c);
    case _ =>
  }

  lemma OnceInvApply(cfg: Config, s: State, a: Action)
    requires WellHashed(cfg) && OnceInv(cfg, s) && Enabled(s, a)
    ensures OnceInv(cfg, Apply(cfg, s, a))
  {
    InvApply(cfg, s, a);
    var s' := Apply(cfg, s, a);
    forall p | p in s.disk && !p.TempFile? ensures p in s'.disk { NamedFilesStay(cfg, s, a, p); }
    if a.Step? {
      OthersStay(cfg, s, a.t, a.choice);
      if s.threads[a.t].pc.Store? { OnceStore(cfg, s, a.t, a.choice); } else { OnceOther(cfg, s, a.t, a.choice); }
    }
    forall t | 0 <= t < |s'.threads| ensures OnceThread(cfg, s', s'.threads[t]) {
      if t < |s.threads| { assert OnceThread(cfg, s, s.threads[t]); }
    }
  }

  lemma OthersStay(cfg: Config, s: State, t: nat, c: Choice)
    requires CanStep(s, t)
    ensures var s' := StepThread(cfg, s, t, c);
            && |s'.threads| == |s.threads| && s'.threads[t].req == s.threads[t].req
            && forall u :: 0 <= u < |s.threads| && u != t ==> s'.threads[u] == s.threads[u]
  {
    StepLowersRank(cfg, s, t, c);
    if Inside(s.threads[t].pc) && !s.threads[t].pc.Unlock? { InnerStep(cfg, s, t, c); }
  }

  lemma {:induction false} OnceInvRun(cfg: Config, s: State, acts: seq<Action>)
    requires WellHashed(cfg) && OnceInv(cfg, s) && Legal(cfg, s, acts)
    ensures OnceInv(cfg, Run(cfg, s, acts))
    decreases |acts|
  {
    if acts != [] {
      OnceInvApply(cfg, s, acts[0]);
      OnceInvRun(cfg, Apply(cfg, s, acts[0]), acts[1..]);
    }
  }

  // ---- one step from a calm state ----

  /** Upstream fetches and gate calls for `key`. */
  predicate IsWork(e: Event, key: string) { e == Fetching(key) || e == GateCalled(key) }

  /** A calm request's step stays calm and does no work, or is a read fault. */
  lemma CalmStep(cfg: Config, s: State, t: nat, c: Choice)
    requires OnceInv(cfg, s) && CanStep(s, t) && AllCalm(s, s.threads[t].req.Key())
    ensures var s' := StepThread(cfg, s, t, c);
            s'.disk == s.disk && (ReadFault(s.threads[t].req.Key()) in s'.log[|s.log|..] || Calm(s, s'.threads[t].pc))
  {
    assert Calm(s, s.threads[t].pc);
    LogEffect(cfg, s, t, c);
    var s' := StepThread(cfg, s, t, c);
    match s.threads[t].pc
    case ReadLocator => assert s' == DoReadLocator(s, t, c); FaultShows(s, t, c, s');
    case ReadVerdict(d) =>
      assert Fits(cfg, s.log, VerdictFile(d), s.disk[VerdictFile(d)]);
      assert s' == DoReadVerdict(s, t, c, d);
      FaultShows(s, t, c, s');
    case ReadArtifact(_, d) =>
      assert Fits(cfg, s.log, ArtifactFile(d), s.disk[ArtifactFile(d)]);
      assert s' == DoReadArtifact(s, t, c, d);
      FaultShows(s, t, c, s');
    case _ =>
  }

  lemma FaultShows(s: State, t: nat, c: Choice, s': State)
    requires CanStep(s, t)
    ensures s' == ToFetch(s, t, c) && !c.Go? ==> ReadFault(s.threads[t].req.Key()) in s'.log[|s.log|..]
  {
    if s' == ToFetch(s, t, c) && !c.Go? {
      assert s'.log[|s.log|..] == [ReadFault(s.threads[t].req.Key())];
    }
  }

  /** Only a thread of this key that is on the slow path logs work for it. */
  lemma WorkIsSlow(cfg: Config, s: State, a: Action, key: string)
    requires Enabled(s, a)
    requires a.Step? && s.threads[a.t].req.Key() == key ==> !s.threads[a.t].pc.Fetch? && !s.threads[a.t].pc.Judge?
    ensures var l := Apply(cfg, s, a).log;
            s.log <= l && forall i :: |s.log| <= i < |l| ==> !IsWork(l[i], key)
  {
    if a.Step? { LogEffect(cfg, s, a.t, a.choice); }
  }

  lemma CalmGrows(cfg: Config, s: State, a: Action, pc: Pc)
    requires Inv(cfg, s) && Enabled(s, a) && Calm(s, pc)
    ensures Calm(Apply(cfg, s, a), pc)
  {
    match pc
    case ReadVerdict(d) => NamedFilesStay(cfg, s, a, VerdictFile(d)); NamedFilesStay(cfg, s, a, ArtifactFile(d));
    case ReadArtifact(_, d) => NamedFilesStay(cfg, s, a, VerdictFile(d)); NamedFilesStay(cfg, s, a, ArtifactFile(d));
    case _ =>
  }

  lemma SettledStays(cfg: Config, s: State, a: Action, key: string)
    requires OnceInv(cfg, s) && Enabled(s, a) && AllCalm(s, key)
    ensures Settled(Apply(cfg, s, a), key)
  {
    if a.Step? && s.threads[a.t].req.Key() == key { assert Calm(s, s.threads[a.t].pc); }
    LocatorStays(cfg, s, a, key);
    var d := s.disk[LocatorFile(key)].digest;
    NamedFilesStay(cfg, s, a, VerdictFile(d));
    NamedFilesStay(cfg, s, a, ArtifactFile(d));
  }

  lemma CalmApply(cfg: Config, s: State, a: Action, key: string)
    requires WellHashed(cfg) && OnceInv(cfg, s) && Enabled(s, a) && AllCalm(s, key)
    ensures var s' := Apply(cfg, s, a);
            && s.log <= s'.log
            && (forall i :: |s.log| <= i < |s'.log| ==> !IsWork(s'.log[i], key))
            && (ReadFault(key) in s'.log[|s.log|..] || AllCalm(s', key))
  {
    var s' := Apply(cfg, s, a);
    SettledStays(cfg, s, a, key);
    if a.Step? {
      OthersStay(cfg, s, a.t, a.choice);
      if s.threads[a.t].req.Key() == key { CalmStep(cfg, s, a.t, a.choice); }
    }
    WorkIsSlow(cfg, s, a, key);
    forall t | 0 <= t < |s'.threads| && s'.threads[t].req.Key() == key && t < |s.threads| && s'.threads[t].pc == s.threads[t].pc
      ensures Calm(s', s'.threads[t].pc) {
      CalmGrows(cfg, s, a, s.threads[t].pc);
    }
  }

  lemma {:induction false} LogGrows(cfg: Config, s: State, acts: seq<Action>)
    requires Legal(cfg, s, acts)
    ensures s.log <= Run(cfg, s, acts).log
    decreases |acts|
  {
    if acts != [] {
      OneStepLogGrows(cfg, s, acts[0]);
      LogGrows(cfg, Apply(cfg, s, acts[0]), acts[1..]);
    }
  }

  lemma OneStepLogGrows(cfg: Config, s: State, a: Action)
    requires Enabled(s, a)
    ensures s.log <= Apply(cfg, s, a).log
  {
    if a.Step? { LogEffect(cfg, s, a.t, a.choice); }
  }

  /** From a calm state on, work for the key is preceded by a failed read of one of its files. */
  lemma {:induction false} CalmRun(cfg: Config, s: State, acts: seq<Action>, key: string, i: nat)
    requires WellHashed(cfg) && OnceInv(cfg, s) && Legal(cfg, s, acts) && AllCalm(s, key)
    requires var l := Run(cfg, s, acts).log; |s.log| <= i < |l| && IsWork(l[i], key)
    ensures exists j :: |s.log| <= j < i && Run(cfg, s, acts).log[j] == ReadFault(key)
    decreases |acts|
  {
    if acts != [] {
      var s1 := Apply(cfg, s, acts[0]);
      var l := Run(cfg, s, acts).log;
      CalmApply(cfg, s, acts[0], key);
      OnceInvApply(cfg, s, acts[0]);
      LogGrows(cfg, s1, acts[1..]);
      assert l == Run(cfg, s1, acts[1..]).log && s1.log <= l;
      if AllCalm(s1, key) {
        CalmRun(cfg, s1, acts[1..], key, i);
      } else {
        var k :| 0 <= k < |s1.log| - |s.log| && s1.log[|s.log|..][k] == ReadFault(key);
        assert l[|s.log| + k] == ReadFault(key);
      }
    }
  }

  /**
   At most once. Thread t is about to rename its locator into place and has already put, or found,
   the verdict and the artifact. Once that rename succeeds, in every continuation, crashes included,
   each later fetch or gate call for the key comes after a failed read of one of the key's files.
  */
  lemma WorkAtMostOnce(cfg: Config, before: seq<Action>, t: nat, acts: seq<Action>, i: nat)
    requires WellHashed(cfg) && Legal(cfg, START, before)
    requires var s := Run(cfg, START, before);
             && CanStep(s, t) && s.threads[t].pc.Store? && s.threads[t].pc.target.LocatorFile? && s.threads[t].pc.phase.Rename?
             && var d := cfg.digest(s.threads[t].pc.body);
                {VerdictFile(d), ArtifactFile(d)} <= s.threads[t].wrote
    requires Legal(cfg, StepThread(cfg, Run(cfg, START, before), t, Go), acts)
    requires var s := Run(cfg, START, before);
             var l := Run(cfg, StepThread(cfg, s, t, Go), acts).log;
             |s.log| <= i < |l| && IsWork(l[i], s.threads[t].req.Key())
    ensures var s := Run(cfg, START, before);
            exists j :: |s.log| <= j < i && Run(cfg, StepThread(cfg, s, t, Go), acts).log[j] == ReadFault(s.threads[t].req.Key())
  {
    var s := Run(cfg, START, before);
    var key := s.threads[t].req.Key();
    OnceInvRun(cfg, START, before);
    LockInvRun(cfg, START, before);
    var s1 := StepThread(cfg, s, t, Go);
    RenameCalms(cfg, s, t);
    OnceInvApply(cfg, s, Step(t, Go));
    CalmRun(cfg, s1, acts, key, i);
  }

  lemma RenameCalms(cfg: Config, s: State, t: nat)
    requires WellHashed(cfg) && OnceInv(cfg, s) && LockInv(s)
    requires CanStep(s, t) && s.threads[t].pc.Store? && s.threads[t].pc.target.LocatorFile? && s.threads[t].pc.phase.Rename?
    requires var d := cfg.digest(s.threads[t].pc.body);
             {VerdictFile(d), ArtifactFile(d)} <= s.threads[t].wrote
    ensures var s1 := StepThread(cfg, s, t, Go); s1.log == s.log && AllCalm(s1, s.threads[t].req.Key())
  {
    var s1 := StepThread(cfg, s, t, Go);
    RenameSettles(cfg, s, t);
    assert ThreadLocks(s, t);
    OthersStay(cfg, s, t, Go);
    forall u | 0 <= u < |s1.threads| && s1.threads[u].req.Key() == s.threads[t].req.Key()
      ensures Calm(s1, s1.threads[u].pc) {
      if u != t { assert ThreadLocks(s, u); }
    }
  }

  lemma RenameSettles(cfg: Config, s: State, t: nat)
    requires WellHashed(cfg) && OnceInv(cfg, s)
    requires CanStep(s, t) && s.threads[t].pc.Store? && s.threads[t].pc.target.LocatorFile? && s.threads[t].pc.phase.Rename?
    requires var d := cfg.digest(s.threads[t].pc.body);
             {VerdictFile(d), ArtifactFile(d)} <= s.threads[t].wrote
    ensures var s1 := StepThread(cfg, s, t, Go);
            s1.log == s.log && Settled(s1, s.threads[t].req.Key()) && s1.threads[t].pc.Reply?
  {
    var d := cfg.digest(s.threads[t].pc.body);
    assert PcOk(cfg, s, s.threads[t].pc) && OnceThread(cfg, s, s.threads[t]);
    assert VerdictFile(d) in s.disk && ArtifactFile(d) in s.disk;
    StoreEffect(cfg, s, t, Go);
  }
}
