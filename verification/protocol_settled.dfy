/**
 At most once, for whole runs: while the disk works, a URL that has been answered from its bytes, with
 a 200 or a 403, is never fetched or judged again, in any interleaving and across crashes.
*/
module ProtocolSettled {
  import opened Verdicts
  import opened Protocol
  import opened ProtocolLocks
  import opened ProtocolSafety
  import opened ProtocolOnce

  /** No disk access of this step fails. */
  predicate DiskWorksAt(s: State, a: Action)
    requires Enabled(s, a)
  {
    a.Step? && !s.threads[a.t].pc.Fetch? && !s.threads[a.t].pc.Judge? ==> a.choice.Go?
  }

  predicate DiskWorks(cfg: Config, s: State, acts: seq<Action>)
    requires Legal(cfg, s, acts)
    decreases |acts|
  {
    acts == [] || (DiskWorksAt(s, acts[0]) && DiskWorks(cfg, Apply(cfg, s, acts[0]), acts[1..]))
  }

  /** An answer made from the URL's bytes. */
  predicate FromBytes(r: Response) { r.Served? || r.Refused? }

  predicate Resolved(s: State, key: string) { LocatorFile(key) in s.disk }

  /** On the slow path, where the URL is not resolved yet. */
  predicate Slow(pc: Pc) { pc.Fetch? || pc.CheckVerdict? || pc.Judge? || pc.ReadHistory? || pc.Store? }

  /** What a thread has found or put in place by now. */
  ghost predicate OnTrack(cfg: Config, s: State, th: Thread) {
    && (Slow(th.pc) ==> !Resolved(s, th.req.Key()))
    && (th.pc.ReadVerdict? || th.pc.ReadArtifact? || (th.pc.Reply? && FromBytes(th.pc.response)) ==> Resolved(s, th.req.Key()))
    && (th.pc.ReadVerdict? ==> IsDigest(th.pc.digest) && Filled(s, th.pc.digest))
    && (th.pc.ReadArtifact? ==> IsDigest(th.pc.digest) && Filled(s, th.pc.digest))
    && (th.pc.Store? ==> !th.pc.phase.Remove? && StoredSoFar(s, th.pc.target, cfg.digest(th.pc.body)))
  }

  ghost predicate TrackAt(cfg: Config, s: State, t: nat) { t < |s.threads| && OnTrack(cfg, s, s.threads[t]) }

  predicate StoredSoFar(s: State, target: Path, digest: string) {
    && (target.VerdictFile? ==> target.digest == digest)
    && (target.ArtifactFile? ==> target.digest == digest && VerdictFile(digest) in s.disk)
    && (target.LocatorFile? ==> Filled(s, digest))
  }

  /** Every answer made from bytes is of a resolved URL. */
  ghost predicate LogResolved(s: State) {
    forall i :: 0 <= i < |s.log| && s.log[i].Responded? && FromBytes(s.log[i].response) ==> Resolved(s, s.log[i].req.Key())
  }

  ghost predicate SettledInv(cfg: Config, s: State) {
    && OnceInv(cfg, s) && LockInv(s)
    && (forall key :: Resolved(s, key) ==> Settled(s, key))
    && (forall t :: 0 <= t < |s.threads| ==> OnTrack(cfg, s, s.threads[t]))
    && LogResolved(s)
  }

  // ---- one step ----

  lemma TrackRead(cfg: Config, s: State, t: nat)
    requires SettledInv(cfg, s) && CanStep(s, t)
    requires var pc := s.threads[t].pc; pc.ReadLocator? || pc.ReadVerdict? || pc.ReadArtifact?
    ensures var s' := StepThread(cfg, s, t, Go); s'.disk == s.disk && s'.log == s.log && TrackAt(cfg, s', t)
  {
    var th := s.threads[t];
    assert OnTrack(cfg, s, th);
    match th.pc
    case ReadLocator =>
      assert StepThread(cfg, s, t, Go) == DoReadLocator(s, t, Go);
      assert Resolved(s, th.req.Key()) ==> Settled(s, th.req.Key());
    case ReadVerdict(d) =>
      assert StepThread(cfg, s, t, Go) == DoReadVerdict(s, t, Go, d);
      assert Fits(cfg, s.log, VerdictFile(d), s.disk[VerdictFile(d)]);
    case ReadArtifact(_, d) =>
      assert StepThread(cfg, s, t, Go) == DoReadArtifact(s, t, Go, d);
      assert Fits(cfg, s.log, ArtifactFile(d), s.disk[ArtifactFile(d)]);
  }

  lemma TrackFetch(cfg: Config, s: State, t: nat, c: Choice)
    requires SettledInv(cfg, s) && CanStep(s, t) && DiskWorksAt(s, Step(t, c))
    requires var pc := s.threads[t].pc; pc.Fetch? || pc.Judge?
    ensures var s' := StepThread(cfg, s, t, c); s'.disk == s.disk && TrackAt(cfg, s', t)
  {
    var th := s.threads[t];
    assert OnTrack(cfg, s, th);
    match th.pc
    case Fetch => assert StepThread(cfg, s, t, c) == DoFetch(s, t, c);
    case Judge(body) => assert StepThread(cfg, s, t, c) == DoJudge(cfg, s, t, c, body);
  }

  lemma TrackJudged(cfg: Config, s: State, t: nat, c: Choice)
    requires SettledInv(cfg, s) && CanStep(s, t) && DiskWorksAt(s, Step(t, c))
    requires var pc := s.threads[t].pc; pc.CheckVerdict? || pc.ReadHistory?
    ensures var s' := StepThread(cfg, s, t, c); s'.disk == s.disk && TrackAt(cfg, s', t)
  {
    var th := s.threads[t];
    assert OnTrack(cfg, s, th) && PcOk(cfg, s, th.pc);
    match th.pc
    case CheckVerdict(body) => assert StepThread(cfg, s, t, c) == DoCheckVerdict(cfg, s, t, c, body);
    case ReadHistory(body, v) => assert StepThread(cfg, s, t, c) == DoReadHistory(s, t, c, body, v);
  }

  /** A step of a write that does not end it: no named file changes. */
  lemma TrackWrite(cfg: Config, s: State, t: nat)
    requires SettledInv(cfg, s) && CanStep(s, t) && s.threads[t].pc.Store? && !s.threads[t].pc.phase.Rename?
    ensures var s' := DoStore(cfg, s, t, Go);
            && (forall p: Path :: !p.TempFile? ==> (p in s'.disk <==> p in s.disk) && (p in s.disk ==> s'.disk[p] == s.disk[p]))
            && TrackAt(cfg, s', t)
  {
    assert OnTrack(cfg, s, s.threads[t]);
    match s.threads[t].pc.phase
    case Create =>
    case Fill(_) =>
  }

  /** The rename that ends a write. */
  lemma TrackRename(cfg: Config, s: State, t: nat)
    requires SettledInv(cfg, s) && CanStep(s, t) && s.threads[t].pc.Store? && s.threads[t].pc.phase.Rename?
    ensures var s' := DoStore(cfg, s, t, Go);
            var pc := s.threads[t].pc;
            && (forall p: Path :: !p.TempFile? ==> (p in s'.disk <==> p in s.disk || p == pc.target))
            && (forall p: Path :: !p.TempFile? && p in s.disk && p != pc.target ==> s'.disk[p] == s.disk[p])
            && s'.disk[pc.target] == pc.content
            && s'.threads[t].pc == After(cfg, s.threads[t].req, pc.target, pc.body, pc.verdict) && s'.threads[t].req == s.threads[t].req
  {
    assert OnTrack(cfg, s, s.threads[t]) && PcOk(cfg, s, s.threads[t].pc);
  }

  /** Where a write has led, with its document in place. */
  lemma AfterOnTrack(cfg: Config, s: State, th: Thread, target: Path, body: Bytes, v: Verdict)
    requires th.pc == After(cfg, th.req, target, body, v) && !target.TempFile? && v.artifact.digest == cfg.digest(body)
    requires target.VerdictFile? ==> VerdictFile(cfg.digest(body)) in s.disk
    requires target.ArtifactFile? ==> Filled(s, cfg.digest(body))
    requires Resolved(s, th.req.Key()) <==> target.LocatorFile?
    ensures OnTrack(cfg, s, th)
  {
  }

  lemma RenameOnTrack(cfg: Config, s: State, t: nat)
    requires SettledInv(cfg, s) && CanStep(s, t) && s.threads[t].pc.Store? && s.threads[t].pc.phase.Rename?
    ensures TrackAt(cfg, DoStore(cfg, s, t, Go), t)
  {
    var th := s.threads[t];
    assert OnTrack(cfg, s, th) && PcOk(cfg, s, th.pc) && OnceThread(cfg, s, th);
    TrackRename(cfg, s, t);
    StoreEffect(cfg, s, t, Go);
    StoreIsOwnStep(cfg, s, t, Go);
    var s' := DoStore(cfg, s, t, Go);
    hide DoStore, SettledInv, PcOk, OnTrack, After;
    AfterOnTrack(cfg, s', s'.threads[t], th.pc.target, th.pc.body, th.pc.verdict);
  }

  /** Resolving a URL resolves it to documents that are there. */
  lemma RenameSettled(cfg: Config, s: State, t: nat, key: string)
    requires WellHashed(cfg) && SettledInv(cfg, s) && CanStep(s, t) && s.threads[t].pc.Store? && s.threads[t].pc.phase.Rename?
    requires Resolved(DoStore(cfg, s, t, Go), key)
    ensures Settled(DoStore(cfg, s, t, Go), key)
  {
    var th := s.threads[t];
    assert OnTrack(cfg, s, th) && PcOk(cfg, s, th.pc) && OnceThread(cfg, s, th);
    TrackRename(cfg, s, t);
    if th.pc.target != LocatorFile(key) { assert Resolved(s, key) && Settled(s, key); }
  }

  /** Only named files matter to what a thread has found. */
  lemma TrackFrame(cfg: Config, s: State, s': State, th: Thread)
    requires OnTrack(cfg, s, th)
    requires forall p: Path :: !p.TempFile? && p in s.disk ==> p in s'.disk
    requires Resolved(s', th.req.Key()) && Slow(th.pc) ==> Resolved(s, th.req.Key())
    ensures OnTrack(cfg, s', th)
  {
  }

  lemma NamedStay(cfg: Config, s: State, t: nat, c: Choice)
    requires Inv(cfg, s) && CanStep(s, t)
    ensures forall p: Path :: !p.TempFile? && p in s.disk ==> p in StepThread(cfg, s, t, c).disk
  {
    forall p: Path | !p.TempFile? && p in s.disk ensures p in StepThread(cfg, s, t, c).disk {
      NamedFilesStay(cfg, s, Step(t, c), p);
    }
  }

  /** A URL is resolved only by a request for it. */
  lemma ResolvedByOwn(cfg: Config, s: State, t: nat, c: Choice, key: string)
    requires OnceInv(cfg, s) && CanStep(s, t) && Resolved(StepThread(cfg, s, t, c), key) && !Resolved(s, key)
    ensures s.threads[t].req.Key() == key && Inside(s.threads[t].pc)
  {
    LogEffect(cfg, s, t, c);
    if s.threads[t].pc.Store? {
      StoreEffect(cfg, s, t, c);
      assert OnceThread(cfg, s, s.threads[t]);
    }
  }

  lemma OneInside(s: State, t: nat, u: nat)
    requires LockInv(s) && t < |s.threads| && u < |s.threads| && Inside(s.threads[t].pc) && Inside(s.threads[u].pc)
    requires s.threads[t].req.Key() == s.threads[u].req.Key()
    ensures t == u
  {
    assert ThreadLocks(s, t) && ThreadLocks(s, u);
  }

  /** ... and that request holds its lock. */
  lemma OthersOnTrack(cfg: Config, s: State, t: nat, c: Choice, u: nat)
    requires SettledInv(cfg, s) && CanStep(s, t) && u < |s.threads| && u != t
    ensures OnTrack(cfg, StepThread(cfg, s, t, c), s.threads[u])
  {
    hide StepThread, OnTrack;
    var s' := StepThread(cfg, s, t, c);
    var th := s.threads[u];
    NamedStay(cfg, s, t, c);
    if Resolved(s', th.req.Key()) && Slow(th.pc) && !Resolved(s, th.req.Key()) {
      ResolvedByOwn(cfg, s, t, c, th.req.Key());
      OneInside(s, t, u);
    }
    TrackFrame(cfg, s, s', th);
  }

  lemma DiskStaysSettled(cfg: Config, s: State, t: nat, c: Choice, key: string)
    requires WellHashed(cfg) && SettledInv(cfg, s) && CanStep(s, t) && DiskWorksAt(s, Step(t, c))
    ensures Resolved(s, key) ==> Resolved(StepThread(cfg, s, t, c), key)
    ensures Resolved(StepThread(cfg, s, t, c), key) ==> Settled(StepThread(cfg, s, t, c), key)
  {
    assert Resolved(s, key) ==> Settled(s, key);
    if s.threads[t].pc.Store? {
      if s.threads[t].pc.phase.Rename? {
        TrackRename(cfg, s, t);
        if Resolved(StepThread(cfg, s, t, c), key) { RenameSettled(cfg, s, t, key); }
      } else {
        assert OnTrack(cfg, s, s.threads[t]);
        TrackWrite(cfg, s, t);
      }
    } else {
      LogEffect(cfg, s, t, c);
    }
  }

  lemma OwnOnTrack(cfg: Config, s: State, t: nat, c: Choice)
    requires SettledInv(cfg, s) && CanStep(s, t) && DiskWorksAt(s, Step(t, c))
    ensures TrackAt(cfg, StepThread(cfg, s, t, c), t)
  {
    var pc := s.threads[t].pc;
    if pc.ReadLocator? || pc.ReadVerdict? || pc.ReadArtifact? {
      TrackRead(cfg, s, t);
    } else if pc.Fetch? || pc.Judge? {
      TrackFetch(cfg, s, t, c);
    } else if pc.CheckVerdict? || pc.ReadHistory? {
      TrackJudged(cfg, s, t, c);
    } else if pc.Store? {
      if pc.phase.Rename? { RenameOnTrack(cfg, s, t); } else { TrackWrite(cfg, s, t); }
    }
  }

  lemma LogStaysResolved(cfg: Config, s: State, t: nat, c: Choice)
    requires WellHashed(cfg) && SettledInv(cfg, s) && CanStep(s, t) && DiskWorksAt(s, Step(t, c))
    ensures LogResolved(StepThread(cfg, s, t, c))
  {
    var s' := StepThread(cfg, s, t, c);
    LogEffect(cfg, s, t, c);
    forall i | 0 <= i < |s'.log| && s'.log[i].Responded? && FromBytes(s'.log[i].response)
      ensures Resolved(s', s'.log[i].req.Key()) {
      DiskStaysSettled(cfg, s, t, c, s'.log[i].req.Key());
      if i >= |s.log| { assert EventOf(cfg, s.threads[t], s'.log[i]) && OnTrack(cfg, s, s.threads[t]); }
    }
  }

  lemma SettledStep(cfg: Config, s: State, t: nat, c: Choice)
    requires WellHashed(cfg) && SettledInv(cfg, s) && CanStep(s, t) && DiskWorksAt(s, Step(t, c))
    ensures SettledInv(cfg, StepThread(cfg, s, t, c))
  {
    var s' := StepThread(cfg, s, t, c);
    OnceInvApply(cfg, s, Step(t, c));
    LockInvStep(cfg, s, t, c);
    LogStaysResolved(cfg, s, t, c);
    StepLowersRank(cfg, s, t, c);
    OwnOnTrack(cfg, s, t, c);
    hide OnTrack, OnceInv, LockInv, LogResolved, Settled;
    forall key | Resolved(s', key) ensures Settled(s', key) { DiskStaysSettled(cfg, s, t, c, key); }
    forall u | 0 <= u < |s'.threads| ensures OnTrack(cfg, s', s'.threads[u]) {
      if u != t { OthersOnTrack(cfg, s, t, c, u); }
    }
  }

  lemma SettledApply(cfg: Config, s: State, a: Action)
    requires WellHashed(cfg) && SettledInv(cfg, s) && Enabled(s, a) && DiskWorksAt(s, a)
    ensures SettledInv(cfg, Apply(cfg, s, a))
  {
    match a
    case Step(t, c) => SettledStep(cfg, s, t, c);
    case _ =>
      var s' := Apply(cfg, s, a);
      OnceInvApply(cfg, s, a);
      LockInvApply(cfg, s, a);
      forall u | 0 <= u < |s'.threads| ensures OnTrack(cfg, s', s'.threads[u]) {
        if u < |s.threads| { assert OnTrack(cfg, s, s.threads[u]); }
      }
      forall key | Resolved(s', key) ensures Settled(s', key) { assert Resolved(s, key) && Settled(s, key); }
  }

  // ---- the theorem ----

  /** After an answer made from the bytes of a URL, no fetch and no gate call for it. */
  ghost predicate AskedOnce(log: seq<Event>) {
    forall i, j :: 0 <= i < j < |log| && log[i].Responded? && FromBytes(log[i].response) ==> !IsWork(log[j], log[i].req.Key())
  }

  lemma AskedOnceApply(cfg: Config, s: State, a: Action)
    requires WellHashed(cfg) && SettledInv(cfg, s) && Enabled(s, a) && DiskWorksAt(s, a) && AskedOnce(s.log)
    ensures AskedOnce(Apply(cfg, s, a).log)
  {
    if a.Step? {
      var l := Apply(cfg, s, a).log;
      LogEffect(cfg, s, a.t, a.choice);
      forall i, j | 0 <= i < j < |l| && l[i].Responded? && FromBytes(l[i].response) ensures !IsWork(l[j], l[i].req.Key()) {
        if j < |s.log| {
          assert s.log[i] == l[i] && s.log[j] == l[j];
        } else {
          assert EventOf(cfg, s.threads[a.t], l[j]) && OnTrack(cfg, s, s.threads[a.t]);
          if i < |s.log| { assert s.log[i] == l[i]; } else { assert EventOf(cfg, s.threads[a.t], l[i]); }
        }
      }
    }
  }

  lemma {:induction false} AskedOnceFrom(cfg: Config, s: State, acts: seq<Action>)
    requires WellHashed(cfg) && SettledInv(cfg, s) && AskedOnce(s.log) && Legal(cfg, s, acts) && DiskWorks(cfg, s, acts)
    ensures AskedOnce(Run(cfg, s, acts).log)
    decreases |acts|
  {
    if acts != [] {
      SettledApply(cfg, s, acts[0]);
      AskedOnceApply(cfg, s, acts[0]);
      AskedOnceFrom(cfg, Apply(cfg, s, acts[0]), acts[1..]);
    }
  }

  /** While the disk works, a URL answered from its bytes is never fetched or judged again. */
  lemma AskedOnceRun(cfg: Config, acts: seq<Action>)
    requires WellHashed(cfg) && Legal(cfg, START, acts) && DiskWorks(cfg, START, acts)
    ensures AskedOnce(Run(cfg, START, acts).log)
  {
    AskedOnceFrom(cfg, START, acts);
  }
}
