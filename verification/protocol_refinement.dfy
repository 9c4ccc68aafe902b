/**
 The cached server against the simple one: with immutable upstream bytes and a gate that judges
 by bytes, every answer from every reachable cache state is the answer of "fetch, judge, serve".
*/
module ProtocolRefinement {
  import opened Verdicts
  import opened Protocol
  import opened ProtocolLocks
  import opened ProtocolSafety

  datatype Reply200 = Reply200(status: int, body: Bytes)

  /** The fixed outside world: what each URL holds, and the gate's opinion of any bytes. */
  datatype World = World(origin: string -> Reply200, judge: Bytes -> Opinion)

  /** Fetch, judge, serve: no store, no lock. */
  function Uncached(cfg: Config, w: World, req: Request): Response {
    var got := w.origin(req.Key());
    if got.status != 200 then Response.Upstream(got.status)
    else
      var v := Attach(req.Label(cfg.digest(got.body)), w.judge(got.body));
      if v.decision == Allow then Served(got.body) else Refused(v)
  }

  /** The environment answers from this world, whenever it answers at all. */
  predicate HonestStep(w: World, s: State, a: Action)
    requires Enabled(s, a)
  {
    a.Step? ==>
      var th := s.threads[a.t];
      && (th.pc.Fetch? && a.choice.Fetched? ==>
            a.choice.status == w.origin(th.req.Key()).status && a.choice.body == w.origin(th.req.Key()).body)
      && (th.pc.Judge? && a.choice.Judged? ==> a.choice.opinion == w.judge(th.pc.body))
  }

  predicate Honest(cfg: Config, w: World, s: State, acts: seq<Action>)
    requires Legal(cfg, s, acts)
    decreases |acts|
  {
    acts == [] || (HonestStep(w, s, acts[0]) && Honest(cfg, w, Apply(cfg, s, acts[0]), acts[1..]))
  }

  /** `body` is what the URL of `req` holds. */
  predicate Holds(w: World, req: Request, body: Bytes) { w.origin(req.Key()) == Reply200(200, body) }

  /** The verdict says what the gate thinks of `body`. */
  predicate Speaks(cfg: Config, w: World, v: Verdict, body: Bytes) {
    v.artifact.digest == cfg.digest(body) && v == Attach(v.artifact, w.judge(body))
  }

  /** The answer is right, up to the name a 403 body carries. */
  predicate Matches(cfg: Config, w: World, req: Request, r: Response) {
    match r
    case Served(body) => Holds(w, req, body) && w.judge(body).decision == Allow
    case Refused(v) =>
      && w.origin(req.Key()).status == 200 && v.decision != Allow
      && Speaks(cfg, w, v, w.origin(req.Key()).body)
    case Upstream(status) => w.origin(req.Key()).status == status && status != 200
    case _ => true
  }

  predicate Found(w: World, k: string) { w.origin(k).status == 200 }

  /** Some URL holds `body`. */
  ghost predicate Offered(w: World, body: Bytes) { exists k :: Found(w, k) && w.origin(k).body == body }

  /** No two bodies the world offers collide. */
  ghost predicate CollisionFree(cfg: Config, w: World) {
    forall k, l :: Found(w, k) && Found(w, l) && cfg.digest(w.origin(k).body) == cfg.digest(w.origin(l).body) ==>
      w.origin(k).body == w.origin(l).body
  }

  /** Every verdict issued so far is the gate's opinion of the bytes it names. */
  ghost predicate VerdictsSpeak(cfg: Config, w: World, log: seq<Event>) {
    forall v, k :: WasIssued(log, v) && Found(w, k) && v.artifact.digest == cfg.digest(w.origin(k).body) ==>
      Speaks(cfg, w, v, w.origin(k).body)
  }

  ghost predicate LocatorsRight(cfg: Config, w: World, disk: Disk) {
    forall k :: LocatorFile(k) in disk ==>
      Found(w, k) && disk[LocatorFile(k)] == Pointer(cfg.digest(w.origin(k).body))
  }

  ghost predicate ArtifactsOffered(w: World, disk: Disk) {
    forall d :: ArtifactFile(d) in disk ==> disk[ArtifactFile(d)].Body? && Offered(w, disk[ArtifactFile(d)].bytes)
  }

  ghost predicate PcRight(cfg: Config, w: World, req: Request, pc: Pc) {
    match pc
    case ReadVerdict(d) => Found(w, req.Key()) && d == cfg.digest(w.origin(req.Key()).body)
    case ReadArtifact(_, d) => Found(w, req.Key()) && d == cfg.digest(w.origin(req.Key()).body)
    case CheckVerdict(body) => Holds(w, req, body)
    case Judge(body) => Holds(w, req, body)
    case ReadHistory(body, _) => Holds(w, req, body)
    case Store(target, content, _, body, _) =>
      && Holds(w, req, body)
      && (target.LocatorFile? ==> target.key == req.Key() && content == Pointer(cfg.digest(body)))
      && (target.ArtifactFile? ==> content == Body(body))
    case Reply(r) => Matches(cfg, w, req, r)
    case _ => true
  }

  ghost predicate LogMatches(cfg: Config, w: World, log: seq<Event>) {
    forall i :: 0 <= i < |log| && log[i].Responded? ==> Matches(cfg, w, log[i].req, log[i].response)
  }

  ghost predicate Right(cfg: Config, w: World, s: State) {
    && VerdictsSpeak(cfg, w, s.log)
    && LocatorsRight(cfg, w, s.disk)
    && ArtifactsOffered(w, s.disk)
    && (forall t :: 0 <= t < |s.threads| ==> PcRight(cfg, w, s.threads[t].req, s.threads[t].pc))
    && LogMatches(cfg, w, s.log)
  }

  /** What is left to show of one thread step. */
  lemma RightFrame(cfg: Config, w: World, s: State, t: nat, s': State, more: seq<Event>)
    requires Right(cfg, w, s) && t < |s.threads| && Moves(s, t, s', more)
    requires s'.threads[t].req == s.threads[t].req
    requires forall v, k :: Issued(v) in more && Found(w, k) && v.artifact.digest == cfg.digest(w.origin(k).body) ==>
               Speaks(cfg, w, v, w.origin(k).body)
    requires LocatorsRight(cfg, w, s'.disk) && ArtifactsOffered(w, s'.disk)
    requires PcRight(cfg, w, s'.threads[t].req, s'.threads[t].pc)
    requires forall i :: 0 <= i < |more| && more[i].Responded? ==> Matches(cfg, w, more[i].req, more[i].response)
    ensures Right(cfg, w, s')
  {
  }

  lemma RightRead(cfg: Config, w: World, s: State, t: nat, c: Choice)
    requires CollisionFree(cfg, w) && WellHashed(cfg) && Inv(cfg, s) && Right(cfg, w, s) && CanStep(s, t)
    requires var pc := s.threads[t].pc; pc.ReadLocator? || pc.ReadVerdict? || pc.ReadArtifact?
    ensures Right(cfg, w, StepThread(cfg, s, t, c))
  {
    var pc := s.threads[t].pc;
    assert PcOk(cfg, s, pc) && PcRight(cfg, w, s.threads[t].req, pc);
    var s' := StepThread(cfg, s, t, c);
    if s' == ToFetch(s, t, c) {
      RightFrame(cfg, w, s, t, s', if c.Go? then [] else [ReadFault(s.threads[t].req.Key())]);
    } else {
      var body := w.origin(s.threads[t].req.Key()).body;
      match pc {
        case ReadLocator =>
        case ReadVerdict(d) =>
          assert Fits(cfg, s.log, VerdictFile(d), s.disk[VerdictFile(d)]);
          assert Speaks(cfg, w, s.disk[VerdictFile(d)].verdict, body);
        case ReadArtifact(v, d) =>
          assert Fits(cfg, s.log, ArtifactFile(d), s.disk[ArtifactFile(d)]);
          assert Speaks(cfg, w, v, body);
      }
      RightFrame(cfg, w, s, t, s', []);
    }
  }

  lemma RightFetch(cfg: Config, w: World, s: State, t: nat, c: Choice)
    requires Right(cfg, w, s) && CanStep(s, t) && s.threads[t].pc.Fetch? && HonestStep(w, s, Step(t, c))
    ensures Right(cfg, w, DoFetch(s, t, c))
  {
    RightFrame(cfg, w, s, t, DoFetch(s, t, c), [Fetching(s.threads[t].req.Key())]);
  }

  lemma RightCheck(cfg: Config, w: World, s: State, t: nat, c: Choice, body: Bytes)
    requires Right(cfg, w, s) && CanStep(s, t) && s.threads[t].pc == CheckVerdict(body)
    ensures Right(cfg, w, DoCheckVerdict(cfg, s, t, c, body))
  {
    var s' := DoCheckVerdict(cfg, s, t, c, body);
    assert PcRight(cfg, w, s.threads[t].req, s.threads[t].pc);
    RightFrame(cfg, w, s, t, s', if s'.log == s.log then [] else [ReadFault(s.threads[t].req.Key())]);
  }

  lemma RightJudge(cfg: Config, w: World, s: State, t: nat, c: Choice, body: Bytes)
    requires CollisionFree(cfg, w) && WellHashed(cfg) && Right(cfg, w, s) && CanStep(s, t) && s.threads[t].pc == Judge(body)
    requires HonestStep(w, s, Step(t, c))
    ensures Right(cfg, w, DoJudge(cfg, s, t, c, body))
  {
    var s' := DoJudge(cfg, s, t, c, body);
    var called := GateCalled(s.threads[t].req.Key());
    assert PcRight(cfg, w, s.threads[t].req, s.threads[t].pc);
    if c.Judged? {
      assert s'.log == s.log + [called, Issued(s'.threads[t].pc.verdict)];
      RightFrame(cfg, w, s, t, s', [called, Issued(s'.threads[t].pc.verdict)]);
    } else {
      RightFrame(cfg, w, s, t, s', [called]);
    }
  }

  lemma AfterRight(cfg: Config, w: World, req: Request, target: Path, body: Bytes, v: Verdict)
    requires Holds(w, req, body) && Speaks(cfg, w, v, body)
    ensures PcRight(cfg, w, req, After(cfg, req, target, body, v))
  {
  }

  lemma WriteKeepsDisk(cfg: Config, w: World, s: State, t: nat, c: Choice)
    requires Right(cfg, w, s) && CanStep(s, t) && s.threads[t].pc.Store? && !s.threads[t].pc.phase.Rename?
    ensures LocatorsRight(cfg, w, DoStore(cfg, s, t, c).disk) && ArtifactsOffered(w, DoStore(cfg, s, t, c).disk)
  {
    match s.threads[t].pc.phase
    case Create =>
    case Fill(_) =>
    case Remove(_) =>
  }

  /** The phases that touch no file but their own temporary one. */
  lemma RightWrite(cfg: Config, w: World, s: State, t: nat, c: Choice)
    requires Inv(cfg, s) && Right(cfg, w, s) && CanStep(s, t) && s.threads[t].pc.Store? && !s.threads[t].pc.phase.Rename?
    ensures Right(cfg, w, DoStore(cfg, s, t, c))
  {
    var th := s.threads[t];
    assert PcOk(cfg, s, th.pc) && PcRight(cfg, w, th.req, th.pc);
    AfterRight(cfg, w, th.req, th.pc.target, th.pc.body, th.pc.verdict);
    WriteKeepsDisk(cfg, w, s, t, c);
    StoreEffect(cfg, s, t, c);
    hide LocatorsRight, ArtifactsOffered, Speaks, After;
    RightFrame(cfg, w, s, t, DoStore(cfg, s, t, c), []);
  }

  lemma RenameKeepsDisk(cfg: Config, w: World, s: State, t: nat, c: Choice)
    requires Inv(cfg, s) && Right(cfg, w, s) && CanStep(s, t) && s.threads[t].pc.Store? && s.threads[t].pc.phase.Rename?
    ensures LocatorsRight(cfg, w, DoStore(cfg, s, t, c).disk) && ArtifactsOffered(w, DoStore(cfg, s, t, c).disk)
  {
    assert PcOk(cfg, s, s.threads[t].pc) && PcRight(cfg, w, s.threads[t].req, s.threads[t].pc);
    assert Found(w, s.threads[t].req.Key());
  }

  lemma RightRename(cfg: Config, w: World, s: State, t: nat, c: Choice)
    requires Inv(cfg, s) && Right(cfg, w, s) && CanStep(s, t) && s.threads[t].pc.Store? && s.threads[t].pc.phase.Rename?
    ensures Right(cfg, w, DoStore(cfg, s, t, c))
  {
    var th := s.threads[t];
    assert PcOk(cfg, s, th.pc) && PcRight(cfg, w, th.req, th.pc);
    AfterRight(cfg, w, th.req, th.pc.target, th.pc.body, th.pc.verdict);
    RenameKeepsDisk(cfg, w, s, t, c);
    RightFrame(cfg, w, s, t, DoStore(cfg, s, t, c), []);
  }

  lemma RightHistory(cfg: Config, w: World, s: State, t: nat, c: Choice, body: Bytes, v: Verdict)
    requires Right(cfg, w, s) && CanStep(s, t) && s.threads[t].pc == ReadHistory(body, v)
    ensures Right(cfg, w, DoReadHistory(s, t, c, body, v))
  {
    assert PcRight(cfg, w, s.threads[t].req, s.threads[t].pc);
    RightFrame(cfg, w, s, t, DoReadHistory(s, t, c, body, v), []);
  }

  lemma RightLockOrReply(cfg: Config, w: World, s: State, t: nat, c: Choice)
    requires Right(cfg, w, s) && CanStep(s, t)
    requires var pc := s.threads[t].pc; pc.Arriving? || pc.Waiting? || pc.Unlock? || pc.Reply?
    ensures Right(cfg, w, StepThread(cfg, s, t, c))
  {
    var th := s.threads[t];
    assert PcRight(cfg, w, th.req, th.pc);
    RightFrame(cfg, w, s, t, StepThread(cfg, s, t, c), if th.pc.Reply? then [Responded(th.req, th.pc.response)] else []);
  }

  lemma RightStep(cfg: Config, w: World, s: State, t: nat, c: Choice)
    requires CollisionFree(cfg, w) && WellHashed(cfg) && Inv(cfg, s) && Right(cfg, w, s) && CanStep(s, t) && HonestStep(w, s, Step(t, c))
    ensures Right(cfg, w, StepThread(cfg, s, t, c))
  {
    match s.threads[t].pc
    case ReadLocator => RightRead(cfg, w, s, t, c);
    case ReadVerdict(_) => RightRead(cfg, w, s, t, c);
    case ReadArtifact(_, _) => RightRead(cfg, w, s, t, c);
    case Fetch => RightFetch(cfg, w, s, t, c);
    case CheckVerdict(body) => RightCheck(cfg, w, s, t, c, body);
    case Judge(body) => RightJudge(cfg, w, s, t, c, body);
    case ReadHistory(body, v) => RightHistory(cfg, w, s, t, c, body, v);
    case Store(_, _, phase, _, _) =>
      if phase.Rename? { RightRename(cfg, w, s, t, c); } else { RightWrite(cfg, w, s, t, c); }
    case _ => RightLockOrReply(cfg, w, s, t, c);
  }

  lemma {:induction false} RightRun(cfg: Config, w: World, s: State, acts: seq<Action>)
    requires CollisionFree(cfg, w) && WellHashed(cfg) && Inv(cfg, s) && Right(cfg, w, s)
    requires Legal(cfg, s, acts) && Honest(cfg, w, s, acts)
    ensures Right(cfg, w, Run(cfg, s, acts))
    decreases |acts|
  {
    if acts != [] {
      var a := acts[0];
      if a.Step? { RightStep(cfg, w, s, a.t, a.choice); }
      InvApply(cfg, s, a);
      RightRun(cfg, w, Apply(cfg, s, a), acts[1..]);
    }
  }

  /** A 403 body without the name and version it was filed under. */
  function Blind(r: Response): Response {
    match r
    case Refused(v) => Refused(v.(artifact := Artifact("", "", "", v.artifact.digest)))
    case _ => r
  }

  /**
   Refinement. An answer that is not an outage (502) or a gate failure (500) is the uncached
   server's answer to that request: always the same status, always the same bytes on a 200, and on
   a 403 the same decision, reason, signals and digest. The one difference possible is the name and
   version in a 403 body, and it shows exactly when the verdict was first issued under another name.
  */
  lemma CachedRefinesUncached(cfg: Config, w: World, acts: seq<Action>, i: nat, req: Request, r: Response)
    requires CollisionFree(cfg, w) && WellHashed(cfg) && Legal(cfg, START, acts) && Honest(cfg, w, START, acts)
    requires var log := Run(cfg, START, acts).log; i < |log| && log[i] == Responded(req, r)
    requires !r.BadGateway? && !r.GateFailed?
    ensures Blind(r) == Blind(Uncached(cfg, w, req))
    ensures r == Uncached(cfg, w, req) <==>
              (r.Refused? ==> r.verdict.artifact == req.Label(r.verdict.artifact.digest))
  {
    RightRun(cfg, w, START, acts);
    assert Matches(cfg, w, req, r);
  }

  // ---- when the 403 body is exact, too ----

  /** `v` was issued under the name of `req`, whose URL holds the bytes it names. */
  predicate FiledBy(cfg: Config, w: World, req: Request, v: Verdict) {
    w.origin(req.Key()).status == 200 && v.artifact == req.Label(cfg.digest(w.origin(req.Key()).body))
  }

  ghost predicate Filed(cfg: Config, w: World, s: State) {
    forall v :: WasIssued(s.log, v) ==> exists t :: 0 <= t < |s.threads| && FiledBy(cfg, w, s.threads[t].req, v)
  }

  lemma FiledApply(cfg: Config, w: World, s: State, a: Action)
    requires Enabled(s, a) && Filed(cfg, w, s) && Right(cfg, w, s)
    requires HonestStep(w, s, a)
    ensures Filed(cfg, w, Apply(cfg, s, a))
  {
    var s' := Apply(cfg, s, a);
    forall v | WasIssued(s'.log, v) ensures exists t :: 0 <= t < |s'.threads| && FiledBy(cfg, w, s'.threads[t].req, v) {
      KeepsRequests(cfg, s, a);
      if WasIssued(s.log, v) {
        var t :| 0 <= t < |s.threads| && FiledBy(cfg, w, s.threads[t].req, v);
        assert FiledBy(cfg, w, s'.threads[t].req, v);
      } else {
        IssuedByJudge(cfg, s, a, v);
        assert PcRight(cfg, w, s.threads[a.t].req, s.threads[a.t].pc);
        assert FiledBy(cfg, w, s'.threads[a.t].req, v);
      }
    }
  }

  lemma KeepsRequests(cfg: Config, s: State, a: Action)
    requires Enabled(s, a)
    ensures |s.threads| <= |Apply(cfg, s, a).threads|
    ensures forall t :: 0 <= t < |s.threads| ==> Apply(cfg, s, a).threads[t].req == s.threads[t].req
  {
    if a.Step? && Inside(s.threads[a.t].pc) && !s.threads[a.t].pc.Unlock? { InnerStep(cfg, s, a.t, a.choice); }
  }

  lemma IssuedByJudge(cfg: Config, s: State, a: Action, v: Verdict)
    requires Enabled(s, a) && !WasIssued(s.log, v) && WasIssued(Apply(cfg, s, a).log, v)
    ensures a.Step? && s.threads[a.t].pc.Judge?
    ensures v.artifact == s.threads[a.t].req.Label(cfg.digest(s.threads[a.t].pc.body))
  {
    var s' := Apply(cfg, s, a);
    if a.Step? {
      LogEffect(cfg, s, a.t, a.choice);
      var i :| 0 <= i < |s'.log| && s'.log[i] == Issued(v);
      assert s.log == s'.log[..|s.log|];
    }
  }

  lemma {:induction false} FiledRun(cfg: Config, w: World, s: State, acts: seq<Action>)
    requires CollisionFree(cfg, w) && WellHashed(cfg) && Inv(cfg, s) && Right(cfg, w, s) && Filed(cfg, w, s)
    requires Legal(cfg, s, acts) && Honest(cfg, w, s, acts)
    ensures Filed(cfg, w, Run(cfg, s, acts))
    decreases |acts|
  {
    if acts != [] {
      var a := acts[0];
      if a.Step? { RightStep(cfg, w, s, a.t, a.choice); }
      InvApply(cfg, s, a);
      FiledApply(cfg, w, s, a);
      FiledRun(cfg, w, Apply(cfg, s, a), acts[1..]);
    }
  }

  /**
   If no request so far asked for the same bytes under another name or version, the 403 body is the
   uncached server's too, so the two servers cannot be told apart.
  */
  lemma ExactUnlessRenamed(cfg: Config, w: World, acts: seq<Action>, i: nat, req: Request, r: Response)
    requires CollisionFree(cfg, w) && WellHashed(cfg) && Legal(cfg, START, acts) && Honest(cfg, w, START, acts)
    requires var log := Run(cfg, START, acts).log; i < |log| && log[i] == Responded(req, r)
    requires !r.BadGateway? && !r.GateFailed?
    requires forall t :: 0 <= t < |Run(cfg, START, acts).threads| ==>
               var u := Run(cfg, START, acts).threads[t].req;
               w.origin(u.Key()) == w.origin(req.Key()) ==> u.Label("") == req.Label("")
    ensures r == Uncached(cfg, w, req)
  {
    CachedRefinesUncached(cfg, w, acts, i, req, r);
    if r.Refused? {
      InvRun(cfg, START, acts);
      RightRun(cfg, w, START, acts);
      FiledRun(cfg, w, START, acts);
      var s := Run(cfg, START, acts);
      assert ResponseOk(cfg, s.log[..i], r) && Matches(cfg, w, req, r);
      assert WasIssued(s.log, r.verdict);
      var t :| 0 <= t < |s.threads| && FiledBy(cfg, w, s.threads[t].req, r.verdict);
      assert w.origin(s.threads[t].req.Key()) == w.origin(req.Key());
      assert s.threads[t].req.Label("") == req.Label("");
    }
  }
}
