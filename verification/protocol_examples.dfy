/**
 Two schedules that show where the protocol's guarantees end: a history entry lost between two
 versions of one package, and a 403 body that carries another request's name.
*/
module ProtocolExamples {
  import opened Verdicts
  import opened Protocol
  import opened ProtocolSafety
  import opened ProtocolHistory
  import opened ProtocolRefinement
  import opened ProtocolLocks
  import opened ProtocolArrivals

  /** Lock, miss, fetch, miss, judge: six steps from arrival to AppendHistory. */
  function ToHistory(t: nat, body: Bytes, o: Opinion): seq<Action> {
    [Step(t, Go), Step(t, Go), Step(t, Go), Step(t, Fetched(200, body)), Step(t, Go), Step(t, Judged(o))]
  }

  lemma Unroll(cfg: Config, s: State, acts: seq<Action>)
    requires acts != [] && Enabled(s, acts[0]) && Legal(cfg, Apply(cfg, s, acts[0]), acts[1..])
    ensures Legal(cfg, s, acts) && Run(cfg, s, acts) == Run(cfg, Apply(cfg, s, acts[0]), acts[1..])
  {
  }

  /** A newly arrived request whose key nobody has locked, with nothing cached for it. */
  predicate Cold(cfg: Config, s: State, t: nat, body: Bytes) {
    && t < |s.threads| && s.threads[t].pc.Arriving?
    && s.threads[t].req.Key() !in s.locks && s.nextMutex !in s.holder
    && LocatorFile(s.threads[t].req.Key()) !in s.disk && VerdictFile(cfg.digest(body)) !in s.disk
  }

  /** Where the six steps lead. */
  function AtHistory(cfg: Config, s: State, t: nat, body: Bytes, o: Opinion): State
    requires Cold(cfg, s, t, body)
  {
    var req := s.threads[t].req;
    var v := Attach(req.Label(cfg.digest(body)), o);
    s.(threads := s.threads[t := s.threads[t].(pc := ReadHistory(body, v), mutex := s.nextMutex)],
       locks := s.locks[req.Key() := s.nextMutex], nextMutex := s.nextMutex + 1,
       holder := s.holder[s.nextMutex := t],
       log := s.log + [Fetching(req.Key())] + [GateCalled(req.Key())] + [Issued(v)])
  }

  lemma ColdLock(cfg: Config, s: State, t: nat, body: Bytes)
    requires Cold(cfg, s, t, body)
    ensures CanStep(s, t) && CanStep(StepThread(cfg, s, t, Go), t)
    ensures var s2 := StepThread(cfg, StepThread(cfg, s, t, Go), t, Go);
            CanStep(s2, t) &&
            StepThread(cfg, s2, t, Go) ==
              s.(threads := s.threads[t := s.threads[t].(pc := Fetch, mutex := s.nextMutex)],
                 locks := s.locks[s.threads[t].req.Key() := s.nextMutex], nextMutex := s.nextMutex + 1,
                 holder := s.holder[s.nextMutex := t])
  {
  }

  lemma ColdJudge(cfg: Config, s: State, s3: State, t: nat, body: Bytes, o: Opinion)
    requires Cold(cfg, s, t, body)
    requires s3 == s.(threads := s.threads[t := s.threads[t].(pc := Fetch, mutex := s.nextMutex)],
                 locks := s.locks[s.threads[t].req.Key() := s.nextMutex], nextMutex := s.nextMutex + 1,
                 holder := s.holder[s.nextMutex := t])
    ensures CanStep(s3, t)
    ensures var s4 := StepThread(cfg, s3, t, Fetched(200, body));
            && CanStep(s4, t) && s4.threads[t].pc == CheckVerdict(body)
            && (var s5 := StepThread(cfg, s4, t, Go);
                && CanStep(s5, t) && s5.threads[t].pc == Judge(body)
                && StepThread(cfg, s5, t, Judged(o)) == AtHistory(cfg, s, t, body, o))
  {
  }

  lemma ReachHistory(cfg: Config, s: State, t: nat, body: Bytes, o: Opinion)
    requires Cold(cfg, s, t, body)
    ensures Legal(cfg, s, ToHistory(t, body, o)) && Run(cfg, s, ToHistory(t, body, o)) == AtHistory(cfg, s, t, body, o)
  {
    ColdLock(cfg, s, t, body);
    var s1 := StepThread(cfg, s, t, Go);
    var s2 := StepThread(cfg, s1, t, Go);
    var s3 := StepThread(cfg, s2, t, Go);
    ColdJudge(cfg, s, s3, t, body, o);
    var s4 := StepThread(cfg, s3, t, Fetched(200, body));
    var s5 := StepThread(cfg, s4, t, Go);
    var a := ToHistory(t, body, o);
    Unroll(cfg, s5, a[5..]);
    assert a[4..][1..] == a[5..];
    Unroll(cfg, s4, a[4..]);
    assert a[3..][1..] == a[4..];
    Unroll(cfg, s3, a[3..]);
    assert a[2..][1..] == a[3..];
    Unroll(cfg, s2, a[2..]);
    assert a[1..][1..] == a[2..];
    Unroll(cfg, s1, a[1..]);
    Unroll(cfg, s, a);
  }

  /** A whole successful `atomicWrite`. */
  function Writes(t: nat): seq<Action> { [Step(t, Go), Step(t, Go), Step(t, Go)] }

  lemma WriteSucceeds(cfg: Config, s: State, t: nat)
    requires t < |s.threads| && s.threads[t].pc.Store? && s.threads[t].pc.phase.Create? && !s.threads[t].pc.target.TempFile?
    requires TempFile(s.nextTemp) !in s.disk
    ensures Legal(cfg, s, Writes(t))
    ensures var pc := s.threads[t].pc;
            var s' := Run(cfg, s, Writes(t));
            && s'.disk == s.disk[pc.target := pc.content] && s'.nextTemp == s.nextTemp + 1
            && s'.log == s.log && |s'.threads| == |s.threads|
            && s'.threads[t].pc == After(cfg, s.threads[t].req, pc.target, pc.body, pc.verdict)
            && s'.threads[t].req == s.threads[t].req && s'.threads[t].mutex == s.threads[t].mutex
            && (forall u :: 0 <= u < |s.threads| && u != t ==> s'.threads[u] == s.threads[u])
            && s'.locks == s.locks && s'.holder == s.holder && s'.nextMutex == s.nextMutex
  {
    var pc := s.threads[t].pc;
    var s1 := StepThread(cfg, s, t, Go);
    var s2 := StepThread(cfg, s1, t, Go);
    var s3 := StepThread(cfg, s2, t, Go);
    assert s2.disk == s.disk[TempFile(s.nextTemp) := pc.content];
    assert s3.disk == s.disk[pc.target := pc.content];
    var a := Writes(t);
    Unroll(cfg, s2, a[2..]);
    assert a[1..][1..] == a[2..];
    Unroll(cfg, s1, a[1..]);
    Unroll(cfg, s, a);
  }

  // ---- the lost entry ----

  /** Both threads read the log before either writes it. */
  function LossySchedule(r: Request, q: Request, a: Bytes, b: Bytes, o: Opinion): seq<Action> {
    [Arrive(r), Arrive(q)] + ToHistory(0, a, o) + ToHistory(1, b, o) + [Step(0, Go), Step(1, Go)] + Writes(0) + Writes(1)
  }

  /**
   Two versions of one package under two URLs, so under two locks: both gates end with an append,
   both appends succeed, and the first entry is gone. The log is not append-only under the
   caller's key lock.
  */
  lemma HistoryLosesAnEntry(cfg: Config, r: Request, q: Request, a: Bytes, b: Bytes, o: Opinion)
    requires cfg.digest(a) != cfg.digest(b)
    requires r.ecosystem == q.ecosystem && r.name == q.name && r.path != q.path
    ensures var p := HistoryFile(r.ecosystem, r.name);
            var acts := LossySchedule(r, q, a, b, o);
            var early := acts[..|acts| - 3];
            && Legal(cfg, START, acts) && Legal(cfg, START, early)
            && EntriesAt(Run(cfg, START, early).disk, p) == [Entry(r.version, cfg.digest(a), o.decision)]
            && EntriesAt(Run(cfg, START, acts).disk, p) == [Entry(q.version, cfg.digest(b), o.decision)]
  {
    KeysDiffer(r, q);
    var ready := [Arrive(r), Arrive(q)] + ToHistory(0, a, o) + ToHistory(1, b, o) + [Step(0, Go), Step(1, Go)];
    BothReady(cfg, r, q, a, b, o);
    var s3 := Run(cfg, START, ready);
    WriteSucceeds(cfg, s3, 0);
    WriteSucceeds(cfg, Run(cfg, s3, Writes(0)), 1);
    RunConcat(cfg, START, ready, Writes(0));
    RunConcat(cfg, START, ready + Writes(0), Writes(1));
    var acts := LossySchedule(r, q, a, b, o);
    assert acts == ready + Writes(0) + Writes(1);
    assert acts[..|acts| - 3] == ready + Writes(0);
  }

  /** Both threads have read the empty log and are about to write. */
  lemma BothReady(cfg: Config, r: Request, q: Request, a: Bytes, b: Bytes, o: Opinion)
    requires r.ecosystem == q.ecosystem && r.name == q.name && r.Key() != q.Key()
    ensures var ready := [Arrive(r), Arrive(q)] + ToHistory(0, a, o) + ToHistory(1, b, o) + [Step(0, Go), Step(1, Go)];
            var p := HistoryFile(r.ecosystem, r.name);
            var v, u := Attach(r.Label(cfg.digest(a)), o), Attach(q.Label(cfg.digest(b)), o);
            && Legal(cfg, START, ready)
            && (var s := Run(cfg, START, ready);
                && s.disk == map[] && |s.threads| == 2
                && s.threads[0].pc == Store(p, History([Entry(r.version, cfg.digest(a), o.decision)]), Create, a, v)
                && s.threads[1].pc == Store(p, History([Entry(q.version, cfg.digest(b), o.decision)]), Create, b, u))
  {
    var p := HistoryFile(r.ecosystem, r.name);
    var s0 := BothArrived(cfg, r, q);
    ReachHistory(cfg, s0, 0, a, o);
    var s1 := Run(cfg, s0, ToHistory(0, a, o));
    ReachHistory(cfg, s1, 1, b, o);
    var s2 := Run(cfg, s1, ToHistory(1, b, o));
    var s3 := BothReadEmpty(cfg, s2, p);
    Joins(cfg, START, [Arrive(r), Arrive(q)], ToHistory(0, a, o), ToHistory(1, b, o));
    RunConcat(cfg, START, [Arrive(r), Arrive(q)] + ToHistory(0, a, o) + ToHistory(1, b, o), [Step(0, Go), Step(1, Go)]);
  }

  lemma Joins(cfg: Config, s: State, a: seq<Action>, b: seq<Action>, c: seq<Action>)
    requires Legal(cfg, s, a) && Legal(cfg, Run(cfg, s, a), b) && Legal(cfg, Run(cfg, Run(cfg, s, a), b), c)
    ensures Legal(cfg, s, a + b + c) && Run(cfg, s, a + b + c) == Run(cfg, Run(cfg, Run(cfg, s, a), b), c)
  {
    RunConcat(cfg, s, a, b);
    RunConcat(cfg, s, a + b, c);
  }

  lemma BothArrived(cfg: Config, r: Request, q: Request) returns (s: State)
    ensures Legal(cfg, START, [Arrive(r), Arrive(q)]) && s == Run(cfg, START, [Arrive(r), Arrive(q)])
    ensures s == START.(threads := [Thread(r, Arriving, 0, {}), Thread(q, Arriving, 0, {})])
  {
    var s1 := Apply(cfg, START, Arrive(r));
    s := Apply(cfg, s1, Arrive(q));
    assert [Arrive(r), Arrive(q)][1..] == [Arrive(q)];
    Unroll(cfg, s1, [Arrive(q)]);
    Unroll(cfg, START, [Arrive(r), Arrive(q)]);
  }

  lemma KeysDiffer(r: Request, q: Request)
    requires r.ecosystem == q.ecosystem && r.path != q.path
    ensures r.Key() != q.Key()
  {
    var n := |r.ecosystem| + 1;
    assert r.Key()[n..] == r.path;
    assert q.Key()[n..] == q.path;
  }

  lemma BothReadEmpty(cfg: Config, s: State, p: Path) returns (s2: State)
    requires |s.threads| == 2 && s.disk == map[]
    requires s.threads[0].pc.ReadHistory? && s.threads[1].pc.ReadHistory?
    requires forall t :: 0 <= t < 2 ==> p == HistoryFile(s.threads[t].pc.verdict.artifact.ecosystem, s.threads[t].pc.verdict.artifact.name)
    ensures Legal(cfg, s, [Step(0, Go), Step(1, Go)]) && s2 == Run(cfg, s, [Step(0, Go), Step(1, Go)])
    ensures s2.disk == map[] && s2.nextTemp == s.nextTemp && |s2.threads| == 2
    ensures forall t :: 0 <= t < 2 ==>
              var v := s.threads[t].pc.verdict;
              s2.threads[t].pc == Store(p, History([Entry(v.artifact.version, v.artifact.digest, v.decision)]), Create, s.threads[t].pc.body, v)
  {
    var s1 := StepThread(cfg, s, 0, Go);
    s2 := StepThread(cfg, s1, 1, Go);
    assert [Step(0, Go), Step(1, Go)][1..] == [Step(1, Go)];
    Unroll(cfg, s1, [Step(1, Go)]);
    Unroll(cfg, s, [Step(0, Go), Step(1, Go)]);
    forall t | 0 <= t < 2
      ensures var v := s.threads[t].pc.verdict;
              s2.threads[t].pc == Store(p, History([Entry(v.artifact.version, v.artifact.digest, v.decision)]), Create, s.threads[t].pc.body, v) {
      var v := s.threads[t].pc.verdict;
      var e := Entry(v.artifact.version, v.artifact.digest, v.decision);
      assert [] + [e] == [e];
      assert s2.threads[t].pc.content == History([] + [e]);
    }
  }

  // ---- the borrowed name ----

  /** The environment of one document: every URL asked for holds `body`, and the gate has one opinion of it. */
  predicate Uniform(w: World, body: Bytes, a: Action) {
    match a
    case Arrive(req) => Holds(w, req, body)
    case Step(_, Fetched(status, got)) => status == 200 && got == body
    case Step(_, Judged(o)) => o == w.judge(body)
    case _ => true
  }

  predicate UniformThread(w: World, body: Bytes, th: Thread) {
    Holds(w, th.req, body) && (th.pc.CheckVerdict? || th.pc.Judge? ==> th.pc.body == body)
  }

  ghost predicate UniformState(w: World, body: Bytes, s: State) {
    forall t :: 0 <= t < |s.threads| ==> UniformThread(w, body, s.threads[t])
  }

  lemma UniformRead(cfg: Config, w: World, body: Bytes, s: State, t: nat, c: Choice)
    requires CanStep(s, t) && UniformThread(w, body, s.threads[t]) && Uniform(w, body, Step(t, c))
    requires var pc := s.threads[t].pc; pc.ReadLocator? || pc.ReadVerdict? || pc.ReadArtifact? || pc.Fetch?
    ensures UniformThread(w, body, StepThread(cfg, s, t, c).threads[t])
  {
    match s.threads[t].pc
    case ReadLocator => assert StepThread(cfg, s, t, c) == DoReadLocator(s, t, c);
    case ReadVerdict(d) => assert StepThread(cfg, s, t, c) == DoReadVerdict(s, t, c, d);
    case ReadArtifact(_, d) => assert StepThread(cfg, s, t, c) == DoReadArtifact(s, t, c, d);
    case Fetch => assert StepThread(cfg, s, t, c) == DoFetch(s, t, c);
  }

  lemma UniformJudge(cfg: Config, w: World, body: Bytes, s: State, t: nat, c: Choice)
    requires CanStep(s, t) && UniformThread(w, body, s.threads[t]) && Uniform(w, body, Step(t, c))
    requires var pc := s.threads[t].pc; pc.CheckVerdict? || pc.Judge? || pc.ReadHistory?
    ensures UniformThread(w, body, StepThread(cfg, s, t, c).threads[t])
  {
    match s.threads[t].pc
    case CheckVerdict(b) => assert StepThread(cfg, s, t, c) == DoCheckVerdict(cfg, s, t, c, b);
    case Judge(b) => assert StepThread(cfg, s, t, c) == DoJudge(cfg, s, t, c, b);
    case ReadHistory(b, v) => assert StepThread(cfg, s, t, c) == DoReadHistory(s, t, c, b, v);
  }

  lemma UniformMove(cfg: Config, w: World, body: Bytes, s: State, t: nat, c: Choice)
    requires CanStep(s, t) && UniformThread(w, body, s.threads[t]) && Uniform(w, body, Step(t, c))
    ensures UniformThread(w, body, StepThread(cfg, s, t, c).threads[t])
  {
    var pc := s.threads[t].pc;
    if pc.ReadLocator? || pc.ReadVerdict? || pc.ReadArtifact? || pc.Fetch? {
      UniformRead(cfg, w, body, s, t, c);
    } else if pc.CheckVerdict? || pc.Judge? || pc.ReadHistory? {
      UniformJudge(cfg, w, body, s, t, c);
    } else if pc.Store? {
      StoreEffect(cfg, s, t, c);
    }
  }

  lemma {:induction false} UniformIsHonest(cfg: Config, w: World, body: Bytes, s: State, acts: seq<Action>)
    requires Legal(cfg, s, acts) && UniformState(w, body, s)
    requires forall i :: 0 <= i < |acts| ==> Uniform(w, body, acts[i])
    ensures Honest(cfg, w, s, acts)
    decreases |acts|
  {
    if acts != [] {
      var a := acts[0];
      if a.Step? {
        UniformMove(cfg, w, body, s, a.t, a.choice);
        StepKeepsRequests(cfg, s, a.t, a.choice);
        StepLowersRank(cfg, s, a.t, a.choice);
      }
      UniformIsHonest(cfg, w, body, Apply(cfg, s, a), acts[1..]);
    }
  }

  /** Lock, miss, fetch, find the verdict. */
  function FindsVerdict(t: nat, body: Bytes): seq<Action> {
    [Step(t, Go), Step(t, Go), Step(t, Go), Step(t, Fetched(200, body)), Step(t, Go)]
  }

  /** Fail to store artifact and locator, answer, unlock. */
  function Finishes(t: nat): seq<Action> { [Step(t, Fault("")), Step(t, Fault("")), Step(t, Go), Step(t, Go)] }

  /** One request after the other: the first leaves its verdict behind, the second finds it there. */
  function BorrowSchedule(r: Request, q: Request, body: Bytes, o: Opinion): seq<Action> {
    LeavesVerdict(r, q, body, o) + Finishes(0) + (FindsVerdict(1, body) + Finishes(1))
  }

  function LeavesVerdict(r: Request, q: Request, body: Bytes, o: Opinion): seq<Action> {
    [Arrive(r), Arrive(q)] + ToHistory(0, body, o) + [Step(0, Fault(""))] + Writes(0)
  }

  lemma Finishing(cfg: Config, s: State, t: nat, v: Verdict, body: Bytes)
    requires t < |s.threads| && s.threads[t].pc == BeginArtifact(cfg, v, body) && v.decision != Allow
    ensures Legal(cfg, s, Finishes(t))
    ensures Run(cfg, s, Finishes(t)) == s.(threads := s.threads[t := s.threads[t].(pc := Done)],
                holder := s.holder - {s.threads[t].mutex}, log := s.log + [Responded(s.threads[t].req, Refused(v))])
  {
    var a := Finishes(t);
    var s1 := StepThread(cfg, s, t, Fault(""));
    var s2 := StepThread(cfg, s1, t, Fault(""));
    assert s2.threads[t].pc == Reply(Refused(v)) && s2 == Goto(s, t, Reply(Refused(v)));
    var s3 := StepThread(cfg, s2, t, Go);
    Unroll(cfg, s3, a[3..]);
    assert a[2..][1..] == a[3..];
    Unroll(cfg, s2, a[2..]);
    assert a[1..][1..] == a[2..];
    Unroll(cfg, s1, a[1..]);
    Unroll(cfg, s, a);
  }

  /** A newly arrived request finds no lock held, and the verdict of its bytes in the store. */
  predicate Warm(cfg: Config, s: State, t: nat, body: Bytes, v: Verdict) {
    && t < |s.threads| && s.threads[t].pc.Arriving? && s.holder == map[]
    && LocatorFile(s.threads[t].req.Key()) !in s.disk
    && VerdictFile(cfg.digest(body)) in s.disk && s.disk[VerdictFile(cfg.digest(body))] == Judgement(v)
  }

  lemma WarmLock(cfg: Config, s: State, t: nat, body: Bytes, v: Verdict)
    requires Warm(cfg, s, t, body, v)
    ensures CanStep(s, t) && CanStep(StepThread(cfg, s, t, Go), t)
    ensures var s2 := StepThread(cfg, StepThread(cfg, s, t, Go), t, Go);
            && CanStep(s2, t)
            && (var s3 := StepThread(cfg, s2, t, Go);
                s3.disk == s.disk && |s3.threads| == |s.threads| && s3.threads[t].pc == Fetch && s3.threads[t].req == s.threads[t].req)
  {
  }

  lemma Finding(cfg: Config, s: State, t: nat, body: Bytes, v: Verdict)
    requires WellHashed(cfg) && Warm(cfg, s, t, body, v)
    ensures Legal(cfg, s, FindsVerdict(t, body))
    ensures var s5 := Run(cfg, s, FindsVerdict(t, body));
            t < |s5.threads| && s5.threads[t].pc == BeginArtifact(cfg, v, body) && s5.threads[t].req == s.threads[t].req
  {
    var a := FindsVerdict(t, body);
    WarmLock(cfg, s, t, body, v);
    var s1 := StepThread(cfg, s, t, Go);
    var s2 := StepThread(cfg, s1, t, Go);
    var s3 := StepThread(cfg, s2, t, Go);
    FindingAfterFetch(cfg, s3, t, body, v);
    assert a[2..][1..] == a[3..];
    Unroll(cfg, s2, a[2..]);
    assert a[1..][1..] == a[2..];
    Unroll(cfg, s1, a[1..]);
    Unroll(cfg, s, a);
  }

  lemma FindingAfterFetch(cfg: Config, s: State, t: nat, body: Bytes, v: Verdict)
    requires WellHashed(cfg) && t < |s.threads| && s.threads[t].pc == Fetch
    requires VerdictFile(cfg.digest(body)) in s.disk && s.disk[VerdictFile(cfg.digest(body))] == Judgement(v)
    ensures var a := FindsVerdict(t, body)[3..];
            && Legal(cfg, s, a)
            && (var s5 := Run(cfg, s, a);
                t < |s5.threads| && s5.threads[t].pc == BeginArtifact(cfg, v, body) && s5.threads[t].req == s.threads[t].req)
  {
    var a := FindsVerdict(t, body)[3..];
    assert a == [Step(t, Fetched(200, body)), Step(t, Go)];
    var s4 := StepThread(cfg, s, t, Fetched(200, body));
    assert s4.threads[t].pc == CheckVerdict(body) && s4.disk == s.disk;
    assert a[1..] == [Step(t, Go)];
    Unroll(cfg, s4, a[1..]);
    Unroll(cfg, s, a);
  }

  lemma SkipsHistory(cfg: Config, s: State, t: nat, body: Bytes, v: Verdict) returns (s': State)
    requires t < |s.threads| && s.threads[t].pc == ReadHistory(body, v)
    ensures Legal(cfg, s, [Step(t, Fault(""))]) && s' == Run(cfg, s, [Step(t, Fault(""))])
    ensures s' == Goto(s, t, BeginVerdict(v, body))
  {
    s' := StepThread(cfg, s, t, Fault(""));
    Unroll(cfg, s, [Step(t, Fault(""))]);
  }

  /** The first request has put its verdict on disk and the second has not begun. */
  lemma VerdictLeftBehind(cfg: Config, r: Request, q: Request, body: Bytes, o: Opinion)
    ensures var acts := LeavesVerdict(r, q, body, o);
            var v := Attach(r.Label(cfg.digest(body)), o);
            && Legal(cfg, START, acts)
            && (var s := Run(cfg, START, acts);
                && |s.threads| == 2 && s.threads[1] == Thread(q, Arriving, 0, {})
                && s.threads[0].pc == BeginArtifact(cfg, v, body) && s.holder == map[s.threads[0].mutex := 0]
                && s.disk == map[VerdictFile(cfg.digest(body)) := Judgement(v)])
  {
    var v := Attach(r.Label(cfg.digest(body)), o);
    var s0 := BothArrived(cfg, r, q);
    ReachHistory(cfg, s0, 0, body, o);
    var s1 := Run(cfg, s0, ToHistory(0, body, o));
    var s2 := SkipsHistory(cfg, s1, 0, body, v);
    WriteSucceeds(cfg, s2, 0);
    var upto := [Arrive(r), Arrive(q)] + ToHistory(0, body, o) + [Step(0, Fault(""))];
    Joins(cfg, START, [Arrive(r), Arrive(q)], ToHistory(0, body, o), [Step(0, Fault(""))]);
    RunConcat(cfg, START, upto, Writes(0));
  }

  lemma BorrowRuns(cfg: Config, r: Request, q: Request, body: Bytes, o: Opinion)
    requires WellHashed(cfg) && o.decision != Allow
    ensures Legal(cfg, START, BorrowSchedule(r, q, body, o))
    ensures var l := Run(cfg, START, BorrowSchedule(r, q, body, o)).log;
            |l| > 0 && l[|l| - 1] == Responded(q, Refused(Attach(r.Label(cfg.digest(body)), o)))
  {
    var v := Attach(r.Label(cfg.digest(body)), o);
    VerdictLeftBehind(cfg, r, q, body, o);
    var s := Run(cfg, START, LeavesVerdict(r, q, body, o));
    Finishing(cfg, s, 0, v, body);
    var s1 := Run(cfg, s, Finishes(0));
    Finding(cfg, s1, 1, body, v);
    var s2 := Run(cfg, s1, FindsVerdict(1, body));
    Finishing(cfg, s2, 1, v, body);
    RunConcat(cfg, s1, FindsVerdict(1, body), Finishes(1));
    Joins(cfg, START, LeavesVerdict(r, q, body, o), Finishes(0), FindsVerdict(1, body) + Finishes(1));
  }

  /**
   Two requests for the same refused bytes under different names, one served after the other. The
   second 403 body carries the first request's name and version, which the uncached server would not
   send.
  */
  lemma RefusalBorrowsAName(cfg: Config, w: World, r: Request, q: Request, body: Bytes)
    requires WellHashed(cfg) && r.Label("") != q.Label("")
    requires Holds(w, r, body) && Holds(w, q, body) && w.judge(body).decision != Allow
    ensures var acts := BorrowSchedule(r, q, body, w.judge(body));
            var sent := Refused(Attach(r.Label(cfg.digest(body)), w.judge(body)));
            && Legal(cfg, START, acts) && Honest(cfg, w, START, acts) && ArrivalsIn(acts, {r, q})
            && (var l := Run(cfg, START, acts).log; |l| > 0 && l[|l| - 1] == Responded(q, sent))
            && sent != Uncached(cfg, w, q)
  {
    var acts := BorrowSchedule(r, q, body, w.judge(body));
    BorrowRuns(cfg, r, q, body, w.judge(body));
    assert forall i :: 0 <= i < |acts| ==> Uniform(w, body, acts[i]);
    UniformIsHonest(cfg, w, body, START, acts);
    assert ArrivalsIn(acts, {r, q});
  }
}
