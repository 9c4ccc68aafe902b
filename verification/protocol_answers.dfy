/**
 When a request is answered with an outage: a 502 exactly when its own fetch got no answer, a 500
 exactly when its own gate call got none. Where every call is answered, every answer is the uncached
 server's.
*/
module ProtocolAnswers {
  import opened Verdicts
  import opened Protocol
  import opened ProtocolLocks
  import opened ProtocolSafety
  import opened ProtocolHistory
  import opened ProtocolRefinement
  import opened ProtocolArrivals
  import opened ProtocolSettled

  /** At position j thread t asks upstream, or the gate, and gets no answer. */
  ghost predicate FetchFails(cfg: Config, acts: seq<Action>, j: nat, t: nat)
    requires Legal(cfg, START, acts)
  {
    && j < |acts| && acts[j].Step? && acts[j].t == t && !acts[j].choice.Fetched?
    && var s := StateAt(cfg, acts, j); t < |s.threads| && s.threads[t].pc.Fetch?
  }

  ghost predicate GateFails(cfg: Config, acts: seq<Action>, j: nat, t: nat)
    requires Legal(cfg, START, acts)
  {
    && j < |acts| && acts[j].Step? && acts[j].t == t && !acts[j].choice.Judged?
    && var s := StateAt(cfg, acts, j); t < |s.threads| && s.threads[t].pc.Judge?
  }

  predicate Outage(r: Response) { r.BadGateway? || r.GateFailed? }

  /** The one way to an outage in one step. */
  predicate Unanswered(pc: Pc, c: Choice, r: Response) {
    (r.BadGateway? && pc.Fetch? && !c.Fetched?) || (r.GateFailed? && pc.Judge? && !c.Judged?)
  }

  lemma ReadsAreAnswers(cfg: Config, s: State, t: nat, c: Choice, r: Response)
    requires CanStep(s, t) && Outage(r)
    requires var pc := s.threads[t].pc; pc.ReadLocator? || pc.ReadVerdict? || pc.ReadArtifact? || pc.Fetch?
    ensures StepThread(cfg, s, t, c).threads[t].pc == Reply(r) <==> Unanswered(s.threads[t].pc, c, r)
  {
    match s.threads[t].pc
    case ReadLocator => assert StepThread(cfg, s, t, c) == DoReadLocator(s, t, c);
    case ReadVerdict(d) => assert StepThread(cfg, s, t, c) == DoReadVerdict(s, t, c, d);
    case ReadArtifact(_, d) => assert StepThread(cfg, s, t, c) == DoReadArtifact(s, t, c, d);
    case Fetch => assert StepThread(cfg, s, t, c) == DoFetch(s, t, c);
  }

  lemma JudgingAnswers(cfg: Config, s: State, t: nat, c: Choice, r: Response)
    requires CanStep(s, t) && Outage(r)
    requires var pc := s.threads[t].pc; pc.CheckVerdict? || pc.Judge? || pc.ReadHistory?
    ensures StepThread(cfg, s, t, c).threads[t].pc == Reply(r) <==> Unanswered(s.threads[t].pc, c, r)
  {
    match s.threads[t].pc
    case CheckVerdict(body) => assert StepThread(cfg, s, t, c) == DoCheckVerdict(cfg, s, t, c, body);
    case Judge(body) => assert StepThread(cfg, s, t, c) == DoJudge(cfg, s, t, c, body);
    case ReadHistory(body, v) => assert StepThread(cfg, s, t, c) == DoReadHistory(s, t, c, body, v);
  }

  lemma StepToOutage(cfg: Config, s: State, t: nat, c: Choice, r: Response)
    requires CanStep(s, t) && Outage(r)
    ensures StepThread(cfg, s, t, c).threads[t].pc == Reply(r) <==> Unanswered(s.threads[t].pc, c, r)
  {
    var pc := s.threads[t].pc;
    if pc.ReadLocator? || pc.ReadVerdict? || pc.ReadArtifact? || pc.Fetch? {
      ReadsAreAnswers(cfg, s, t, c, r);
    } else if pc.CheckVerdict? || pc.Judge? || pc.ReadHistory? {
      JudgingAnswers(cfg, s, t, c, r);
    } else if pc.Store? {
      StoreEffect(cfg, s, t, c);
    }
  }

  // ---- along a schedule ----

  predicate AtReply(s: State, t: nat, r: Response) { t < |s.threads| && s.threads[t].pc == Reply(r) }

  /** Who is about to send an outage has met it. */
  lemma {:induction false} OutageHasCause(cfg: Config, acts: seq<Action>, k: nat, t: nat, r: Response) returns (j: nat)
    requires Legal(cfg, START, acts) && k <= |acts| && AtReply(StateAt(cfg, acts, k), t, r) && Outage(r)
    ensures j < k && (if r.BadGateway? then FetchFails(cfg, acts, j, t) else GateFails(cfg, acts, j, t))
    decreases k
  {
    StateStart(cfg, acts);
    StateStep(cfg, acts, k - 1);
    var s, a := StateAt(cfg, acts, k - 1), acts[k - 1];
    j := k - 1;
    if a.Step? && a.t == t {
      StepToOutage(cfg, s, t, a.choice, r);
    } else {
      if a.Step? { StepLowersRank(cfg, s, a.t, a.choice); }
      j := OutageHasCause(cfg, acts, k - 1, t, r);
    }
  }

  /** A thread at its reply stays there until it sends it, or the process dies. */
  lemma {:induction false} ReplyStays(cfg: Config, acts: seq<Action>, m: nat, k: nat, t: nat, r: Response, sent: Response)
    requires Legal(cfg, START, acts) && m <= k <= |acts|
    requires AtReply(StateAt(cfg, acts, m), t, r) && AtReply(StateAt(cfg, acts, k), t, sent)
    ensures r == sent
    decreases k - m
  {
    if m < k {
      StateStep(cfg, acts, m);
      var s, a := StateAt(cfg, acts, m), acts[m];
      if (a.Step? && a.t == t) || a.Crash? {
        var s1 := Apply(cfg, s, a);
        assert Rank(s1.threads[t].pc) <= 1;
        StateSpan(cfg, acts, m + 1, k);
        NoWayBack(cfg, s1, acts[m + 1..k], t, 1);
      } else {
        if a.Step? { StepLowersRank(cfg, s, a.t, a.choice); }
        ReplyStays(cfg, acts, m + 1, k, t, r, sent);
      }
    }
  }

  lemma FailureIsSent(cfg: Config, acts: seq<Action>, j: nat, k: nat, t: nat, sent: Response)
    requires Legal(cfg, START, acts) && j < k <= |acts| && AtReply(StateAt(cfg, acts, k), t, sent)
    ensures FetchFails(cfg, acts, j, t) ==> sent == BadGateway
    ensures GateFails(cfg, acts, j, t) ==> sent == GateFailed
  {
    if FetchFails(cfg, acts, j, t) || GateFails(cfg, acts, j, t) {
      StateStep(cfg, acts, j);
      var r := if FetchFails(cfg, acts, j, t) then BadGateway else GateFailed;
      StepToOutage(cfg, StateAt(cfg, acts, j), t, acts[j].choice, r);
      StepLowersRank(cfg, StateAt(cfg, acts, j), t, acts[j].choice);
      ReplyStays(cfg, acts, j + 1, k, t, r, sent);
    }
  }

  /** Position k is the one at which the i-th event, an answer, goes out. */
  ghost predicate Sends(cfg: Config, acts: seq<Action>, k: nat, t: nat, i: nat, req: Request, r: Response)
    requires Legal(cfg, START, acts)
  {
    && k < |acts| && acts[k].Step? && acts[k].t == t
    && var s := StateAt(cfg, acts, k); AtReply(s, t, r) && s.threads[t].req == req && |s.log| == i
  }

  lemma {:induction false} SentBy(cfg: Config, acts: seq<Action>, n: nat, i: nat, req: Request, r: Response) returns (k: nat, t: nat)
    requires Legal(cfg, START, acts) && n <= |acts|
    requires var l := StateAt(cfg, acts, n).log; i < |l| && l[i] == Responded(req, r)
    ensures k < n && Sends(cfg, acts, k, t, i, req, r)
    decreases n
  {
    StateStart(cfg, acts);
    StateStep(cfg, acts, n - 1);
    var s, a := StateAt(cfg, acts, n - 1), acts[n - 1];
    if a.Step? { LogEffect(cfg, s, a.t, a.choice); }
    if i < |s.log| {
      k, t := SentBy(cfg, acts, n - 1, i, req, r);
    } else {
      k, t := n - 1, a.t;
      assert EventOf(cfg, s.threads[t], Apply(cfg, s, a).log[i]);
    }
  }

  /**
   Every answer in the log was sent by one request thread; it was a 502 exactly when that thread's
   fetch got no answer, and a 500 exactly when its gate call got none.
  */
  lemma OutageIff(cfg: Config, acts: seq<Action>, i: nat, req: Request, r: Response) returns (k: nat, t: nat)
    requires Legal(cfg, START, acts)
    requires var log := Run(cfg, START, acts).log; i < |log| && log[i] == Responded(req, r)
    ensures Sends(cfg, acts, k, t, i, req, r)
    ensures r == BadGateway <==> exists j: nat :: j < k && FetchFails(cfg, acts, j, t)
    ensures r == GateFailed <==> exists j: nat :: j < k && GateFails(cfg, acts, j, t)
  {
    assert acts[..|acts|] == acts;
    k, t := SentBy(cfg, acts, |acts|, i, req, r);
    if Outage(r) { var j := OutageHasCause(cfg, acts, k, t, r); }
    if j: nat :| j < k && FetchFails(cfg, acts, j, t) { FailureIsSent(cfg, acts, j, k, t, r); }
    if j: nat :| j < k && GateFails(cfg, acts, j, t) { FailureIsSent(cfg, acts, j, k, t, r); }
  }

  // ---- where every call is answered ----

  predicate CallAnswered(s: State, a: Action)
    requires Enabled(s, a)
  {
    a.Step? ==>
      var pc := s.threads[a.t].pc;
      (pc.Fetch? ==> a.choice.Fetched?) && (pc.Judge? ==> a.choice.Judged?)
  }

  predicate CallsAnswered(cfg: Config, s: State, acts: seq<Action>)
    requires Legal(cfg, s, acts)
    decreases |acts|
  {
    acts == [] || (CallAnswered(s, acts[0]) && CallsAnswered(cfg, Apply(cfg, s, acts[0]), acts[1..]))
  }

  lemma {:induction false} AnsweredAt(cfg: Config, s: State, acts: seq<Action>, j: nat)
    requires Legal(cfg, s, acts) && CallsAnswered(cfg, s, acts) && j < |acts|
    ensures Legal(cfg, s, acts[..j]) && Enabled(Run(cfg, s, acts[..j]), acts[j])
    ensures CallAnswered(Run(cfg, s, acts[..j]), acts[j])
    decreases j
  {
    if j == 0 {
      assert acts[..0] == [];
    } else {
      AnsweredAt(cfg, Apply(cfg, s, acts[0]), acts[1..], j - 1);
      assert acts[..j][1..] == acts[1..][..j - 1];
    }
  }

  lemma NoOutage(cfg: Config, acts: seq<Action>, i: nat, req: Request, r: Response)
    requires Legal(cfg, START, acts) && CallsAnswered(cfg, START, acts)
    requires var log := Run(cfg, START, acts).log; i < |log| && log[i] == Responded(req, r)
    ensures !Outage(r)
  {
    var k, t := OutageIff(cfg, acts, i, req, r);
    if j: nat :| j < k && FetchFails(cfg, acts, j, t) { AnsweredAt(cfg, START, acts, j); }
    if j: nat :| j < k && GateFails(cfg, acts, j, t) { AnsweredAt(cfg, START, acts, j); }
  }

  /**
   Where every fetch and every gate call is answered, disk failures and crashes or not, every answer
   at all is the uncached server's, up to the name in a 403.
  */
  lemma EveryAnswerRefines(cfg: Config, w: World, acts: seq<Action>, i: nat, req: Request, r: Response)
    requires CollisionFree(cfg, w) && WellHashed(cfg)
    requires Legal(cfg, START, acts) && Honest(cfg, w, START, acts) && CallsAnswered(cfg, START, acts)
    requires var log := Run(cfg, START, acts).log; i < |log| && log[i] == Responded(req, r)
    ensures Blind(r) == Blind(Uncached(cfg, w, req))
    ensures r == Uncached(cfg, w, req) <==>
              (r.Refused? ==> r.verdict.artifact == req.Label(r.verdict.artifact.digest))
  {
    NoOutage(cfg, acts, i, req, r);
    CachedRefinesUncached(cfg, w, acts, i, req, r);
  }

  /** The answer in the world's own terms: what the URL holds, and what the gate thinks of it. */
  predicate AnswersPlainly(cfg: Config, w: World, req: Request, r: Response) {
    var got := w.origin(req.Key());
    if got.status != 200 then r == Response.Upstream(got.status)
    else if w.judge(got.body).decision == Allow then r == Served(got.body)
    else
      && r.Refused? && r.verdict.artifact.digest == cfg.digest(got.body)
      && r.verdict.decision == w.judge(got.body).decision && r.verdict.reason == w.judge(got.body).reason
      && r.verdict.signals == w.judge(got.body).signals && r.verdict.engine == w.judge(got.body).engine
  }

  lemma EveryAnswerIsPlain(cfg: Config, w: World, acts: seq<Action>, i: nat, req: Request, r: Response)
    requires CollisionFree(cfg, w) && WellHashed(cfg)
    requires Legal(cfg, START, acts) && Honest(cfg, w, START, acts) && CallsAnswered(cfg, START, acts)
    requires var log := Run(cfg, START, acts).log; i < |log| && log[i] == Responded(req, r)
    ensures AnswersPlainly(cfg, w, req, r)
  {
    NoOutage(cfg, acts, i, req, r);
    RightRun(cfg, w, START, acts);
    assert Matches(cfg, w, req, r);
  }

  // ---- an environment that can be asked ----

  /** What upstream, the gate and the disk say to the n-th question put to anyone; None for no answer. */
  datatype Environment = Environment(
    fetch: (nat, string) -> Option<Reply200>,
    gate: (nat, Artifact, Bytes) -> Option<Opinion>,
    disk: nat -> Choice)

  function FetchChoice(got: Option<Reply200>): Choice {
    if got.None? then Fault("") else Fetched(got.value.status, got.value.body)
  }

  function GateChoice(o: Option<Opinion>): Choice { if o.None? then Fault("") else Judged(o.value) }

  predicate AtDisk(pc: Pc) {
    pc.ReadLocator? || pc.ReadVerdict? || pc.ReadArtifact? || pc.CheckVerdict? || pc.ReadHistory? || pc.Store?
  }

  ghost predicate DiskSays(env: Environment, c: Choice) { exists n :: c == env.disk(n) }

  /**
   A fetch is of the request's own URL, a gate call about its own artifact, and these and every disk
   access get what was said.
  */
  ghost predicate AskedStep(cfg: Config, env: Environment, s: State, a: Action)
    requires Enabled(s, a)
  {
    a.Step? ==>
      var th := s.threads[a.t];
      && (th.pc.Fetch? ==> exists n :: a.choice == FetchChoice(env.fetch(n, th.req.Key())))
      && (th.pc.Judge? ==> exists n :: a.choice == GateChoice(env.gate(n, th.req.Label(cfg.digest(th.pc.body)), th.pc.body)))
      && (AtDisk(th.pc) ==> DiskSays(env, a.choice))
      && (!th.pc.Fetch? && !th.pc.Judge? && !AtDisk(th.pc) ==> a.choice.Go?)
  }

  ghost predicate Asked(cfg: Config, env: Environment, s: State, acts: seq<Action>)
    requires Legal(cfg, s, acts)
    decreases |acts|
  {
    acts == [] || (AskedStep(cfg, env, s, acts[0]) && Asked(cfg, env, Apply(cfg, s, acts[0]), acts[1..]))
  }

  lemma {:induction false} AskedConcat(cfg: Config, env: Environment, s: State, first: seq<Action>, second: seq<Action>)
    requires Legal(cfg, s, first) && Asked(cfg, env, s, first)
    requires Legal(cfg, Run(cfg, s, first), second) && Asked(cfg, env, Run(cfg, s, first), second)
    ensures Legal(cfg, s, first + second) && Asked(cfg, env, s, first + second)
    decreases |first|
  {
    RunConcat(cfg, s, first, second);
    if first == [] {
      assert first + second == second;
    } else {
      assert (first + second)[1..] == first[1..] + second;
      AskedConcat(cfg, env, Apply(cfg, s, first[0]), first[1..], second);
    }
  }

  lemma AskedSnoc(cfg: Config, env: Environment, s: State, acts: seq<Action>, a: Action)
    requires Legal(cfg, s, acts) && Asked(cfg, env, s, acts)
    requires Enabled(Run(cfg, s, acts), a) && AskedStep(cfg, env, Run(cfg, s, acts), a)
    ensures Legal(cfg, s, acts + [a]) && Asked(cfg, env, s, acts + [a])
  {
    assert [a][1..] == [];
    AskedConcat(cfg, env, s, acts, [a]);
  }

  lemma {:induction false} AskedAt(cfg: Config, env: Environment, s: State, acts: seq<Action>, j: nat)
    requires Legal(cfg, s, acts) && Asked(cfg, env, s, acts) && j < |acts|
    ensures Legal(cfg, s, acts[..j]) && Enabled(Run(cfg, s, acts[..j]), acts[j])
    ensures AskedStep(cfg, env, Run(cfg, s, acts[..j]), acts[j])
    decreases j
  {
    if j == 0 {
      assert acts[..0] == [];
    } else {
      AskedAt(cfg, env, Apply(cfg, s, acts[0]), acts[1..], j - 1);
      assert acts[..j][1..] == acts[1..][..j - 1];
    }
  }

  /** The environment always answers, and as this world. */
  ghost predicate SpeaksFor(env: Environment, w: World) {
    && (forall n, key :: env.fetch(n, key) == Some(w.origin(key)))
    && (forall n, a, body :: env.gate(n, a, body) == Some(w.judge(body)))
  }

  lemma {:induction false} AskedIsHonest(cfg: Config, env: Environment, w: World, s: State, acts: seq<Action>)
    requires Legal(cfg, s, acts) && Asked(cfg, env, s, acts) && SpeaksFor(env, w)
    ensures Honest(cfg, w, s, acts) && CallsAnswered(cfg, s, acts)
    decreases |acts|
  {
    if acts != [] { AskedIsHonest(cfg, env, w, Apply(cfg, s, acts[0]), acts[1..]); }
  }

  lemma {:induction false} AskedDiskWorks(cfg: Config, env: Environment, s: State, acts: seq<Action>)
    requires Legal(cfg, s, acts) && Asked(cfg, env, s, acts) && forall n :: env.disk(n).Go?
    ensures DiskWorks(cfg, s, acts)
    decreases |acts|
  {
    if acts != [] { AskedDiskWorks(cfg, env, Apply(cfg, s, acts[0]), acts[1..]); }
  }

  /** An answer to an asked environment: plain if it always answers, and an outage only if it once did not. */
  lemma AskedAnswer(cfg: Config, env: Environment, acts: seq<Action>, i: nat, req: Request, r: Response)
    requires WellHashed(cfg) && Legal(cfg, START, acts) && Asked(cfg, env, START, acts)
    requires var log := Run(cfg, START, acts).log; i < |log| && log[i] == Responded(req, r)
    ensures forall w :: CollisionFree(cfg, w) && SpeaksFor(env, w) ==> AnswersPlainly(cfg, w, req, r)
    ensures r == BadGateway ==> exists n :: env.fetch(n, req.Key()).None?
    ensures r == GateFailed ==> exists n, body :: env.gate(n, req.Label(cfg.digest(body)), body).None?
  {
    forall w | CollisionFree(cfg, w) && SpeaksFor(env, w) ensures AnswersPlainly(cfg, w, req, r) {
      AskedIsHonest(cfg, env, w, START, acts);
      EveryAnswerIsPlain(cfg, w, acts, i, req, r);
    }
    OutageWasMet(cfg, env, acts, i, req, r);
  }

  lemma OutageWasMet(cfg: Config, env: Environment, acts: seq<Action>, i: nat, req: Request, r: Response)
    requires Legal(cfg, START, acts) && Asked(cfg, env, START, acts)
    requires var log := Run(cfg, START, acts).log; i < |log| && log[i] == Responded(req, r)
    ensures r == BadGateway ==> exists n :: env.fetch(n, req.Key()).None?
    ensures r == GateFailed ==> exists n, body :: env.gate(n, req.Label(cfg.digest(body)), body).None?
  {
    var k, t := OutageIff(cfg, acts, i, req, r);
    if r == BadGateway {
      var j: nat :| j < k && FetchFails(cfg, acts, j, t);
      AskedAt(cfg, env, START, acts, j);
      SameRequest(cfg, acts, j, k, t);
    }
    if r == GateFailed {
      var j: nat :| j < k && GateFails(cfg, acts, j, t);
      AskedAt(cfg, env, START, acts, j);
      SameRequest(cfg, acts, j, k, t);
    }
  }

  lemma {:induction false} SameRequest(cfg: Config, acts: seq<Action>, j: nat, k: nat, t: nat)
    requires Legal(cfg, START, acts) && j <= k <= |acts| && t < |StateAt(cfg, acts, j).threads|
    ensures t < |StateAt(cfg, acts, k).threads| && StateAt(cfg, acts, k).threads[t].req == StateAt(cfg, acts, j).threads[t].req
    decreases k - j
  {
    if j < k {
      SameRequest(cfg, acts, j, k - 1, t);
      StateStep(cfg, acts, k - 1);
      if acts[k - 1].Step? { StepKeepsRequests(cfg, StateAt(cfg, acts, k - 1), acts[k - 1].t, acts[k - 1].choice); }
    }
  }
}
