/**
 The request handler as code: one request at a time, over the cache object. Each statement that
 touches shared state is followed in the state machine, so whatever this code does, for any sequence
 of requests and any answers and failures of its environment, is a run of the protocol.
*/
module Server {
  import opened Verdicts
  import opened Protocol
  import opened ProtocolLocks
  import opened ProtocolSafety
  import opened ProtocolWrites
  import opened ProtocolRefinement
  import opened ProtocolAnswers
  import opened ProtocolSettled
  import opened Store

  /** Only the last thread has moved. */
  ghost predicate OthersStay(before: State, after: State) {
    && |before.threads| == |after.threads| > 0
    && before.threads[|before.threads| - 1].req == after.threads[|before.threads| - 1].req
    && before.threads[..|before.threads| - 1] == after.threads[..|before.threads| - 1]
  }

  lemma Chain(a: State, b: State, c: State)
    requires OthersStay(a, b) && OthersStay(b, c)
    ensures OthersStay(a, c)
  {
  }

  /** The state machine's reads in terms of the store's. */
  lemma ReadArtifactStep(cfg: Config, s: State, t: nat, c: Choice, v: Verdict, digest: string)
    requires CanStep(s, t) && s.threads[t].pc == ReadArtifact(v, digest)
    ensures StepThread(cfg, s, t, c) ==
              if c.Go? && BytesAt(s.disk, digest).Some? then Goto(s, t, Reply(Served(BytesAt(s.disk, digest).value)))
              else ToFetch(s, t, c)
  {
  }

  lemma ReadVerdictStep(cfg: Config, s: State, t: nat, c: Choice, digest: string)
    requires CanStep(s, t) && s.threads[t].pc == ReadVerdict(digest)
    ensures StepThread(cfg, s, t, c) ==
              var v := VerdictAt(s.disk, digest);
              if c.Go? && v.Some? then
                Goto(s, t, if v.value.decision != Allow then Reply(Refused(v.value)) else ReadArtifact(v.value, digest))
              else ToFetch(s, t, c)
  {
  }

  lemma LockSteps(cfg: Config, s: State, t: nat)
    requires CanStep(s, t) && s.threads[t].pc == Arriving
    ensures StepThread(cfg, s, t, Go) == GetMutex(s, t)
  {
  }

  /** Unlocking frees the one mutex held. */
  lemma UnlockStep(cfg: Config, s: State, t: nat, m: nat)
    requires CanStep(s, t) && s.threads[t].pc == Pc.Unlock && ThreadLocks(s, t) && s.holder.Keys == {m}
    ensures StepThread(cfg, s, t, Go) == Goto(s.(holder := s.holder - {m}), t, Done) && (s.holder - {m}).Keys == {}
  {
    assert s.threads[t].mutex in s.holder.Keys;
  }

  lemma ReadHistoryStep(s: State, t: nat, c: Choice, body: Bytes, v: Verdict)
    requires t < |s.threads|
    ensures var a := v.artifact;
            var past := HistoryAt(s.disk, a.ecosystem, a.name);
            var e := Entry(a.version, a.digest, v.decision);
            DoReadHistory(s, t, c, body, v) ==
              Goto(s, t, if c.Go? && past.Some? && !HasDigest(past.value, e.digest)
                         then Store(HistoryFile(a.ecosystem, a.name), History(past.value + [e]), Create, body, v)
                         else BeginVerdict(v, body))
  {
  }

  ghost predicate FaultsFrom(env: Environment, f: Faults) {
    DiskSays(env, f.create) && DiskSays(env, f.fill) && DiskSays(env, f.rename) && DiskSays(env, f.remove)
  }

  lemma {:induction false} WritesAsk(cfg: Config, env: Environment, s: State, acts: seq<Action>, f: Faults)
    requires Legal(cfg, s, acts) && OnlyWrites(cfg, s, acts, f) && FaultsFrom(env, f)
    ensures Asked(cfg, env, s, acts)
    decreases |acts|
  {
    if acts != [] { WritesAsk(cfg, env, Apply(cfg, s, acts[0]), acts[1..], f); }
  }

  class Handler {
    const cfg: Config
    const env: Environment        // upstream, the gate, and whether the disk works
    const cache: Cache
    var clock: nat
    var locks: map<string, nat>   // keyedMutex.locks
    var nextMutex: nat
    var held: set<nat>
    ghost var acts: seq<Action>
    ghost var model: State

    ghost predicate Valid()
      reads this, cache
    {
      && cache.Valid() && WellHashed(cfg)
      && Legal(cfg, START, acts) && model == Run(cfg, START, acts) && Asked(cfg, env, START, acts)
      && model.disk == cache.disk && model.nextTemp == cache.nextTemp
      && model.locks == locks && model.nextMutex == nextMutex && model.holder.Keys == held
    }

    /** The request being served is at `pc`. */
    ghost predicate At(req: Request, pc: Pc)
      reads this
    {
      |model.threads| > 0 && model.threads[|model.threads| - 1].req == req && model.threads[|model.threads| - 1].pc == pc
    }

    /** No request is being served. */
    ghost predicate Quiet()
      reads this
    {
      AllOver(model)
    }

    constructor (cfg: Config, env: Environment)
      requires WellHashed(cfg)
      ensures Valid() && Quiet() && this.cfg == cfg && this.env == env && fresh(cache)
    {
      this.cfg := cfg;
      this.env := env;
      this.cache := new Cache();
      clock := 0;
      locks := map[];
      nextMutex := 0;
      held := {};
      acts := [];
      model := START;
    }

    method Choose() returns (c: Choice)
      modifies this`clock
      ensures DiskSays(env, c)
    {
      c := env.disk(clock);
      clock := clock + 1;
    }

    method ChooseFaults() returns (f: Faults)
      modifies this`clock
      ensures FaultsFrom(env, f)
    {
      var create := Choose();
      var fill := Choose();
      var rename := Choose();
      var remove := Choose();
      f := Faults(create, fill, rename, remove);
    }

    /** The last thread takes one step of the state machine. */
    ghost method Follow(c: Choice)
      requires Legal(cfg, START, acts) && model == Run(cfg, START, acts) && Asked(cfg, env, START, acts)
      requires |model.threads| > 0 && CanStep(model, |model.threads| - 1)
      requires AskedStep(cfg, env, model, Step(|model.threads| - 1, c))
      modifies this`acts, this`model
      ensures Legal(cfg, START, acts) && model == Run(cfg, START, acts) && Asked(cfg, env, START, acts)
      ensures acts == old(acts) + [Step(|old(model.threads)| - 1, c)]
      ensures model == StepThread(cfg, old(model), |old(model.threads)| - 1, c)
    {
      var a := Step(|model.threads| - 1, c);
      RunSnoc(cfg, START, acts, a);
      AskedSnoc(cfg, env, START, acts, a);
      acts := acts + [a];
      model := Apply(cfg, model, a);
    }

    /** The last thread plays a whole atomic write. */
    ghost method FollowWrite(f: Faults)
      requires FaultsFrom(env, f)
      requires Legal(cfg, START, acts) && model == Run(cfg, START, acts) && Asked(cfg, env, START, acts)
      requires |model.threads| > 0 && Writing(model, |model.threads| - 1, Create) && TempFile(model.nextTemp) !in model.disk
      modifies this`acts, this`model
      ensures Legal(cfg, START, acts) && model == Run(cfg, START, acts) && old(acts) <= acts && Asked(cfg, env, START, acts)
      ensures OthersStay(old(model), model)
      ensures Ended(cfg, old(model), |old(model.threads)| - 1, model,
                    var pc := old(model).threads[|old(model.threads)| - 1].pc;
                    Written(old(model).disk, old(model).nextTemp, pc.target, pc.content, f))
      ensures model.nextTemp == old(model).nextTemp + if f.create.Go? then 1 else 0
    {
      var more := WriteEnds(cfg, model, |model.threads| - 1, f);
      RunConcat(cfg, START, acts, more);
      WritesAsk(cfg, env, model, more, f);
      AskedConcat(cfg, env, START, acts, more);
      acts := acts + more;
      model := Run(cfg, model, more);
    }

    method Save(req: Request, target: Path, content: Content, ghost body: Bytes, ghost v: Verdict)
      requires Valid() && At(req, Store(target, content, Create, body, v)) && !target.TempFile?
      modifies this`clock, this`acts, this`model, cache
      ensures Valid() && At(req, After(cfg, req, target, body, v))
      ensures old(acts) <= acts && OthersStay(old(model), model)
    {
      hide Legal, Run, Asked;
      var f := ChooseFaults();
      var done := cache.AtomicWrite(target, content, f);
      FollowWrite(f);
    }

    method GetLocator(req: Request) returns (d: Option<string>)
      requires Valid() && At(req, ReadLocator)
      modifies this`clock, this`acts, this`model
      ensures Valid() && At(req, if d.Some? then ReadVerdict(d.value) else Fetch)
      ensures old(acts) <= acts && OthersStay(old(model), model)
    {
      hide Legal, Run, Asked;
      var c := Choose();
      d := cache.GetLocator(req.Key(), c.Go?);
      Follow(c);
    }

    method GetVerdict(req: Request, digest: string) returns (v: Option<Verdict>)
      requires Valid() && At(req, ReadVerdict(digest))
      modifies this`clock, this`acts, this`model
      ensures Valid()
      ensures At(req, if v.None? then Fetch
                      else if v.value.decision != Allow then Reply(Refused(v.value))
                      else ReadArtifact(v.value, digest))
      ensures old(acts) <= acts && OthersStay(old(model), model)
    {
      hide Legal, Run, Asked, StepThread;
      var c := Choose();
      v := cache.GetVerdict(digest, c.Go?);
      ReadVerdictStep(cfg, model, |model.threads| - 1, c, digest);
      Follow(c);
    }

    method GetArtifact(req: Request, ghost v: Verdict, digest: string) returns (b: Option<Bytes>)
      requires Valid() && At(req, ReadArtifact(v, digest))
      modifies this`clock, this`acts, this`model
      ensures Valid() && At(req, if b.Some? then Reply(Served(b.value)) else Fetch)
      ensures old(acts) <= acts && OthersStay(old(model), model)
    {
      hide Legal, Run, Asked, StepThread;
      var c := Choose();
      b := cache.GetArtifact(digest, c.Go?);
      ReadArtifactStep(cfg, model, |model.threads| - 1, c, v, digest);
      Follow(c);
    }

    /** The three reads of the fast path: an answer, or on to the slow path. */
    method FastPath(req: Request) returns (r: Option<Response>)
      requires Valid() && At(req, ReadLocator)
      modifies this`clock, this`acts, this`model
      ensures Valid() && At(req, if r.Some? then Reply(r.value) else Fetch)
      ensures old(acts) <= acts && OthersStay(old(model), model)
    {
      hide *;
      ghost var s0 := model;
      var digest := GetLocator(req);
      if digest.None? { return None; }
      ghost var s1 := model;
      var v := GetVerdict(req, digest.value);
      Chain(s0, s1, model);
      if v.None? { return None; }
      if v.value.decision != Allow { return Some(Refused(v.value)); }
      ghost var s2 := model;
      var b := GetArtifact(req, v.value, digest.value);
      Chain(s0, s2, model);
      r := if b.Some? then Some(Served(b.value)) else None;
    }

    method FetchUpstream(req: Request) returns (got: Option<Reply200>)
      requires Valid() && At(req, Fetch)
      modifies this`clock, this`acts, this`model
      ensures Valid() && old(acts) <= acts && OthersStay(old(model), model)
      ensures At(req, match got
                      case Some(res) => if res.status == 200 then CheckVerdict(res.body) else Reply(Response.Upstream(res.status))
                      case None => Reply(BadGateway))
    {
      hide Legal, Run, Asked;
      got := env.fetch(clock, req.Key());
      Follow(FetchChoice(got));
      clock := clock + 1;
    }

    /** The verdict already stored for these bytes. */
    method FindVerdict(req: Request, body: Bytes) returns (v: Option<Verdict>)
      requires Valid() && At(req, CheckVerdict(body))
      modifies this`clock, this`acts, this`model
      ensures Valid() && old(acts) <= acts && OthersStay(old(model), model)
      ensures At(req, if v.Some? then BeginArtifact(cfg, v.value, body) else Judge(body))
    {
      hide Legal, Run, Asked;
      var c := Choose();
      v := cache.GetVerdict(cfg.digest(body), c.Go?);
      Follow(c);
    }

    /** The gate's opinion comes from outside. */
    method AskGate(req: Request, body: Bytes) returns (o: Option<Opinion>)
      requires Valid() && At(req, Judge(body))
      modifies this`clock, this`acts, this`model
      ensures Valid() && old(acts) <= acts && OthersStay(old(model), model)
      ensures At(req, match o
                      case Some(opinion) => ReadHistory(body, Attach(req.Label(cfg.digest(body)), opinion))
                      case None => Reply(GateFailed))
    {
      hide Legal, Run, Asked;
      o := env.gate(clock, req.Label(cfg.digest(body)), body);
      Follow(GateChoice(o));
      clock := clock + 1;
    }

    /** The gate: an opinion, attached to the artifact, then the package log. */
    method Admit(req: Request, body: Bytes) returns (v: Option<Verdict>)
      requires Valid() && At(req, Judge(body))
      modifies this`clock, this`acts, this`model, cache
      ensures Valid() && old(acts) <= acts && OthersStay(old(model), model)
      ensures At(req, if v.Some? then BeginVerdict(v.value, body) else Reply(GateFailed))
    {
      hide *;
      ghost var s0 := model;
      var o := AskGate(req, body);
      match o
      case Some(opinion) =>
        var verdict := Attach(req.Label(cfg.digest(body)), opinion);
        ghost var s1 := model;
        RecordHistory(req, body, verdict);
        Chain(s0, s1, model);
        v := Some(verdict);
      case None => v := None;
    }

    /** The last thread reads the log and, if there is something to add, writes it. */
    ghost method FollowAppend(body: Bytes, v: Verdict, c: Choice, f: Faults)
      requires DiskSays(env, c) && FaultsFrom(env, f)
      requires Legal(cfg, START, acts) && model == Run(cfg, START, acts) && Asked(cfg, env, START, acts)
      requires |model.threads| > 0 && model.threads[|model.threads| - 1].pc == ReadHistory(body, v)
      requires TempFile(model.nextTemp) !in model.disk
      modifies this`acts, this`model
      ensures Legal(cfg, START, acts) && model == Run(cfg, START, acts) && old(acts) <= acts && Asked(cfg, env, START, acts)
      ensures OthersStay(old(model), model) && model.threads[|model.threads| - 1].pc == BeginVerdict(v, body)
      ensures model.locks == old(model).locks && model.nextMutex == old(model).nextMutex && model.holder == old(model).holder
      ensures var a, e := v.artifact, Entry(v.artifact.version, v.artifact.digest, v.decision);
              var past := HistoryAt(old(model).disk, a.ecosystem, a.name);
              if c.Go? && past.Some? && !HasDigest(past.value, e.digest) then
                && model.disk == Written(old(model).disk, old(model).nextTemp, HistoryFile(a.ecosystem, a.name), History(past.value + [e]), f)
                && model.nextTemp == old(model).nextTemp + if f.create.Go? then 1 else 0
              else model.disk == old(model).disk && model.nextTemp == old(model).nextTemp
    {
      var past := HistoryAt(model.disk, v.artifact.ecosystem, v.artifact.name);
      var writes := c.Go? && past.Some? && !HasDigest(past.value, v.artifact.digest);
      ReadHistoryStep(model, |model.threads| - 1, c, body, v);
      Follow(c);
      if writes { FollowWrite(f); }
    }

    method RecordHistory(req: Request, ghost body: Bytes, v: Verdict)
      requires Valid() && At(req, ReadHistory(body, v))
      modifies this`clock, this`acts, this`model, cache
      ensures Valid() && old(acts) <= acts && OthersStay(old(model), model)
      ensures At(req, BeginVerdict(v, body))
    {
      hide Legal, Run, Asked;
      var a := v.artifact;
      var c := Choose();
      var f := ChooseFaults();
      var wrote := cache.AppendHistory(a.ecosystem, a.name, Entry(a.version, a.digest, v.decision), c.Go?, f);
      FollowAppend(body, v, c, f);
    }

    method SaveVerdict(req: Request, body: Bytes, v: Verdict)
      requires Valid() && At(req, BeginVerdict(v, body))
      modifies this`clock, this`acts, this`model, cache
      ensures Valid() && old(acts) <= acts && OthersStay(old(model), model)
      ensures At(req, BeginArtifact(cfg, v, body))
    {
      hide Legal, Run, Asked;
      Save(req, VerdictFile(v.artifact.digest), Judgement(v), body, v);
    }

    /** The stored verdict for these bytes, or a new one from the gate, then stored. */
    method Judged(req: Request, body: Bytes) returns (v: Option<Verdict>)
      requires Valid() && At(req, CheckVerdict(body))
      modifies this`clock, this`acts, this`model, cache
      ensures Valid() && old(acts) <= acts && OthersStay(old(model), model)
      ensures At(req, if v.Some? then BeginArtifact(cfg, v.value, body) else Reply(GateFailed))
    {
      hide *;
      ghost var s0 := model;
      v := FindVerdict(req, body);
      if v.Some? { return; }
      ghost var s1 := model;
      v := Admit(req, body);
      Chain(s0, s1, model);
      if v.Some? {
        ghost var s2 := model;
        SaveVerdict(req, body, v.value);
        Chain(s0, s2, model);
      }
    }

    /** Store the bytes and the locator, whatever the verdict, and answer. */
    method Keep(req: Request, body: Bytes, v: Verdict) returns (r: Response)
      requires Valid() && At(req, BeginArtifact(cfg, v, body))
      modifies this`clock, this`acts, this`model, cache
      ensures Valid() && At(req, Reply(r)) && old(acts) <= acts && OthersStay(old(model), model)
    {
      hide Legal, Run, Asked;
      Save(req, ArtifactFile(cfg.digest(body)), Body(body), body, v);
      Save(req, LocatorFile(req.Key()), Pointer(cfg.digest(body)), body, v);
      r := if v.decision != Allow then Refused(v) else Served(body);
    }

    method SlowPath(req: Request) returns (r: Response)
      requires Valid() && At(req, Fetch)
      modifies this`clock, this`acts, this`model, cache
      ensures Valid() && At(req, Reply(r)) && old(acts) <= acts && OthersStay(old(model), model)
    {
      hide *;
      ghost var s0 := model;
      var got := FetchUpstream(req);
      if got.None? { return BadGateway; }
      var res := got.value;
      if res.status != 200 { return Response.Upstream(res.status); }
      ghost var s1 := model;
      var v := Judged(req, res.body);
      Chain(s0, s1, model);
      if v.None? { return GateFailed; }
      ghost var s2 := model;
      r := Keep(req, res.body, v.value);
      Chain(s0, s2, model);
    }

    /** The first half of keyedMutex.lock: the key's mutex, made on first use. */
    method FindMutex(req: Request) returns (m: nat)
      requires Valid() && At(req, Arriving)
      modifies this`locks, this`nextMutex, this`acts, this`model
      ensures Valid() && At(req, Waiting) && model.threads[|model.threads| - 1].mutex == m
      ensures old(acts) <= acts && OthersStay(old(model), model)
      ensures req.Key() in locks && locks[req.Key()] == m
      ensures forall k :: k in old(locks) ==> k in locks && locks[k] == old(locks)[k]
    {
      hide Legal, Run, Asked, StepThread;
      if req.Key() in locks {
        m := locks[req.Key()];
      } else {
        m := nextMutex;
        locks := locks[req.Key() := m];
        nextMutex := nextMutex + 1;
      }
      LockSteps(cfg, model, |model.threads| - 1);
      Follow(Go);
    }

    /** The second half: the mutex is free and is taken. */
    method Acquire(req: Request, m: nat)
      requires Valid() && At(req, Waiting) && model.threads[|model.threads| - 1].mutex == m && held == {}
      modifies this`held, this`acts, this`model
      ensures Valid() && At(req, ReadLocator) && held == {m}
      ensures old(acts) <= acts && OthersStay(old(model), model)
    {
      hide Legal, Run, Asked;
      held := held + {m};
      Follow(Go);
    }

    /** keyedMutex.lock: one mutex per key for ever, and nobody else holds it. */
    method Lock(req: Request) returns (m: nat)
      requires Valid() && At(req, Arriving) && held == {}
      modifies this`locks, this`nextMutex, this`held, this`acts, this`model
      ensures Valid() && At(req, ReadLocator) && held == {m}
      ensures old(acts) <= acts && OthersStay(old(model), model)
      ensures req.Key() in locks && locks[req.Key()] == m
      ensures forall k :: k in old(locks) ==> k in locks && locks[k] == old(locks)[k]
    {
      hide *;
      ghost var s0 := model;
      m := FindMutex(req);
      ghost var s1 := model;
      Acquire(req, m);
      Chain(s0, s1, model);
    }

    /** Between lock and unlock. */
    method Answer(req: Request) returns (r: Response)
      requires Valid() && At(req, ReadLocator)
      modifies this`clock, this`acts, this`model, cache
      ensures Valid() && At(req, Reply(r)) && old(acts) <= acts && OthersStay(old(model), model)
    {
      hide *;
      ghost var s0 := model;
      var fast := FastPath(req);
      if fast.Some? { return fast.value; }
      ghost var s1 := model;
      r := SlowPath(req);
      Chain(s0, s1, model);
    }

    ghost method Arrive(req: Request)
      requires Valid() && Quiet()
      modifies this`acts, this`model
      ensures Valid() && At(req, Arriving) && held == {} && acts == old(acts) + [Action.Arrive(req)]
      ensures model == old(model).(threads := old(model).threads + [Thread(req, Arriving, 0, {})])
    {
      LockInvRun(cfg, START, acts);
      HeldByTheLiving(model);
      RunSnoc(cfg, START, acts, Action.Arrive(req));
      AskedSnoc(cfg, env, START, acts, Action.Arrive(req));
      acts := acts + [Action.Arrive(req)];
      model := Apply(cfg, model, Action.Arrive(req));
    }

    /** The answer goes out. */
    ghost method Respond(req: Request, r: Response)
      requires Valid() && At(req, Reply(r))
      modifies this`acts, this`model
      ensures Valid() && At(req, Pc.Unlock) && old(acts) <= acts && OthersStay(old(model), model)
      ensures |model.log| > 0 && model.log[|model.log| - 1] == Responded(req, r)
    {
      Follow(Go);
    }

    /** The lock is released. */
    method Unlock(req: Request, m: nat)
      requires Valid() && At(req, Pc.Unlock) && held == {m}
      modifies this`held, this`acts, this`model
      ensures Valid() && At(req, Done) && old(acts) <= acts && OthersStay(old(model), model)
      ensures model.log == old(model).log
    {
      hide Legal, Run, Asked, StepThread;
      LockInvRun(cfg, START, acts);
      assert ThreadLocks(model, |model.threads| - 1);
      UnlockStep(cfg, model, |model.threads| - 1, m);
      held := held - {m};
      Follow(Go);
    }

    method Locked(req: Request) returns (r: Response)
      requires Valid() && At(req, Arriving) && held == {}
      modifies this`clock, this`locks, this`nextMutex, this`held, this`acts, this`model, cache
      ensures Valid() && At(req, Done) && old(acts) <= acts && OthersStay(old(model), model)
      ensures |model.log| > 0 && model.log[|model.log| - 1] == Responded(req, r)
    {
      hide *;
      ghost var s0 := model;
      var m := Lock(req);
      ghost var s1 := model;
      r := Answer(req);
      Chain(s0, s1, model);
      ghost var s2 := model;
      Respond(req, r);
      Chain(s0, s2, model);
      ghost var s3 := model;
      Unlock(req, m);
      Chain(s0, s3, model);
    }

    /** A request served on an idle handler leaves it idle. */
    method Serve(req: Request) returns (r: Response)
      requires Valid() && Quiet()
      modifies this`clock, this`locks, this`nextMutex, this`held, this`acts, this`model, cache
      ensures Valid() && Quiet() && old(acts) <= acts
      ensures |model.log| > 0 && model.log[|model.log| - 1] == Responded(req, r)
    {
      hide Legal, Run, Asked;
      ghost var before := model;
      Arrive(req);
      ghost var arrived := model;
      r := Locked(req);
      OverAgain(before, arrived, model);
    }

    /**
     The whole request. It leaves the handler idle and its trace one run of the protocol longer; that
     run ends with this answer, so a 200 carries bytes whose digest the gate has allowed, and a 403 a
     verdict the gate has issued and that does not allow. If upstream and the gate always answer, as
     one world, the answer is what that world makes of the request, whatever was cached before; a 502 or
     500 means that upstream, or the gate, was asked about this request and did not answer. While the
     disk works, no URL answered from its bytes is ever fetched or judged again.
    */
    method ServeArtifact(req: Request) returns (r: Response)
      requires Valid() && Quiet()
      modifies this`clock, this`locks, this`nextMutex, this`held, this`acts, this`model, cache
      ensures Valid() && Quiet() && old(acts) <= acts
      ensures |model.log| > 0 && model.log[|model.log| - 1] == Responded(req, r)
      ensures ResponseOk(cfg, model.log, r)
      ensures forall w :: CollisionFree(cfg, w) && SpeaksFor(env, w) ==> AnswersPlainly(cfg, w, req, r)
      ensures r == BadGateway ==> exists n :: env.fetch(n, req.Key()).None?
      ensures r == GateFailed ==> exists n, body :: env.gate(n, req.Label(cfg.digest(body)), body).None?
      ensures (forall n :: env.disk(n).Go?) ==> AskedOnce(model.log)
    {
      r := Serve(req);
      LastAnswerOk(cfg, acts, req, r);
      AskedAnswer(cfg, env, acts, |model.log| - 1, req, r);
      if forall n :: env.disk(n).Go? {
        AskedDiskWorks(cfg, env, START, acts);
        AskedOnceRun(cfg, acts);
      }
    }
  }

  lemma HeldByTheLiving(s: State)
    requires LockInv(s)
    ensures forall m :: m in s.holder ==> s.holder[m] < |s.threads| && Live(s.threads[s.holder[m]].pc)
  {
    forall m | m in s.holder ensures s.holder[m] < |s.threads| && Live(s.threads[s.holder[m]].pc) {
      assert HolderOk(s, m);
    }
  }

  lemma OverAgain(before: State, s0: State, after: State)
    requires AllOver(before) && |s0.threads| == |before.threads| + 1 && s0.threads[..|before.threads|] == before.threads
    requires OthersStay(s0, after) && after.threads[|after.threads| - 1].pc == Done
    ensures AllOver(after)
  {
    forall t | 0 <= t < |after.threads| ensures !Live(after.threads[t].pc) {
      if t < |before.threads| { assert after.threads[t] == s0.threads[..|before.threads|][t]; }
    }
  }

  lemma LastAnswerOk(cfg: Config, acts: seq<Action>, req: Request, r: Response)
    requires WellHashed(cfg) && Legal(cfg, START, acts)
    requires var l := Run(cfg, START, acts).log; |l| > 0 && l[|l| - 1] == Responded(req, r)
    ensures ResponseOk(cfg, Run(cfg, START, acts).log, r)
  {
    InvRun(cfg, START, acts);
    var l := Run(cfg, START, acts).log;
    assert ResponseOk(cfg, l[..|l| - 1], r);
    ResponseOkGrows(cfg, l[..|l| - 1], [l[|l| - 1]], r);
    assert l == l[..|l| - 1] + [l[|l| - 1]];
  }
}
