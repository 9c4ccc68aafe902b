/**
 The gate-and-serve protocol: many request threads over one on-disk cache.

 Every access to shared state is one step, so a schedule (a sequence of actions) fixes an
 interleaving. A store write is the temp-file protocol of `atomicWrite`: create, fill, rename,
 and a deferred remove on the failing paths; each of them may fail, and the process may crash
 between any two steps.
*/
module Protocol {
  import opened Verdicts

  // ---- the disk ----

  datatype Path =
    | ArtifactFile(digest: string)
    | VerdictFile(digest: string)
    | LocatorFile(key: string)
    | HistoryFile(ecosystem: string, name: string)
    | TempFile(n: nat)

  datatype Entry = Entry(version: string, digest: string, decision: Decision)

  /** What a file holds. `Torn` is an incomplete write: some bytes, and no document. */
  datatype Content =
    | Body(bytes: Bytes)
    | Judgement(verdict: Verdict)
    | Pointer(digest: string)
    | History(entries: seq<Entry>)
    | Torn(raw: Bytes)

  type Disk = map<Path, Content>

  // ---- requests ----

  datatype Request = Request(ecosystem: string, path: string, name: string, version: string) {
    function Key(): string { ecosystem + ":" + path }
    function Label(digest: string): Artifact { Artifact(ecosystem, name, version, digest) }
  }

  datatype Response =
    | Served(body: Bytes)          // 200
    | Refused(verdict: Verdict)    // 403 with the verdict as body
    | Upstream(status: int)        // upstream's own status passed on
    | BadGateway                   // 502
    | GateFailed                   // 500

  /** Progress of one `atomicWrite`. */
  datatype Phase = Create | Fill(n: nat) | Rename(n: nat) | Remove(n: nat)

  /** The program counter of a request thread. */
  datatype Pc =
    | Arriving
    | Waiting
    | ReadLocator
    | ReadVerdict(digest: string)
    | ReadArtifact(verdict: Verdict, digest: string)
    | Fetch
    | CheckVerdict(body: Bytes)
    | Judge(body: Bytes)
    | ReadHistory(body: Bytes, verdict: Verdict)
    | Store(target: Path, content: Content, phase: Phase, body: Bytes, verdict: Verdict)
    | Reply(response: Response)
    | Unlock
    | Done
    | Killed

  /** `wrote` is bookkeeping only: the store targets this thread found or put in place. */
  datatype Thread = Thread(req: Request, pc: Pc, mutex: nat, wrote: set<Path>)

  datatype Event =
    | Fetching(key: string)
    | GateCalled(key: string)
    | Issued(verdict: Verdict)
    | ReadFault(key: string)
    | Responded(req: Request, response: Response)

  datatype State = State(
    threads: seq<Thread>,
    disk: Disk,
    nextTemp: nat,
    locks: map<string, nat>,   // keyedMutex.locks: key -> mutex object
    nextMutex: nat,
    holder: map<nat, nat>,     // locked mutex -> thread holding it
    log: seq<Event>)

  const START := State([], map[], 0, map[], 0, map[], [])

  /** A gate's answer, before it is attached to an artifact. */
  datatype Opinion = Opinion(decision: Decision, reason: string, signals: seq<Signal>, engine: string)

  /** Both gates return the artifact they were asked about. */
  function Attach(a: Artifact, o: Opinion): Verdict { Verdict(a, o.decision, o.reason, o.signals, o.engine) }

  /** What the environment decides at one step: go on, fail, or an answer from outside. */
  datatype Choice =
    | Go
    | Fault(raw: Bytes)
    | Fetched(status: int, body: Bytes)
    | Judged(opinion: Opinion)

  datatype Action = Arrive(req: Request) | Step(t: nat, choice: Choice) | Crash

  /** The digest function is a parameter. */
  datatype Config = Config(digest: Bytes -> string)

  const DIGEST_PREFIX := "sha256:"

  predicate IsHex(c: char) { '0' <= c <= '9' || 'a' <= c <= 'f' || 'A' <= c <= 'F' }

  /** parseSHA256 succeeds. */
  predicate IsDigest(s: string) {
    |s| == 71 && s[..7] == DIGEST_PREFIX && forall i :: 7 <= i < 71 ==> IsHex(s[i])
  }

  /** 64 hexadecimal digits after the name of the algorithm, and nothing else. */
  lemma DigestMeans(s: string)
    ensures IsDigest(s) <==> exists hex :: |hex| == 64 && (forall i :: 0 <= i < 64 ==> IsHex(hex[i])) && s == "sha256:" + hex
  {
    if IsDigest(s) {
      var hex := s[7..];
      assert s == "sha256:" + hex;
      forall i | 0 <= i < 64 ensures IsHex(hex[i]) { assert hex[i] == s[i + 7]; }
    }
  }

  /** Digests have the form the stores accept. Freedom from collisions is asked for only where it is needed. */
  ghost predicate WellHashed(cfg: Config) { forall b :: IsDigest(cfg.digest(b)) }

  // ---- steps ----

  predicate Live(pc: Pc) { !pc.Done? && !pc.Killed? }

  /** Holding the per-key lock. */
  predicate Inside(pc: Pc) { Live(pc) && !pc.Arriving? && !pc.Waiting? }

  predicate CanStep(s: State, t: nat) {
    && t < |s.threads|
    && Live(s.threads[t].pc)
    && (s.threads[t].pc.Waiting? ==> s.threads[t].mutex !in s.holder)
  }

  predicate Enabled(s: State, a: Action) { a.Step? ==> CanStep(s, a.t) }

  function Goto(s: State, t: nat, pc: Pc): State
    requires t < |s.threads|
  {
    s.(threads := s.threads[t := s.threads[t].(pc := pc)])
  }

  function Note(s: State, e: Event): State { s.(log := s.log + [e]) }

  /** This thread has seen, or put, the right document at `p`. */
  function Mark(s: State, t: nat, p: Path): State
    requires t < |s.threads|
  {
    s.(threads := s.threads[t := s.threads[t].(wrote := s.threads[t].wrote + {p})])
  }

  function GetMutex(s: State, t: nat): State
    requires t < |s.threads|
  {
    var key := s.threads[t].req.Key();
    if key in s.locks then
      s.(threads := s.threads[t := s.threads[t].(pc := Waiting, mutex := s.locks[key])])
    else
      s.(threads := s.threads[t := s.threads[t].(pc := Waiting, mutex := s.nextMutex)],
         locks := s.locks[key := s.nextMutex], nextMutex := s.nextMutex + 1)
  }

  /** A failed read and a missing or unusable file all lead to the slow path; only the first is a fault. */
  function ToFetch(s: State, t: nat, c: Choice): State
    requires t < |s.threads|
  {
    var s1 := if c.Go? then s else Note(s, ReadFault(s.threads[t].req.Key()));
    Goto(s1, t, Fetch)
  }

  function DoReadLocator(s: State, t: nat, c: Choice): State
    requires t < |s.threads|
  {
    var p := LocatorFile(s.threads[t].req.Key());
    if c.Go? && p in s.disk && s.disk[p].Pointer? && IsDigest(s.disk[p].digest) then
      Goto(s, t, ReadVerdict(s.disk[p].digest))
    else
      ToFetch(s, t, c)
  }

  function DoReadVerdict(s: State, t: nat, c: Choice, digest: string): State
    requires t < |s.threads|
  {
    var p := VerdictFile(digest);
    if c.Go? && IsDigest(digest) && p in s.disk && s.disk[p].Judgement? then
      var v := s.disk[p].verdict;
      if v.decision != Allow then Goto(s, t, Reply(Refused(v)))
      else Goto(s, t, ReadArtifact(v, digest))
    else
      ToFetch(s, t, c)
  }

  /** Reading an artifact returns whatever bytes the file holds. */
  function DoReadArtifact(s: State, t: nat, c: Choice, digest: string): State
    requires t < |s.threads|
  {
    var p := ArtifactFile(digest);
    if c.Go? && IsDigest(digest) && p in s.disk && s.disk[p].Body? then Goto(s, t, Reply(Served(s.disk[p].bytes)))
    else if c.Go? && IsDigest(digest) && p in s.disk && s.disk[p].Torn? then Goto(s, t, Reply(Served(s.disk[p].raw)))
    else ToFetch(s, t, c)
  }

  function DoFetch(s: State, t: nat, c: Choice): State
    requires t < |s.threads|
  {
    var s1 := Note(s, Fetching(s.threads[t].req.Key()));
    match c
    case Fetched(status, body) =>
      if status == 200 then Goto(s1, t, CheckVerdict(body)) else Goto(s1, t, Reply(Upstream(status)))
    case _ => Goto(s1, t, Reply(BadGateway))
  }

  function BeginVerdict(v: Verdict, body: Bytes): Pc {
    Store(VerdictFile(v.artifact.digest), Judgement(v), Create, body, v)
  }

  function BeginArtifact(cfg: Config, v: Verdict, body: Bytes): Pc {
    Store(ArtifactFile(cfg.digest(body)), Body(body), Create, body, v)
  }

  function BeginLocator(cfg: Config, req: Request, v: Verdict, body: Bytes): Pc {
    Store(LocatorFile(req.Key()), Pointer(cfg.digest(body)), Create, body, v)
  }

  function DoCheckVerdict(cfg: Config, s: State, t: nat, c: Choice, body: Bytes): State
    requires t < |s.threads|
  {
    var p := VerdictFile(cfg.digest(body));
    if c.Go? && IsDigest(cfg.digest(body)) && p in s.disk && s.disk[p].Judgement? then
      Goto(Mark(s, t, p), t, BeginArtifact(cfg, s.disk[p].verdict, body))
    else
      var s1 := if c.Go? then s else Note(s, ReadFault(s.threads[t].req.Key()));
      Goto(s1, t, Judge(body))
  }

  function DoJudge(cfg: Config, s: State, t: nat, c: Choice, body: Bytes): State
    requires t < |s.threads|
  {
    var req := s.threads[t].req;
    var s1 := Note(s, GateCalled(req.Key()));
    match c
    case Judged(opinion) =>
      var v := Attach(req.Label(cfg.digest(body)), opinion);
      Goto(Note(s1, Issued(v)), t, ReadHistory(body, v))
    case _ => Goto(s1, t, Reply(GateFailed))
  }

  predicate HasDigest(entries: seq<Entry>, digest: string) {
    exists i :: 0 <= i < |entries| && entries[i].digest == digest
  }

  /** Read the package log; on success rewrite it whole with one more entry. */
  function DoReadHistory(s: State, t: nat, c: Choice, body: Bytes, v: Verdict): State
    requires t < |s.threads|
  {
    var a := v.artifact;
    var p := HistoryFile(a.ecosystem, a.name);
    var e := Entry(a.version, a.digest, v.decision);
    if !c.Go? || (p in s.disk && !s.disk[p].History?) then Goto(s, t, BeginVerdict(v, body))
    else
      var past := if p in s.disk then s.disk[p].entries else [];
      if HasDigest(past, e.digest) then Goto(s, t, BeginVerdict(v, body))
      else Goto(s, t, Store(p, History(past + [e]), Create, body, v))
  }

  /** Where a thread goes when an atomicWrite has ended, well or badly: the writes are best-effort. */
  function After(cfg: Config, req: Request, target: Path, body: Bytes, v: Verdict): Pc {
    match target
    case HistoryFile(_, _) => BeginVerdict(v, body)
    case VerdictFile(_) => BeginArtifact(cfg, v, body)
    case ArtifactFile(_) => BeginLocator(cfg, req, v, body)
    case _ => Reply(if v.decision != Allow then Refused(v) else Served(body))
  }

  function DoStore(cfg: Config, s: State, t: nat, c: Choice): State
    requires t < |s.threads| && s.threads[t].pc.Store?
  {
    var pc := s.threads[t].pc;
    var next := After(cfg, s.threads[t].req, pc.target, pc.body, pc.verdict);
    match pc.phase
    case Create =>
      if c.Go? then
        Goto(s.(disk := s.disk[TempFile(s.nextTemp) := Torn("")], nextTemp := s.nextTemp + 1), t,
             pc.(phase := Fill(s.nextTemp)))
      else Goto(s, t, next)
    case Fill(n) =>
      if c.Go? then Goto(s.(disk := s.disk[TempFile(n) := pc.content]), t, pc.(phase := Rename(n)))
      else
        var raw := if c.Fault? then c.raw else "";
        Goto(s.(disk := s.disk[TempFile(n) := Torn(raw)]), t, pc.(phase := Remove(n)))
    case Rename(n) =>
      if c.Go? && TempFile(n) in s.disk then
        var moved := (s.disk - {TempFile(n)})[pc.target := s.disk[TempFile(n)]];
        Goto(Mark(s.(disk := moved), t, pc.target), t, next)
      else Goto(s, t, pc.(phase := Remove(n)))
    case Remove(n) =>
      Goto(if c.Go? then s.(disk := s.disk - {TempFile(n)}) else s, t, next)
  }

  function StepThread(cfg: Config, s: State, t: nat, c: Choice): State
    requires CanStep(s, t)
  {
    var th := s.threads[t];
    match th.pc
    case Arriving => GetMutex(s, t)
    case Waiting => Goto(s.(holder := s.holder[th.mutex := t]), t, ReadLocator)
    case ReadLocator => DoReadLocator(s, t, c)
    case ReadVerdict(digest) => DoReadVerdict(s, t, c, digest)
    case ReadArtifact(_, digest) => DoReadArtifact(s, t, c, digest)
    case Fetch => DoFetch(s, t, c)
    case CheckVerdict(body) => DoCheckVerdict(cfg, s, t, c, body)
    case Judge(body) => DoJudge(cfg, s, t, c, body)
    case ReadHistory(body, v) => DoReadHistory(s, t, c, body, v)
    case Store(_, _, _, _, _) => DoStore(cfg, s, t, c)
    case Reply(r) => Goto(Note(s, Responded(th.req, r)), t, Unlock)
    case Unlock => Goto(s.(holder := s.holder - {th.mutex}), t, Done)
  }

  /** A crash kills every running request and empties the in-memory mutex table; files stay. */
  function DoCrash(s: State): State {
    s.(threads := seq(|s.threads|, i requires 0 <= i < |s.threads| =>
         if Live(s.threads[i].pc) then s.threads[i].(pc := Killed) else s.threads[i]),
       locks := map[], holder := map[])
  }

  function Apply(cfg: Config, s: State, a: Action): State
    requires Enabled(s, a)
  {
    match a
    case Arrive(req) => s.(threads := s.threads + [Thread(req, Arriving, 0, {})])
    case Step(t, c) => StepThread(cfg, s, t, c)
    case Crash => DoCrash(s)
  }

  /** The schedule can be played from `s`. */
  predicate Legal(cfg: Config, s: State, acts: seq<Action>)
    decreases |acts|
  {
    acts == [] || (Enabled(s, acts[0]) && Legal(cfg, Apply(cfg, s, acts[0]), acts[1..]))
  }

  function Run(cfg: Config, s: State, acts: seq<Action>): State
    requires Legal(cfg, s, acts)
    decreases |acts|
  {
    if acts == [] then s else Run(cfg, Apply(cfg, s, acts[0]), acts[1..])
  }

  /** Playing one more action at the end. */
  lemma {:induction false} RunSnoc(cfg: Config, s: State, acts: seq<Action>, a: Action)
    requires Legal(cfg, s, acts) && Enabled(Run(cfg, s, acts), a)
    ensures Legal(cfg, s, acts + [a])
    ensures Run(cfg, s, acts + [a]) == Apply(cfg, Run(cfg, s, acts), a)
    decreases |acts|
  {
    if acts == [] {
      assert acts + [a] == [a];
      assert [a][1..] == [];
    } else {
      assert (acts + [a])[1..] == acts[1..] + [a];
      RunSnoc(cfg, Apply(cfg, s, acts[0]), acts[1..], a);
    }
  }

  /** Playing two schedules one after the other. */
  lemma {:induction false} RunConcat(cfg: Config, s: State, first: seq<Action>, second: seq<Action>)
    requires Legal(cfg, s, first) && Legal(cfg, Run(cfg, s, first), second)
    ensures Legal(cfg, s, first + second)
    ensures Run(cfg, s, first + second) == Run(cfg, Run(cfg, s, first), second)
    decreases |first|
  {
    if first == [] {
      assert first + second == second;
    } else {
      assert (first + second)[1..] == first[1..] + second;
      RunConcat(cfg, Apply(cfg, s, first[0]), first[1..], second);
    }
  }
}
