/**
 What every step of every schedule keeps about the disk, the threads' own data and the log,
 and the safety theorem that follows: nothing is served without an Allow verdict for it.
*/
module ProtocolSafety {
  import opened Verdicts
  import opened Protocol

  /** The gate has issued `v` at some earlier point. */
  ghost predicate WasIssued(log: seq<Event>, v: Verdict) { Issued(v) in log }

  /** Some issued verdict allows exactly the bytes with this digest. */
  ghost predicate AllowIssued(log: seq<Event>, digest: string) {
    exists v :: WasIssued(log, v) && v.decision == Allow && v.artifact.digest == digest
  }

  ghost predicate DistinctDigests(entries: seq<Entry>) {
    forall i, j :: 0 <= i < j < |entries| ==> entries[i].digest != entries[j].digest
  }

  /** Each entry records an issued verdict of that very package. */
  ghost predicate EntriesIssued(log: seq<Event>, ecosystem: string, name: string, entries: seq<Entry>) {
    forall i :: 0 <= i < |entries| ==> EntryIssued(log, ecosystem, name, entries[i])
  }

  ghost predicate EntryIssued(log: seq<Event>, ecosystem: string, name: string, e: Entry) {
    exists v :: WasIssued(log, v) && v.artifact == Artifact(ecosystem, name, e.version, e.digest) && v.decision == e.decision
  }

  /** The document `c` is whole and belongs at `p`. */
  ghost predicate Fits(cfg: Config, log: seq<Event>, p: Path, c: Content) {
    match p
    case ArtifactFile(d) => c.Body? && cfg.digest(c.bytes) == d
    case VerdictFile(d) => c.Judgement? && c.verdict.artifact.digest == d && WasIssued(log, c.verdict)
    case LocatorFile(_) => c.Pointer? && IsDigest(c.digest)
    case HistoryFile(eco, name) => c.History? && DistinctDigests(c.entries) && EntriesIssued(log, eco, name, c.entries)
    case TempFile(_) => true
  }

  ghost predicate DiskOk(cfg: Config, s: State) {
    && (forall p :: p in s.disk ==> Fits(cfg, s.log, p, s.disk[p]))
    && (forall p :: p in s.disk && p.TempFile? ==> p.n < s.nextTemp)
  }

  function TempOf(pc: Pc): Option<nat> {
    if !pc.Store? then None
    else match pc.phase
      case Create => None
      case Fill(n) => Some(n)
      case Rename(n) => Some(n)
      case Remove(n) => Some(n)
  }

  ghost predicate PhaseOk(s: State, content: Content, phase: Phase) {
    match phase
    case Create => true
    case Fill(n) => n < s.nextTemp
    case Rename(n) => n < s.nextTemp && TempFile(n) in s.disk && s.disk[TempFile(n)] == content
    case Remove(n) => n < s.nextTemp
  }

  ghost predicate VerdictOf(cfg: Config, log: seq<Event>, body: Bytes, v: Verdict) {
    WasIssued(log, v) && v.artifact.digest == cfg.digest(body)
  }

  ghost predicate ResponseOk(cfg: Config, log: seq<Event>, r: Response) {
    match r
    case Served(body) => AllowIssued(log, cfg.digest(body))
    case Refused(v) => WasIssued(log, v) && v.decision != Allow
    case _ => true
  }

  /** What a thread's local data mean at each program point. */
  ghost predicate PcOk(cfg: Config, s: State, pc: Pc) {
    match pc
    case ReadArtifact(v, d) => v.decision == Allow && v.artifact.digest == d && WasIssued(s.log, v)
    case ReadHistory(body, v) => VerdictOf(cfg, s.log, body, v)
    case Store(target, content, phase, body, v) =>
      !target.TempFile? && VerdictOf(cfg, s.log, body, v) && Fits(cfg, s.log, target, content) && PhaseOk(s, content, phase)
    case Reply(r) => ResponseOk(cfg, s.log, r)
    case _ => true
  }

  ghost predicate ThreadsOk(cfg: Config, s: State) {
    && (forall t :: 0 <= t < |s.threads| ==> PcOk(cfg, s, s.threads[t].pc))
    && (forall t, u :: 0 <= t < |s.threads| && 0 <= u < |s.threads| && t != u ==>
          TempOf(s.threads[t].pc).None? || TempOf(s.threads[t].pc) != TempOf(s.threads[u].pc))
  }

  /** Each response in the log is justified by the log before it. */
  ghost predicate LogOk(cfg: Config, log: seq<Event>) {
    forall i :: 0 <= i < |log| && log[i].Responded? ==> ResponseOk(cfg, log[..i], log[i].response)
  }

  ghost predicate Inv(cfg: Config, s: State) { DiskOk(cfg, s) && ThreadsOk(cfg, s) && LogOk(cfg, s.log) }

  // ---- facts only grow with the log ----

  lemma FitsGrows(cfg: Config, log: seq<Event>, more: seq<Event>, p: Path, c: Content)
    requires Fits(cfg, log, p, c)
    ensures Fits(cfg, log + more, p, c)
  {
    if p.HistoryFile? {
      forall i | 0 <= i < |c.entries| ensures EntryIssued(log + more, p.ecosystem, p.name, c.entries[i]) {
        assert EntryIssued(log, p.ecosystem, p.name, c.entries[i]);
        var v :| WasIssued(log, v) && v.artifact == Artifact(p.ecosystem, p.name, c.entries[i].version, c.entries[i].digest)
                 && v.decision == c.entries[i].decision;
        assert WasIssued(log + more, v);
      }
    }
  }

  lemma ResponseOkGrows(cfg: Config, log: seq<Event>, more: seq<Event>, r: Response)
    requires ResponseOk(cfg, log, r)
    ensures ResponseOk(cfg, log + more, r)
  {
    if r.Served? {
      var v :| WasIssued(log, v) && v.decision == Allow && v.artifact.digest == cfg.digest(r.body);
      assert WasIssued(log + more, v);
    }
  }

  /** A thread's facts survive a longer log and a disk that kept its temp file. */
  lemma PcOkGrows(cfg: Config, s: State, s': State, more: seq<Event>, pc: Pc)
    requires PcOk(cfg, s, pc)
    requires s'.log == s.log + more && s'.nextTemp >= s.nextTemp
    requires TempOf(pc).Some? && TempFile(TempOf(pc).value) in s.disk ==>
               TempFile(TempOf(pc).value) in s'.disk && s'.disk[TempFile(TempOf(pc).value)] == s.disk[TempFile(TempOf(pc).value)]
    ensures PcOk(cfg, s', pc)
  {
    match pc
    case Store(target, content, phase, body, v) => FitsGrows(cfg, s.log, more, target, content);
    case Reply(r) => ResponseOkGrows(cfg, s.log, more, r);
    case _ =>
  }

  // ---- one step ----

  /** Everything one `atomicWrite` step can do. */
  lemma StoreEffect(cfg: Config, s: State, t: nat, c: Choice)
    requires CanStep(s, t) && s.threads[t].pc.Store?
    ensures var s' := DoStore(cfg, s, t, c);
            var pc, pc' := s.threads[t].pc, s'.threads[t].pc;
            && s'.log == s.log
            && s'.threads[t].req == s.threads[t].req
            && (pc' == After(cfg, s.threads[t].req, pc.target, pc.body, pc.verdict)
                || (pc'.Store? && pc' == pc.(phase := pc'.phase)))
            && (forall p :: p != pc.target && !p.TempFile? ==>
                 ((p in s'.disk) == (p in s.disk)) && (p in s.disk ==> s'.disk[p] == s.disk[p]))
            && (pc.target in s.disk && !pc.target.TempFile? ==> pc.target in s'.disk)
            && (s'.threads[t].wrote == s.threads[t].wrote
                || (s'.threads[t].wrote == s.threads[t].wrote + {pc.target} && pc.target in s'.disk))
  {
    match s.threads[t].pc.phase
    case Create =>
    case Fill(_) =>
    case Rename(_) =>
    case Remove(_) =>
  }

  /** An event a thread can log, by where it stands. */
  predicate EventOf(cfg: Config, th: Thread, e: Event) {
    match e
    case Fetching(key) => th.pc.Fetch? && key == th.req.Key()
    case GateCalled(key) => th.pc.Judge? && key == th.req.Key()
    case Issued(v) => th.pc.Judge? && v.artifact == th.req.Label(cfg.digest(th.pc.body))
    case ReadFault(key) => key == th.req.Key() && (th.pc.ReadLocator? || th.pc.ReadVerdict? || th.pc.ReadArtifact? || th.pc.CheckVerdict?)
    case Responded(req, r) => th.pc == Reply(r) && req == th.req
  }

  ghost predicate LogsOwn(cfg: Config, s: State, t: nat, s': State)
    requires t < |s.threads|
  {
    s.log <= s'.log && forall i :: |s.log| <= i < |s'.log| ==> EventOf(cfg, s.threads[t], s'.log[i])
  }

  lemma ReadLogs(cfg: Config, s: State, t: nat, c: Choice)
    requires CanStep(s, t)
    requires var pc := s.threads[t].pc; pc.ReadLocator? || pc.ReadVerdict? || pc.ReadArtifact? || pc.Fetch?
    ensures var s' := StepThread(cfg, s, t, c); LogsOwn(cfg, s, t, s') && s'.disk == s.disk
  {
    match s.threads[t].pc
    case ReadLocator => assert StepThread(cfg, s, t, c) == DoReadLocator(s, t, c);
    case ReadVerdict(d) => assert StepThread(cfg, s, t, c) == DoReadVerdict(s, t, c, d);
    case ReadArtifact(_, d) => assert StepThread(cfg, s, t, c) == DoReadArtifact(s, t, c, d);
    case Fetch => assert StepThread(cfg, s, t, c) == DoFetch(s, t, c);
  }

  lemma JudgeLogs(cfg: Config, s: State, t: nat, c: Choice)
    requires CanStep(s, t)
    requires var pc := s.threads[t].pc; pc.CheckVerdict? || pc.Judge? || pc.ReadHistory?
    ensures var s' := StepThread(cfg, s, t, c); LogsOwn(cfg, s, t, s') && s'.disk == s.disk
  {
    match s.threads[t].pc
    case CheckVerdict(body) => assert StepThread(cfg, s, t, c) == DoCheckVerdict(cfg, s, t, c, body);
    case Judge(body) => assert StepThread(cfg, s, t, c) == DoJudge(cfg, s, t, c, body);
    case ReadHistory(body, v) => assert StepThread(cfg, s, t, c) == DoReadHistory(s, t, c, body, v);
  }

  /** A thread logs only events of its own place, and only `atomicWrite` touches the disk. */
  lemma LogEffect(cfg: Config, s: State, t: nat, c: Choice)
    requires CanStep(s, t)
    ensures var s' := StepThread(cfg, s, t, c); LogsOwn(cfg, s, t, s') && (!s.threads[t].pc.Store? ==> s'.disk == s.disk)
  {
    match s.threads[t].pc
    case ReadLocator => ReadLogs(cfg, s, t, c);
    case ReadVerdict(_) => ReadLogs(cfg, s, t, c);
    case ReadArtifact(_, _) => ReadLogs(cfg, s, t, c);
    case Fetch => ReadLogs(cfg, s, t, c);
    case CheckVerdict(_) => JudgeLogs(cfg, s, t, c);
    case Judge(_) => JudgeLogs(cfg, s, t, c);
    case ReadHistory(_, _) => JudgeLogs(cfg, s, t, c);
    case Store(_, _, _, _, _) => StoreEffect(cfg, s, t, c);
    case _ =>
  }

  /** The part of a step that matters here: thread t moves to `pc`, the log grows by `more`, the disk becomes `disk`. */
  ghost predicate Moves(s: State, t: nat, s': State, more: seq<Event>)
    requires t < |s.threads|
  {
    && |s'.threads| == |s.threads|
    && (forall u :: 0 <= u < |s.threads| && u != t ==> s'.threads[u] == s.threads[u])
    && s'.log == s.log + more
    && s'.nextTemp >= s.nextTemp
  }

  /** `disk'` is `disk` except at thread t's own temp file and at `target`. */
  ghost predicate TouchesOwn(s: State, disk': Disk, own: Option<nat>, target: Option<Path>) {
    forall p :: (own.None? || p != TempFile(own.value)) && (target.None? || p != target.value) ==>
      ((p in disk') == (p in s.disk)) && (p in s.disk ==> disk'[p] == s.disk[p])
  }

  /** The temp file an `atomicWrite` step may touch: the one it has, or the one it creates. */
  function OwnTemp(s: State, pc: Pc): nat
    requires pc.Store?
  {
    if pc.phase.Create? then s.nextTemp else TempOf(pc).value
  }

  /**
   One `atomicWrite` step changes no file but its own temporary one and its target, and the target
   either stays as it was or becomes the whole document, in one step, out of the temporary file.
  */
  lemma StoreTouchesOwn(cfg: Config, s: State, t: nat, c: Choice)
    requires Inv(cfg, s) && CanStep(s, t) && s.threads[t].pc.Store?
    ensures var s' := DoStore(cfg, s, t, c);
            var pc := s.threads[t].pc;
            && TouchesOwn(s, s'.disk, Some(OwnTemp(s, pc)), Some(pc.target))
            && (if pc.phase.Rename? && c.Go? then
                  pc.target in s'.disk && s'.disk[pc.target] == pc.content && TempFile(OwnTemp(s, pc)) !in s'.disk
                else
                  ((pc.target in s'.disk) == (pc.target in s.disk)) && (pc.target in s.disk ==> s'.disk[pc.target] == s.disk[pc.target]))
            && (forall u :: 0 <= u < |s.threads| && u != t ==> s'.threads[u] == s.threads[u] && TempOf(s.threads[u].pc) != Some(OwnTemp(s, pc)))
  {
    assert PcOk(cfg, s, s.threads[t].pc);
    forall u | 0 <= u < |s.threads| && u != t ensures TempOf(s.threads[u].pc) != Some(OwnTemp(s, s.threads[t].pc)) {
      OthersTemp(cfg, s, t, u);
    }
    match s.threads[t].pc.phase
    case Create =>
    case Fill(_) =>
    case Rename(_) =>
    case Remove(_) =>
  }

  lemma LogOkAppend(cfg: Config, log: seq<Event>, more: seq<Event>)
    requires LogOk(cfg, log)
    requires forall i :: 0 <= i < |more| && more[i].Responded? ==> ResponseOk(cfg, log, more[i].response)
    ensures LogOk(cfg, log + more)
  {
    var l := log + more;
    forall i | 0 <= i < |l| && l[i].Responded? ensures ResponseOk(cfg, l[..i], l[i].response) {
      if i < |log| {
        assert l[..i] == log[..i];
      } else {
        assert l[..i] == log + more[..i - |log|];
        ResponseOkGrows(cfg, log, more[..i - |log|], more[i - |log|].response);
      }
    }
  }

  /** The frame rule: what remains to be shown of one step. */
  lemma InvFrame(cfg: Config, s: State, t: nat, s': State, more: seq<Event>, own: Option<nat>, target: Option<Path>)
    requires Inv(cfg, s) && t < |s.threads| && Moves(s, t, s', more)
    requires TouchesOwn(s, s'.disk, own, target)
    requires target.Some? ==> !target.value.TempFile?
    requires own.Some? ==> own == TempOf(s.threads[t].pc) || own.value == s.nextTemp
    requires target.Some? && target.value in s'.disk ==> Fits(cfg, s'.log, target.value, s'.disk[target.value])
    requires own.Some? && TempFile(own.value) in s'.disk ==> own.value < s'.nextTemp
    requires PcOk(cfg, s', s'.threads[t].pc)
    requires var n := TempOf(s'.threads[t].pc); n.None? || n == TempOf(s.threads[t].pc) || n.value == s.nextTemp
    requires forall i :: 0 <= i < |more| && more[i].Responded? ==> ResponseOk(cfg, s.log, more[i].response)
    ensures Inv(cfg, s')
  {
    LogOkAppend(cfg, s.log, more);
    forall p | p in s'.disk ensures Fits(cfg, s'.log, p, s'.disk[p]) {
      if p.TempFile? || (target.Some? && p == target.value) {
      } else {
        assert p in s.disk && s'.disk[p] == s.disk[p];
        FitsGrows(cfg, s.log, more, p, s.disk[p]);
      }
    }
    forall u | 0 <= u < |s'.threads| ensures PcOk(cfg, s', s'.threads[u].pc) {
      if u != t {
        OthersTemp(cfg, s, t, u);
        PcOkGrows(cfg, s, s', more, s.threads[u].pc);
      }
    }
    forall u | 0 <= u < |s'.threads| && u != t
      ensures TempOf(s'.threads[u].pc).Some? ==> TempOf(s'.threads[u].pc) != TempOf(s'.threads[t].pc) {
      OthersTemp(cfg, s, t, u);
    }
  }

  /** Nobody else uses thread t's temp file, nor a name not handed out yet. */
  lemma OthersTemp(cfg: Config, s: State, t: nat, u: nat)
    requires Inv(cfg, s) && t < |s.threads| && u < |s.threads| && t != u
    ensures TempOf(s.threads[u].pc).Some? ==>
              TempOf(s.threads[u].pc) != TempOf(s.threads[t].pc) && TempOf(s.threads[u].pc).value < s.nextTemp
  {
    assert PcOk(cfg, s, s.threads[u].pc);
  }

  /** The frame rule for a step that leaves the disk alone and moves to a point with no temp file. */
  lemma InvQuiet(cfg: Config, s: State, t: nat, s': State, more: seq<Event>)
    requires Inv(cfg, s) && t < |s.threads| && Moves(s, t, s', more)
    requires s'.disk == s.disk
    requires PcOk(cfg, s', s'.threads[t].pc) && TempOf(s'.threads[t].pc).None?
    requires forall i :: 0 <= i < |more| && more[i].Responded? ==> ResponseOk(cfg, s.log, more[i].response)
    ensures Inv(cfg, s')
  {
    InvFrame(cfg, s, t, s', more, None, None);
  }

  /** Falling to the slow path keeps everything. */
  lemma InvToFetch(cfg: Config, s: State, t: nat, c: Choice)
    requires Inv(cfg, s) && CanStep(s, t)
    ensures Inv(cfg, ToFetch(s, t, c))
  {
    var more := if c.Go? then [] else [ReadFault(s.threads[t].req.Key())];
    InvQuiet(cfg, s, t, ToFetch(s, t, c), more);
  }

  lemma InvReadLocator(cfg: Config, s: State, t: nat, c: Choice)
    requires Inv(cfg, s) && CanStep(s, t)
    ensures Inv(cfg, DoReadLocator(s, t, c))
  {
    var s' := DoReadLocator(s, t, c);
    if s' == ToFetch(s, t, c) { InvToFetch(cfg, s, t, c); } else { InvQuiet(cfg, s, t, s', []); }
  }

  lemma InvReadVerdict(cfg: Config, s: State, t: nat, c: Choice, d: string)
    requires Inv(cfg, s) && CanStep(s, t)
    ensures Inv(cfg, DoReadVerdict(s, t, c, d))
  {
    var s' := DoReadVerdict(s, t, c, d);
    if s' == ToFetch(s, t, c) {
      InvToFetch(cfg, s, t, c);
    } else {
      assert Fits(cfg, s.log, VerdictFile(d), s.disk[VerdictFile(d)]);
      InvQuiet(cfg, s, t, s', []);
    }
  }

  lemma InvReadArtifact(cfg: Config, s: State, t: nat, c: Choice, v: Verdict, d: string)
    requires Inv(cfg, s) && CanStep(s, t) && s.threads[t].pc == ReadArtifact(v, d)
    ensures Inv(cfg, DoReadArtifact(s, t, c, d))
  {
    var s' := DoReadArtifact(s, t, c, d);
    assert PcOk(cfg, s, s.threads[t].pc);
    if s' == ToFetch(s, t, c) {
      InvToFetch(cfg, s, t, c);
    } else {
      assert Fits(cfg, s.log, ArtifactFile(d), s.disk[ArtifactFile(d)]);
      assert AllowIssued(s.log, d);
      InvQuiet(cfg, s, t, s', []);
    }
  }

  lemma BeginsOk(cfg: Config, s: State, req: Request, body: Bytes, v: Verdict)
    requires WellHashed(cfg) && VerdictOf(cfg, s.log, body, v)
    ensures PcOk(cfg, s, BeginVerdict(v, body))
    ensures PcOk(cfg, s, BeginArtifact(cfg, v, body))
    ensures PcOk(cfg, s, BeginLocator(cfg, req, v, body))
  {
  }

  lemma InvFetch(cfg: Config, s: State, t: nat, c: Choice)
    requires Inv(cfg, s) && CanStep(s, t)
    ensures Inv(cfg, DoFetch(s, t, c))
  {
    InvQuiet(cfg, s, t, DoFetch(s, t, c), [Fetching(s.threads[t].req.Key())]);
  }

  lemma InvCheckVerdict(cfg: Config, s: State, t: nat, c: Choice, body: Bytes)
    requires WellHashed(cfg) && Inv(cfg, s) && CanStep(s, t)
    ensures Inv(cfg, DoCheckVerdict(cfg, s, t, c, body))
  {
    var s' := DoCheckVerdict(cfg, s, t, c, body);
    var p := VerdictFile(cfg.digest(body));
    if s'.threads[t].pc.Judge? {
      InvQuiet(cfg, s, t, s', if c.Go? then [] else [ReadFault(s.threads[t].req.Key())]);
    } else {
      assert Fits(cfg, s.log, p, s.disk[p]);
      BeginsOk(cfg, s, s.threads[t].req, body, s.disk[p].verdict);
      assert s'.threads[t].pc == BeginArtifact(cfg, s.disk[p].verdict, body);
      InvQuiet(cfg, s, t, s', []);
    }
  }

  lemma InvJudge(cfg: Config, s: State, t: nat, c: Choice, body: Bytes)
    requires WellHashed(cfg) && Inv(cfg, s) && CanStep(s, t)
    ensures Inv(cfg, DoJudge(cfg, s, t, c, body))
  {
    var s' := DoJudge(cfg, s, t, c, body);
    var called := GateCalled(s.threads[t].req.Key());
    if c.Judged? {
      var v := s'.threads[t].pc.verdict;
      assert s'.log == s.log + [called, Issued(v)];
      assert s'.log[|s.log| + 1] == Issued(v);
      InvQuiet(cfg, s, t, s', [called, Issued(v)]);
    } else {
      InvQuiet(cfg, s, t, s', [called]);
    }
  }

  lemma InvHistory(cfg: Config, s: State, t: nat, c: Choice, body: Bytes, v: Verdict)
    requires WellHashed(cfg) && Inv(cfg, s) && CanStep(s, t) && s.threads[t].pc == ReadHistory(body, v)
    ensures Inv(cfg, DoReadHistory(s, t, c, body, v))
  {
    assert PcOk(cfg, s, s.threads[t].pc);
    var s' := DoReadHistory(s, t, c, body, v);
    var a := v.artifact;
    var p := HistoryFile(a.ecosystem, a.name);
    BeginsOk(cfg, s, s.threads[t].req, body, v);
    if s'.threads[t].pc != BeginVerdict(v, body) {
      var past := if p in s.disk then s.disk[p].entries else [];
      if p in s.disk { assert Fits(cfg, s.log, p, s.disk[p]); }
      HistoryFits(cfg, s.log, a, v, past);
    }
    InvQuiet(cfg, s, t, s', []);
  }

  /** The log that AppendHistory is about to write is again a good one. */
  lemma HistoryFits(cfg: Config, log: seq<Event>, a: Artifact, v: Verdict, past: seq<Entry>)
    requires WasIssued(log, v) && v.artifact == a
    requires DistinctDigests(past) && EntriesIssued(log, a.ecosystem, a.name, past) && !HasDigest(past, a.digest)
    ensures Fits(cfg, log, HistoryFile(a.ecosystem, a.name), History(past + [Entry(a.version, a.digest, v.decision)]))
  {
    var e := Entry(a.version, a.digest, v.decision);
    assert EntryIssued(log, a.ecosystem, a.name, e);
  }

  lemma InvStore(cfg: Config, s: State, t: nat, c: Choice)
    requires WellHashed(cfg) && Inv(cfg, s) && CanStep(s, t) && s.threads[t].pc.Store?
    ensures Inv(cfg, DoStore(cfg, s, t, c))
  {
    var pc := s.threads[t].pc;
    assert PcOk(cfg, s, pc);
    match pc.phase
    case Create => InvCreate(cfg, s, t, c);
    case Fill(n) => InvFrame(cfg, s, t, DoStore(cfg, s, t, c), [], Some(n), None);
    case Rename(n) => InvRename(cfg, s, t, c);
    case Remove(n) =>
      AfterOk(cfg, s, s.threads[t].req, pc.target, pc.body, pc.verdict);
      InvFrame(cfg, s, t, DoStore(cfg, s, t, c), [], Some(n), None);
  }

  lemma InvCreate(cfg: Config, s: State, t: nat, c: Choice)
    requires WellHashed(cfg) && Inv(cfg, s) && CanStep(s, t) && s.threads[t].pc.Store? && s.threads[t].pc.phase.Create?
    ensures Inv(cfg, DoStore(cfg, s, t, c))
  {
    var pc := s.threads[t].pc;
    assert PcOk(cfg, s, pc);
    AfterOk(cfg, s, s.threads[t].req, pc.target, pc.body, pc.verdict);
    var s' := DoStore(cfg, s, t, c);
    if c.Go? {
      InvFrame(cfg, s, t, s', [], Some(s.nextTemp), None);
    } else {
      InvQuiet(cfg, s, t, s', []);
    }
  }

  lemma InvRename(cfg: Config, s: State, t: nat, c: Choice)
    requires WellHashed(cfg) && Inv(cfg, s) && CanStep(s, t) && s.threads[t].pc.Store? && s.threads[t].pc.phase.Rename?
    ensures Inv(cfg, DoStore(cfg, s, t, c))
  {
    var pc := s.threads[t].pc;
    assert PcOk(cfg, s, pc);
    AfterOk(cfg, s, s.threads[t].req, pc.target, pc.body, pc.verdict);
    var s' := DoStore(cfg, s, t, c);
    if c.Go? {
      InvFrame(cfg, s, t, s', [], Some(pc.phase.n), Some(pc.target));
    } else {
      InvFrame(cfg, s, t, s', [], Some(pc.phase.n), None);
    }
  }

  lemma AfterOk(cfg: Config, s: State, req: Request, target: Path, body: Bytes, v: Verdict)
    requires WellHashed(cfg) && VerdictOf(cfg, s.log, body, v)
    ensures PcOk(cfg, s, After(cfg, req, target, body, v))
    ensures TempOf(After(cfg, req, target, body, v)).None?
  {
    BeginsOk(cfg, s, req, body, v);
    if v.decision == Allow { assert AllowIssued(s.log, cfg.digest(body)); }
  }

  lemma InvStep(cfg: Config, s: State, t: nat, c: Choice)
    requires WellHashed(cfg) && Inv(cfg, s) && CanStep(s, t)
    ensures Inv(cfg, StepThread(cfg, s, t, c))
  {
    match s.threads[t].pc
    case ReadLocator => InvReadLocator(cfg, s, t, c);
    case ReadVerdict(d) => InvReadVerdict(cfg, s, t, c, d);
    case ReadArtifact(v, d) => InvReadArtifact(cfg, s, t, c, v, d);
    case Fetch => InvFetch(cfg, s, t, c);
    case CheckVerdict(body) => InvCheckVerdict(cfg, s, t, c, body);
    case Judge(body) => InvJudge(cfg, s, t, c, body);
    case ReadHistory(body, v) => InvHistory(cfg, s, t, c, body, v);
    case Store(_, _, _, _, _) => InvStore(cfg, s, t, c);
    case Reply(r) =>
      assert PcOk(cfg, s, s.threads[t].pc);
      InvQuiet(cfg, s, t, StepThread(cfg, s, t, c), [Responded(s.threads[t].req, r)]);
    case Arriving => InvQuiet(cfg, s, t, StepThread(cfg, s, t, c), []);
    case Waiting => InvQuiet(cfg, s, t, StepThread(cfg, s, t, c), []);
    case Unlock => InvQuiet(cfg, s, t, StepThread(cfg, s, t, c), []);
  }

  lemma InvApply(cfg: Config, s: State, a: Action)
    requires WellHashed(cfg) && Inv(cfg, s) && Enabled(s, a)
    ensures Inv(cfg, Apply(cfg, s, a))
  {
    var s' := Apply(cfg, s, a);
    match a
    case Step(t, c) => InvStep(cfg, s, t, c);
    case Arrive(req) =>
      forall t | 0 <= t < |s'.threads| ensures PcOk(cfg, s', s'.threads[t].pc) {
        if t < |s.threads| { PcOkGrows(cfg, s, s', [], s.threads[t].pc); }
      }
    case Crash =>
      forall t | 0 <= t < |s'.threads| ensures PcOk(cfg, s', s'.threads[t].pc) {
        PcOkGrows(cfg, s, s', [], s.threads[t].pc);
      }
  }

  lemma {:induction false} InvRun(cfg: Config, s: State, acts: seq<Action>)
    requires WellHashed(cfg) && Inv(cfg, s) && Legal(cfg, s, acts)
    ensures Inv(cfg, Run(cfg, s, acts))
    decreases |acts|
  {
    if acts != [] {
      InvApply(cfg, s, acts[0]);
      InvRun(cfg, Apply(cfg, s, acts[0]), acts[1..]);
    }
  }

  // ---- the theorems ----

  /**
   Whatever the interleaving, the failing writes and the crashes: bytes go out with status 200 only
   after the gate has issued an Allow verdict for exactly their digest.
  */
  lemma ServedOnlyIfAllowed(cfg: Config, acts: seq<Action>, i: nat, req: Request, body: Bytes)
    requires WellHashed(cfg) && Legal(cfg, START, acts)
    requires var log := Run(cfg, START, acts).log; i < |log| && log[i] == Responded(req, Served(body))
    ensures var log := Run(cfg, START, acts).log;
            exists j, v :: 0 <= j < i && log[j] == Issued(v) && v.decision == Allow && v.artifact.digest == cfg.digest(body)
  {
    InvRun(cfg, START, acts);
    var log := Run(cfg, START, acts).log;
    assert ResponseOk(cfg, log[..i], log[i].response);
    var v :| WasIssued(log[..i], v) && v.decision == Allow && v.artifact.digest == cfg.digest(body);
    var j :| 0 <= j < i && log[..i][j] == Issued(v);
    assert log[j] == Issued(v);
  }

  /** ... and a refusal always carries a verdict the gate issued, and not an Allow. */
  lemma RefusedOnlyIfJudged(cfg: Config, acts: seq<Action>, i: nat, req: Request, v: Verdict)
    requires WellHashed(cfg) && Legal(cfg, START, acts)
    requires var log := Run(cfg, START, acts).log; i < |log| && log[i] == Responded(req, Refused(v))
    ensures v.decision != Allow && exists j :: 0 <= j < i && Run(cfg, START, acts).log[j] == Issued(v)
  {
    InvRun(cfg, START, acts);
    var log := Run(cfg, START, acts).log;
    assert ResponseOk(cfg, log[..i], log[i].response);
    var j :| 0 <= j < i && log[..i][j] == Issued(v);
    assert log[j] == Issued(v);
  }

  /**
   After any schedule every file a reader can open by name is a whole document in its place:
   artifacts under their own digest, verdicts under their own artifact's digest, histories with
   pairwise distinct digests of verdicts issued for that package.
  */
  lemma StoresStayWhole(cfg: Config, acts: seq<Action>, p: Path)
    requires WellHashed(cfg) && Legal(cfg, START, acts)
    requires p in Run(cfg, START, acts).disk && !p.TempFile?
    ensures var s := Run(cfg, START, acts); !s.disk[p].Torn? && Fits(cfg, s.log, p, s.disk[p])
  {
    InvRun(cfg, START, acts);
  }
}
