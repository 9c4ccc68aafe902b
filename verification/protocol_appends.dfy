/**
 The package log along a whole run: when each log is a prefix of every later one, and for which
 requests that is so in every schedule.
*/
module ProtocolAppends {
  import opened Verdicts
  import opened Protocol
  import opened ProtocolLocks
  import opened ProtocolSafety
  import opened ProtocolHistory
  import opened ProtocolArrivals
  import opened ProtocolExamples

  /** At position i thread t reads the log p, to append to it. */
  ghost predicate ReadsLog(cfg: Config, acts: seq<Action>, i: nat, t: nat, p: Path)
    requires Legal(cfg, START, acts)
  {
    && i < |acts| && acts[i] == Step(t, Go)
    && var s := StateAt(cfg, acts, i);
       t < |s.threads| && s.threads[t].pc.ReadHistory? && LogOf(s, t) == p
  }

  /** At position j thread t puts its new version of p in place. */
  ghost predicate PutsLog(cfg: Config, acts: seq<Action>, j: nat, t: nat, p: Path)
    requires Legal(cfg, START, acts)
  {
    && j < |acts| && acts[j] == Step(t, Go)
    && var s := StateAt(cfg, acts, j);
       t < |s.threads| && s.threads[t].pc.Store? && s.threads[t].pc.target == p && s.threads[t].pc.phase.Rename?
  }

  /** No append to p is finished between the read and the rename of another. */
  ghost predicate Uninterleaved(cfg: Config, acts: seq<Action>, p: Path)
    requires Legal(cfg, START, acts)
  {
    forall i: nat, j: nat, k: nat, t: nat, u: nat ::
      (ReadsLog(cfg, acts, i, t, p) && PutsLog(cfg, acts, j, t, p) && PutsLog(cfg, acts, k, u, p) && i < k < j) ==> u == t
  }

  function LogAt(cfg: Config, acts: seq<Action>, k: nat, p: Path): seq<Entry>
    requires Legal(cfg, START, acts) && k <= |acts|
  {
    EntriesAt(StateAt(cfg, acts, k).disk, p)
  }

  // ---- every append has its read ----

  predicate AtStoreOf(s: State, t: nat, p: Path) {
    t < |s.threads| && s.threads[t].pc.Store? && s.threads[t].pc.target == p
  }

  predicate OfPackage(r: Request, p: Path) { HistoryFile(r.ecosystem, r.name) == p }

  /** The places where a thread deals with a log. */
  predicate AtLog(pc: Pc) { pc.ReadHistory? || (pc.Store? && pc.target.HistoryFile?) }

  lemma ReadingIsNotLogging(cfg: Config, s: State, t: nat, c: Choice)
    requires CanStep(s, t)
    requires var pc := s.threads[t].pc; pc.ReadLocator? || pc.ReadVerdict? || pc.ReadArtifact? || pc.Fetch? || pc.CheckVerdict?
    ensures !AtLog(StepThread(cfg, s, t, c).threads[t].pc)
  {
    match s.threads[t].pc
    case ReadLocator => assert StepThread(cfg, s, t, c) == DoReadLocator(s, t, c);
    case ReadVerdict(d) => assert StepThread(cfg, s, t, c) == DoReadVerdict(s, t, c, d);
    case ReadArtifact(_, d) => assert StepThread(cfg, s, t, c) == DoReadArtifact(s, t, c, d);
    case Fetch => assert StepThread(cfg, s, t, c) == DoFetch(s, t, c);
    case CheckVerdict(body) => assert StepThread(cfg, s, t, c) == DoCheckVerdict(cfg, s, t, c, body);
  }

  /** A thread writes to the log of its own request's package. */
  predicate OwnLog(th: Thread) {
    && (th.pc.ReadHistory? ==> OfPackage(th.req, HistoryFile(th.pc.verdict.artifact.ecosystem, th.pc.verdict.artifact.name)))
    && (th.pc.Store? && th.pc.target.HistoryFile? ==> OfPackage(th.req, th.pc.target))
  }

  lemma JudgingLeadsToTheLog(cfg: Config, s: State, t: nat, c: Choice)
    requires CanStep(s, t) && s.threads[t].pc.Judge?
    ensures var th := StepThread(cfg, s, t, c).threads[t]; !th.pc.Store? && OwnLog(th)
  {
    assert StepThread(cfg, s, t, c) == DoJudge(cfg, s, t, c, s.threads[t].pc.body);
  }

  lemma LogReadLeadsToStore(cfg: Config, s: State, t: nat, c: Choice)
    requires CanStep(s, t) && s.threads[t].pc.ReadHistory?
    ensures var pc := StepThread(cfg, s, t, c).threads[t].pc;
            pc.Store? && (pc.target.HistoryFile? ==> c == Go && pc.target == LogOf(s, t))
  {
    assert StepThread(cfg, s, t, c) == DoReadHistory(s, t, c, s.threads[t].pc.body, s.threads[t].pc.verdict);
  }

  /** A thread gets to store a log only by reading it, and to read it only by judging. */
  lemma LogOrigin(cfg: Config, s: State, t: nat, c: Choice)
    requires CanStep(s, t) && AtLog(StepThread(cfg, s, t, c).threads[t].pc)
    ensures var th' := StepThread(cfg, s, t, c).threads[t];
            if th'.pc.ReadHistory? then s.threads[t].pc.Judge? && OwnLog(th')
            else AtStoreOf(s, t, th'.pc.target)
                 || (s.threads[t].pc.ReadHistory? && c == Go && LogOf(s, t) == th'.pc.target)
  {
    var pc := s.threads[t].pc;
    if pc.Store? {
      StoreEffect(cfg, s, t, c);
    } else if pc.ReadHistory? {
      LogReadLeadsToStore(cfg, s, t, c);
    } else if pc.Judge? {
      JudgingLeadsToTheLog(cfg, s, t, c);
    } else if pc.ReadLocator? || pc.ReadVerdict? || pc.ReadArtifact? || pc.Fetch? || pc.CheckVerdict? {
      ReadingIsNotLogging(cfg, s, t, c);
    }
  }

  lemma {:induction false} StoreHasRead(cfg: Config, acts: seq<Action>, k: nat, t: nat, p: Path) returns (i: nat)
    requires Legal(cfg, START, acts) && k <= |acts| && p.HistoryFile? && AtStoreOf(StateAt(cfg, acts, k), t, p)
    ensures i < k && ReadsLog(cfg, acts, i, t, p)
    decreases k
  {
    StateStart(cfg, acts);
    StateStep(cfg, acts, k - 1);
    var s, a := StateAt(cfg, acts, k - 1), acts[k - 1];
    i := k - 1;
    if a.Step? && a.t == t {
      LogOrigin(cfg, s, t, a.choice);
      if AtStoreOf(s, t, p) { i := StoreHasRead(cfg, acts, k - 1, t, p); }
    } else {
      OthersKeepPlace(cfg, s, a, t, p);
      i := StoreHasRead(cfg, acts, k - 1, t, p);
    }
  }

  lemma OthersKeepPlace(cfg: Config, s: State, a: Action, t: nat, p: Path)
    requires Enabled(s, a) && !(a.Step? && a.t == t) && AtStoreOf(Apply(cfg, s, a), t, p)
    ensures AtStoreOf(s, t, p)
  {
    if a.Step? { StepLowersRank(cfg, s, a.t, a.choice); }
  }

  // ---- what changes the log ----

  /** The log of a package changes only when a new version of it is renamed into place. */
  lemma LogStays(cfg: Config, s: State, a: Action, p: Path)
    requires Enabled(s, a) && p.HistoryFile? && !Replaces(s, a, p)
    ensures EntriesAt(Apply(cfg, s, a).disk, p) == EntriesAt(s.disk, p)
  {
    if a.Step? {
      LogEffect(cfg, s, a.t, a.choice);
      if s.threads[a.t].pc.Store? { HistoryStoreStep(cfg, s, a.t, a.choice, p, a.t + 1); }
    }
  }

  lemma {:induction false} NotInterleavedFrom(cfg: Config, acts: seq<Action>, m: nat, j: nat, p: Path, t: nat)
    requires Legal(cfg, START, acts) && m <= j <= |acts|
    requires forall k: nat, u: nat :: m <= k < j && PutsLog(cfg, acts, k, u, p) ==> u == t
    ensures Legal(cfg, StateAt(cfg, acts, m), acts[m..j]) && NotInterleaved(cfg, StateAt(cfg, acts, m), acts[m..j], p, t)
    decreases j - m
  {
    StateSpan(cfg, acts, m, j);
    if m < j {
      StateStep(cfg, acts, m);
      NotInterleavedFrom(cfg, acts, m + 1, j, p, t);
      assert acts[m..j][0] == acts[m] && acts[m..j][1..] == acts[m + 1..j];
      var s, a := StateAt(cfg, acts, m), acts[m];
      if Replaces(s, a, p) { assert PutsLog(cfg, acts, m, a.t, p); }
    }
  }

  /** The read and the rename of one append, as a span of the schedule. */
  lemma SpanOf(cfg: Config, acts: seq<Action>, i: nat, j: nat, t: nat, p: Path)
    requires Legal(cfg, START, acts) && i < j && ReadsLog(cfg, acts, i, t, p) && PutsLog(cfg, acts, j, t, p)
    ensures AppendSpan(cfg, StateAt(cfg, acts, i), t, acts[i + 1..j])
    ensures AtRename(cfg, StateAt(cfg, acts, i), t, acts[i + 1..j]) == StateAt(cfg, acts, j)
    ensures LogOf(StateAt(cfg, acts, i), t) == p
  {
    StateStep(cfg, acts, i);
    StateStep(cfg, acts, j);
    StateSpan(cfg, acts, i + 1, j);
  }

  lemma GrowsByOne(cfg: Config, acts: seq<Action>, p: Path, j: nat)
    requires WellHashed(cfg) && Legal(cfg, START, acts) && p.HistoryFile? && Uninterleaved(cfg, acts, p) && j < |acts|
    ensures LogAt(cfg, acts, j, p) <= LogAt(cfg, acts, j + 1, p)
  {
    StateStep(cfg, acts, j);
    var s2, a := StateAt(cfg, acts, j), acts[j];
    if Replaces(s2, a, p) {
      var t := a.t;
      assert PutsLog(cfg, acts, j, t, p);
      var i := StoreHasRead(cfg, acts, j, t, p);
      SpanOf(cfg, acts, i, j, t, p);
      StateStep(cfg, acts, i);
      NotInterleavedFrom(cfg, acts, i + 1, j, p, t);
      StateInv(cfg, acts, i);
      AppendExtendsFrom(cfg, StateAt(cfg, acts, i), t, acts[i + 1..j]);
    } else {
      LogStays(cfg, s2, a, p);
    }
  }

  /** Along a run in which no append to p is interleaved, each log is a prefix of every later one. */
  lemma {:induction false} UninterleavedOnlyGrows(cfg: Config, acts: seq<Action>, p: Path, i: nat, j: nat)
    requires WellHashed(cfg) && Legal(cfg, START, acts) && p.HistoryFile? && Uninterleaved(cfg, acts, p)
    requires i <= j <= |acts|
    ensures LogAt(cfg, acts, i, p) <= LogAt(cfg, acts, j, p)
    decreases j - i
  {
    if i < j {
      UninterleavedOnlyGrows(cfg, acts, p, i, j - 1);
      GrowsByOne(cfg, acts, p, j - 1);
    }
  }

  // ---- for which requests every schedule is like that ----

  /** All requests for the package go through one URL, hence one lock. */
  ghost predicate OneUrl(q: set<Request>, p: Path) {
    forall r, u :: r in q && u in q && OfPackage(r, p) && OfPackage(u, p) ==> r.Key() == u.Key()
  }

  /** Every schedule of requests from q only ever extends the log. */
  ghost predicate AppendOnly(cfg: Config, q: set<Request>, p: Path) {
    forall acts, i: nat, j: nat :: Legal(cfg, START, acts) && ArrivalsIn(acts, q) && 0 <= i <= j <= |acts| ==>
      LogAt(cfg, acts, i, p) <= LogAt(cfg, acts, j, p)
  }

  ghost predicate OwnLogs(s: State) { forall t :: 0 <= t < |s.threads| ==> OwnLog(s.threads[t]) }

  lemma OwnLogsStep(cfg: Config, s: State, t: nat, c: Choice)
    requires CanStep(s, t) && OwnLogs(s)
    ensures OwnLogs(StepThread(cfg, s, t, c))
  {
    var s' := StepThread(cfg, s, t, c);
    StepKeepsRequests(cfg, s, t, c);
    StepLowersRank(cfg, s, t, c);
    assert OwnLog(s.threads[t]);
    if AtLog(s'.threads[t].pc) { LogOrigin(cfg, s, t, c); }
  }

  lemma {:induction false} OwnLogsAt(cfg: Config, acts: seq<Action>, k: nat)
    requires Legal(cfg, START, acts) && k <= |acts|
    ensures OwnLogs(StateAt(cfg, acts, k))
    decreases k
  {
    if k == 0 {
      StateStart(cfg, acts);
    } else {
      OwnLogsAt(cfg, acts, k - 1);
      StateStep(cfg, acts, k - 1);
      if acts[k - 1].Step? { OwnLogsStep(cfg, StateAt(cfg, acts, k - 1), acts[k - 1].t, acts[k - 1].choice); }
    }
  }

  /** Between its read and its rename a thread is at its append. */
  lemma InTheMiddle(cfg: Config, acts: seq<Action>, i: nat, k: nat, j: nat, t: nat, p: Path)
    requires WellHashed(cfg) && Legal(cfg, START, acts) && p.HistoryFile? && i < k < j
    requires ReadsLog(cfg, acts, i, t, p) && PutsLog(cfg, acts, j, t, p)
    ensures AtStoreOf(StateAt(cfg, acts, k), t, p)
  {
    var s := StateAt(cfg, acts, i);
    StateStep(cfg, acts, i);
    StateInv(cfg, acts, i);
    SpanOf(cfg, acts, i, j, t, p);
    AppendStarts(cfg, s, t);
    var s1, sk := StateAt(cfg, acts, i + 1), StateAt(cfg, acts, k);
    StateSpan(cfg, acts, i + 1, j);
    StillHigh(cfg, s1, acts[i + 1..j], t);
    StateSpan(cfg, acts, k, j);
    StateSpan(cfg, acts, i + 1, k);
    ThreadsRemain(cfg, s1, acts[i + 1..k], t);
    StillHigh(cfg, sk, acts[k..j], t);
    StaysAppending(cfg, s1, acts[i + 1..k], p, t, History(EntriesAt(s.disk, p) + [EntryOf(s, t)]),
                   s.threads[t].pc.body, s.threads[t].pc.verdict);
  }

  lemma ThreadsRemain(cfg: Config, s: State, acts: seq<Action>, t: nat)
    requires Legal(cfg, s, acts) && t < |s.threads|
    ensures t < |Run(cfg, s, acts).threads|
  {
    NoWayBack(cfg, s, acts, t, Rank(s.threads[t].pc));
  }

  /** With one URL for the package the lock keeps its appends apart. */
  lemma OneUrlKeepsApart(cfg: Config, acts: seq<Action>, q: set<Request>, p: Path)
    requires WellHashed(cfg) && Legal(cfg, START, acts) && ArrivalsIn(acts, q) && p.HistoryFile? && OneUrl(q, p)
    ensures Uninterleaved(cfg, acts, p)
  {
    forall i: nat, j: nat, k: nat, t: nat, u: nat
      | ReadsLog(cfg, acts, i, t, p) && PutsLog(cfg, acts, j, t, p) && PutsLog(cfg, acts, k, u, p) && i < k < j
      ensures u == t {
      InTheMiddle(cfg, acts, i, k, j, t, p);
      SameLock(cfg, acts, k, q, p, t, u);
    }
  }

  lemma SameLock(cfg: Config, acts: seq<Action>, k: nat, q: set<Request>, p: Path, t: nat, u: nat)
    requires Legal(cfg, START, acts) && ArrivalsIn(acts, q) && p.HistoryFile? && OneUrl(q, p) && k <= |acts|
    requires AtStoreOf(StateAt(cfg, acts, k), t, p) && AtStoreOf(StateAt(cfg, acts, k), u, p)
    ensures t == u
  {
    var s := StateAt(cfg, acts, k);
    LegalSplit(cfg, START, acts, k);
    FromRun(cfg, START, acts[..k], q);
    OwnLogsAt(cfg, acts, k);
    assert OwnLog(s.threads[t]) && OwnLog(s.threads[u]);
    MutualExclusion(cfg, acts[..k], t, u);
  }

  /**
   The caller's key lock keeps the log append-only, in every schedule with every failure and crash,
   exactly when all requests for the package share one URL.
  */
  lemma AppendOnlyIff(cfg: Config, q: set<Request>, p: Path, a: Bytes, b: Bytes)
    requires WellHashed(cfg) && p.HistoryFile? && cfg.digest(a) != cfg.digest(b)
    ensures AppendOnly(cfg, q, p) <==> OneUrl(q, p)
  {
    if OneUrl(q, p) {
      forall acts, i: nat, j: nat | Legal(cfg, START, acts) && ArrivalsIn(acts, q) && 0 <= i <= j <= |acts|
        ensures LogAt(cfg, acts, i, p) <= LogAt(cfg, acts, j, p) {
        OneUrlKeepsApart(cfg, acts, q, p);
        UninterleavedOnlyGrows(cfg, acts, p, i, j);
      }
    } else {
      var r, u :| r in q && u in q && OfPackage(r, p) && OfPackage(u, p) && r.Key() != u.Key();
      TwoUrlsLose(cfg, q, p, r, u, a, b);
    }
  }

  lemma TwoUrlsLose(cfg: Config, q: set<Request>, p: Path, r: Request, u: Request, a: Bytes, b: Bytes)
    requires cfg.digest(a) != cfg.digest(b) && r in q && u in q && OfPackage(r, p) && OfPackage(u, p) && r.Key() != u.Key()
    ensures !AppendOnly(cfg, q, p)
  {
    var o := Opinion(Allow, "", [], "");
    var acts := LossySchedule(r, u, a, b, o);
    assert r.path != u.path;
    HistoryLosesAnEntry(cfg, r, u, a, b, o);
    var i, j := |acts| - 3, |acts|;
    assert acts[..j] == acts;
    assert !(LogAt(cfg, acts, i, p) <= LogAt(cfg, acts, j, p)) by {
      assert LogAt(cfg, acts, i, p)[0] != LogAt(cfg, acts, j, p)[0];
    }
    assert ArrivalsIn(acts, q);
  }
}
