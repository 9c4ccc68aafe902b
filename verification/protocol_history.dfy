/**
 The per-package history log. `AppendHistory` reads, adds one entry and rewrites the file; the lock
 a request holds is for its URL, so two versions of one package may do this at the same time.
*/
module ProtocolHistory {
  import opened Verdicts
  import opened Protocol
  import opened ProtocolLocks
  import opened ProtocolSafety

  function EntriesAt(disk: Disk, p: Path): seq<Entry> {
    if p in disk && disk[p].History? then disk[p].entries else []
  }

  /** Action `a` is a successful rename of a new version of `p` into place. */
  predicate Replaces(s: State, a: Action, p: Path)
    requires Enabled(s, a)
  {
    && a.Step? && a.choice.Go?
    && s.threads[a.t].pc.Store? && s.threads[a.t].pc.target == p && s.threads[a.t].pc.phase.Rename?
  }

  /** Action `a` puts a new version of the file `p` in place for a thread other than `t`. */
  predicate OverwrittenByOther(s: State, a: Action, p: Path, t: nat)
    requires Enabled(s, a)
  {
    Replaces(s, a, p) && a.t != t
  }

  /** No other thread finishes an append to `p` while this schedule plays. */
  predicate NotInterleaved(cfg: Config, s: State, acts: seq<Action>, p: Path, t: nat)
    requires Legal(cfg, s, acts)
    decreases |acts|
  {
    acts == [] || (!OverwrittenByOther(s, acts[0], p, t) && NotInterleaved(cfg, Apply(cfg, s, acts[0]), acts[1..], p, t))
  }

  /** Thread t is in the middle of writing its own new version of `p`. */
  predicate Appending(s: State, t: nat, p: Path, c: Content, body: Bytes, v: Verdict) {
    && t < |s.threads| && s.threads[t].pc.Store?
    && s.threads[t].pc == Store(p, c, s.threads[t].pc.phase, body, v)
  }

  /** While nobody else finishes and t has not, the file stays as t found it. */
  lemma FileStaysStep(cfg: Config, s: State, a: Action, p: Path, t: nat, c: Content, body: Bytes, v: Verdict)
    requires Inv(cfg, s) && Enabled(s, a) && p.HistoryFile?
    requires Appending(s, t, p, c, body, v) && !OverwrittenByOther(s, a, p, t)
    requires Appending(Apply(cfg, s, a), t, p, c, body, v)
    ensures var s' := Apply(cfg, s, a); ((p in s'.disk) == (p in s.disk)) && (p in s.disk ==> s'.disk[p] == s.disk[p])
  {
    if a.Step? {
      LogEffect(cfg, s, a.t, a.choice);
      if s.threads[a.t].pc.Store? { HistoryStoreStep(cfg, s, a.t, a.choice, p, t); }
    }
  }

  /** An `atomicWrite` step changes a named file only by the rename that also ends the write. */
  lemma HistoryStoreStep(cfg: Config, s: State, u: nat, c: Choice, p: Path, t: nat)
    requires CanStep(s, u) && s.threads[u].pc.Store? && p.HistoryFile?
    requires u != t ==> !OverwrittenByOther(s, Step(u, c), p, t)
    requires u == t && t < |s.threads| ==>
               DoStore(cfg, s, u, c).threads[u].pc.Store? && DoStore(cfg, s, u, c).threads[u].pc.target == p
    ensures var s' := DoStore(cfg, s, u, c); ((p in s'.disk) == (p in s.disk)) && (p in s.disk ==> s'.disk[p] == s.disk[p])
  {
    match s.threads[u].pc.phase
    case Create =>
    case Fill(_) =>
    case Rename(_) =>
    case Remove(_) =>
  }

  /** Thread t stays at its append until a step of its own, or a crash, ends it. */
  lemma AppendingGoesOn(cfg: Config, s: State, a: Action, p: Path, t: nat, c: Content, body: Bytes, v: Verdict)
    requires Enabled(s, a) && Appending(s, t, p, c, body, v) && p.HistoryFile?
    ensures var th := Apply(cfg, s, a).threads;
            t < |th| && (Appending(Apply(cfg, s, a), t, p, c, body, v) || Rank(th[t].pc) <= 14)
  {
    if a.Step? {
      StepLowersRank(cfg, s, a.t, a.choice);
      if a.t == t { StoreEffect(cfg, s, t, a.choice); }
    }
  }

  /** A thread that has left its append never returns to it. */
  lemma {:induction false} NoWayBack(cfg: Config, s: State, acts: seq<Action>, t: nat, bound: nat)
    requires Legal(cfg, s, acts) && t < |s.threads| && Rank(s.threads[t].pc) <= bound
    ensures t < |Run(cfg, s, acts).threads| && Rank(Run(cfg, s, acts).threads[t].pc) <= bound
    decreases |acts|
  {
    if acts != [] {
      var a := acts[0];
      if a.Step? { StepLowersRank(cfg, s, a.t, a.choice); }
      NoWayBack(cfg, Apply(cfg, s, a), acts[1..], t, bound);
    }
  }

  lemma StillHigh(cfg: Config, s: State, rest: seq<Action>, t: nat)
    requires Legal(cfg, s, rest) && t < |s.threads|
    requires var th := Run(cfg, s, rest).threads; t < |th| && Rank(th[t].pc) > 14
    ensures Rank(s.threads[t].pc) > 14
  {
    NoWayBack(cfg, s, rest, t, Rank(s.threads[t].pc));
  }

  /** A thread that will still be appending after `acts` is still appending after the first of them. */
  lemma StillAppending(cfg: Config, s: State, a: Action, rest: seq<Action>, p: Path, t: nat, c: Content,
        body: Bytes, v: Verdict)
    requires Enabled(s, a) && Legal(cfg, Apply(cfg, s, a), rest)
    requires p.HistoryFile? && Appending(s, t, p, c, body, v)
    requires var th := Run(cfg, Apply(cfg, s, a), rest).threads; t < |th| && Rank(th[t].pc) > 14
    ensures Appending(Apply(cfg, s, a), t, p, c, body, v)
  {
    AppendingGoesOn(cfg, s, a, p, t, c, body, v);
    StillHigh(cfg, Apply(cfg, s, a), rest, t);
  }

  /** Whatever the others do, t still holds the document it started with. */
  lemma {:induction false} StaysAppending(cfg: Config, s: State, acts: seq<Action>, p: Path, t: nat, c: Content,
        body: Bytes, v: Verdict)
    requires Legal(cfg, s, acts) && p.HistoryFile? && Appending(s, t, p, c, body, v)
    requires var th := Run(cfg, s, acts).threads; t < |th| && Rank(th[t].pc) > 14
    ensures Appending(Run(cfg, s, acts), t, p, c, body, v)
    decreases |acts|
  {
    if acts != [] {
      StillAppending(cfg, s, acts[0], acts[1..], p, t, c, body, v);
      StaysAppending(cfg, Apply(cfg, s, acts[0]), acts[1..], p, t, c, body, v);
    }
  }

  lemma {:induction false} FileStays(cfg: Config, s: State, acts: seq<Action>, p: Path, t: nat, c: Content,
        body: Bytes, v: Verdict)
    requires WellHashed(cfg) && Inv(cfg, s) && Legal(cfg, s, acts) && p.HistoryFile?
    requires Appending(s, t, p, c, body, v) && NotInterleaved(cfg, s, acts, p, t)
    requires var th := Run(cfg, s, acts).threads; t < |th| && Rank(th[t].pc) > 14
    ensures EntriesAt(Run(cfg, s, acts).disk, p) == EntriesAt(s.disk, p)
    decreases |acts|
  {
    if acts != [] {
      var s1 := Apply(cfg, s, acts[0]);
      assert Run(cfg, s, acts) == Run(cfg, s1, acts[1..]);
      StillAppending(cfg, s, acts[0], acts[1..], p, t, c, body, v);
      FileStaysStep(cfg, s, acts[0], p, t, c, body, v);
      InvApply(cfg, s, acts[0]);
      FileStays(cfg, s1, acts[1..], p, t, c, body, v);
    }
  }

  /** Reading the log and finding the digest new starts an append of exactly one entry. */
  lemma AppendStarts(cfg: Config, s: State, t: nat)
    requires WellHashed(cfg) && Inv(cfg, s) && CanStep(s, t) && s.threads[t].pc.ReadHistory?
    ensures var body, v := s.threads[t].pc.body, s.threads[t].pc.verdict;
            var p := HistoryFile(v.artifact.ecosystem, v.artifact.name);
            var s1 := StepThread(cfg, s, t, Go);
            && s1.disk == s.disk && t < |s1.threads|
            && (Rank(s1.threads[t].pc) > 14 ==>
                  Appending(s1, t, p, History(EntriesAt(s.disk, p) + [Entry(v.artifact.version, v.artifact.digest, v.decision)]), body, v))
  {
    var v := s.threads[t].pc.verdict;
    var p := HistoryFile(v.artifact.ecosystem, v.artifact.name);
    if p in s.disk { assert Fits(cfg, s.log, p, s.disk[p]); }
    assert StepThread(cfg, s, t, Go) == DoReadHistory(s, t, Go, s.threads[t].pc.body, v);
  }

  lemma AppendEnds(cfg: Config, s: State, t: nat, p: Path, c: Content, body: Bytes, v: Verdict)
    requires Inv(cfg, s) && CanStep(s, t) && Appending(s, t, p, c, body, v) && s.threads[t].pc.phase.Rename?
    ensures var s' := StepThread(cfg, s, t, Go); p in s'.disk && s'.disk[p] == c
  {
    assert PcOk(cfg, s, s.threads[t].pc);
  }

  /** A verdict is appended exactly when no entry of the log has its digest. */
  lemma NewDigestIsAppended(cfg: Config, s: State, t: nat)
    requires Inv(cfg, s) && CanStep(s, t) && s.threads[t].pc.ReadHistory?
    ensures var v, body := s.threads[t].pc.verdict, s.threads[t].pc.body;
            var p := HistoryFile(v.artifact.ecosystem, v.artifact.name);
            var past := EntriesAt(s.disk, p);
            var known := exists i :: 0 <= i < |past| && past[i].digest == v.artifact.digest;
            StepThread(cfg, s, t, Go) ==
              Goto(s, t, if known then BeginVerdict(v, body)
                         else Store(p, History(past + [Entry(v.artifact.version, v.artifact.digest, v.decision)]), Create, body, v))
  {
    var v := s.threads[t].pc.verdict;
    var p := HistoryFile(v.artifact.ecosystem, v.artifact.name);
    if p in s.disk { assert Fits(cfg, s.log, p, s.disk[p]); }
    assert StepThread(cfg, s, t, Go) == DoReadHistory(s, t, Go, s.threads[t].pc.body, v);
  }

  /** From the read in `s` over `acts` to the rename: what thread t is to append, and where. */
  ghost predicate AppendSpan(cfg: Config, s: State, t: nat, acts: seq<Action>) {
    && CanStep(s, t) && s.threads[t].pc.ReadHistory?
    && Legal(cfg, StepThread(cfg, s, t, Go), acts)
    && var s2 := Run(cfg, StepThread(cfg, s, t, Go), acts);
       CanStep(s2, t) && s2.threads[t].pc.Store? && s2.threads[t].pc.target == LogOf(s, t) && s2.threads[t].pc.phase.Rename?
  }

  function LogOf(s: State, t: nat): Path
    requires t < |s.threads| && s.threads[t].pc.ReadHistory?
  {
    var a := s.threads[t].pc.verdict.artifact;
    HistoryFile(a.ecosystem, a.name)
  }

  function EntryOf(s: State, t: nat): Entry
    requires t < |s.threads| && s.threads[t].pc.ReadHistory?
  {
    var v := s.threads[t].pc.verdict;
    Entry(v.artifact.version, v.artifact.digest, v.decision)
  }

  /** The state in which t renames its new log into place. */
  function AtRename(cfg: Config, s: State, t: nat, acts: seq<Action>): State
    requires CanStep(s, t) && Legal(cfg, StepThread(cfg, s, t, Go), acts)
  {
    Run(cfg, StepThread(cfg, s, t, Go), acts)
  }

  lemma AppendWritesFrom(cfg: Config, s: State, t: nat, acts: seq<Action>)
    requires WellHashed(cfg) && Inv(cfg, s) && AppendSpan(cfg, s, t, acts)
    ensures EntriesAt(StepThread(cfg, AtRename(cfg, s, t, acts), t, Go).disk, LogOf(s, t))
         == EntriesAt(s.disk, LogOf(s, t)) + [EntryOf(s, t)]
  {
    var v, body := s.threads[t].pc.verdict, s.threads[t].pc.body;
    var p := LogOf(s, t);
    var c := History(EntriesAt(s.disk, p) + [EntryOf(s, t)]);
    var s1 := StepThread(cfg, s, t, Go);
    AppendStarts(cfg, s, t);
    StillHigh(cfg, s1, acts, t);
    InvStep(cfg, s, t, Go);
    StaysAppending(cfg, s1, acts, p, t, c, body, v);
    InvRun(cfg, s1, acts);
    AppendEnds(cfg, Run(cfg, s1, acts), t, p, c, body, v);
  }

  /**
   What an append does, whoever interleaves it: the log becomes what t read with its entry at the end.
   So it adds its entry to the current log exactly when that is still the log t read, and it keeps
   every entry of the current log in place exactly when that log is a prefix of what t writes.
  */
  lemma AppendWrites(cfg: Config, before: seq<Action>, t: nat, acts: seq<Action>)
    requires WellHashed(cfg) && Legal(cfg, START, before) && AppendSpan(cfg, Run(cfg, START, before), t, acts)
    ensures var s := Run(cfg, START, before);
            var s2 := AtRename(cfg, s, t, acts);
            var p, e := LogOf(s, t), EntryOf(s, t);
            var read, current, after := EntriesAt(s.disk, p), EntriesAt(s2.disk, p), EntriesAt(StepThread(cfg, s2, t, Go).disk, p);
            && after == read + [e]
            && (after == current + [e] <==> current == read)
            && (current <= after <==> current <= read + [e])
  {
    InvRun(cfg, START, before);
    var s := Run(cfg, START, before);
    AppendWritesFrom(cfg, s, t, acts);
    var read, current := EntriesAt(s.disk, LogOf(s, t)), EntriesAt(AtRename(cfg, s, t, acts).disk, LogOf(s, t));
    if read + [EntryOf(s, t)] == current + [EntryOf(s, t)] {
      assert read == (read + [EntryOf(s, t)])[..|read|] == current;
    }
  }

  /**
   Appends of one package that do not interleave only extend its log: if from the moment thread t
   read the log no other thread finished an append, t's rename turns the current log into the
   same log with one entry more.
  */
  lemma AppendExtends(cfg: Config, before: seq<Action>, t: nat, acts: seq<Action>)
    requires WellHashed(cfg) && Legal(cfg, START, before) && AppendSpan(cfg, Run(cfg, START, before), t, acts)
    requires var s := Run(cfg, START, before); NotInterleaved(cfg, StepThread(cfg, s, t, Go), acts, LogOf(s, t), t)
    ensures var s := Run(cfg, START, before);
            var s2 := AtRename(cfg, s, t, acts);
            var p := LogOf(s, t);
            && EntriesAt(s2.disk, p) == EntriesAt(s.disk, p)
            && EntriesAt(StepThread(cfg, s2, t, Go).disk, p) == EntriesAt(s2.disk, p) + [EntryOf(s, t)]
  {
    InvRun(cfg, START, before);
    AppendExtendsFrom(cfg, Run(cfg, START, before), t, acts);
  }

  lemma AppendExtendsFrom(cfg: Config, s: State, t: nat, acts: seq<Action>)
    requires WellHashed(cfg) && Inv(cfg, s) && AppendSpan(cfg, s, t, acts)
    requires NotInterleaved(cfg, StepThread(cfg, s, t, Go), acts, LogOf(s, t), t)
    ensures var s2 := AtRename(cfg, s, t, acts);
            var p := LogOf(s, t);
            && EntriesAt(s2.disk, p) == EntriesAt(s.disk, p)
            && EntriesAt(StepThread(cfg, s2, t, Go).disk, p) == EntriesAt(s.disk, p) + [EntryOf(s, t)]
  {
    var v, body := s.threads[t].pc.verdict, s.threads[t].pc.body;
    var p := LogOf(s, t);
    var s1 := StepThread(cfg, s, t, Go);
    AppendWritesFrom(cfg, s, t, acts);
    AppendStarts(cfg, s, t);
    StillHigh(cfg, s1, acts, t);
    InvStep(cfg, s, t, Go);
    FileStays(cfg, s1, acts, p, t, History(EntriesAt(s.disk, p) + [EntryOf(s, t)]), body, v);
  }
}
