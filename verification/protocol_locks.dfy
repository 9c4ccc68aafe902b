/**
 Mutual exclusion and progress of the request threads.
*/
module ProtocolLocks {
  import opened Verdicts
  import opened Protocol

  /** What the mutex table and the threads' program counters keep in every state. */
  ghost predicate LockInv(s: State) {
    && (forall k :: k in s.locks ==> s.locks[k] < s.nextMutex)
    && (forall j, k :: j in s.locks && k in s.locks && s.locks[j] == s.locks[k] ==> j == k)
    && (forall t :: 0 <= t < |s.threads| ==> ThreadLocks(s, t))
    && (forall m :: m in s.holder ==> HolderOk(s, m))
  }

  ghost predicate ThreadLocks(s: State, t: nat)
    requires t < |s.threads|
  {
    var th := s.threads[t];
    && (Live(th.pc) && !th.pc.Arriving? ==> th.req.Key() in s.locks && s.locks[th.req.Key()] == th.mutex)
    && (Inside(th.pc) ==> th.mutex in s.holder && s.holder[th.mutex] == t)
  }

  ghost predicate HolderOk(s: State, m: nat)
    requires m in s.holder
  {
    var t := s.holder[m];
    t < |s.threads| && Inside(s.threads[t].pc) && s.threads[t].mutex == m
  }

  /** An upper bound on the steps a thread at `pc` still has to take. */
  function Rank(pc: Pc): nat {
    match pc
    case Done => 0
    case Killed => 0
    case Unlock => 1
    case Reply(_) => 2
    case Store(target, _, phase, _, _) => StoreBase(target) + (match phase
      case Create => 4
      case Fill(_) => 3
      case Rename(_) => 2
      case Remove(_) => 1)
    case ReadHistory(_, _) => 19
    case Judge(_) => 20
    case CheckVerdict(_) => 21
    case Fetch => 22
    case ReadArtifact(_, _) => 23
    case ReadVerdict(_) => 24
    case ReadLocator => 25
    case Waiting => 26
    case Arriving => 27
  }

  function StoreBase(target: Path): nat {
    match target
    case HistoryFile(_, _) => 14
    case VerdictFile(_) => 10
    case ArtifactFile(_) => 6
    case _ => 2
  }

  /** `s'` differs from `s` in thread t's own record, the disk and the log only. */
  ghost predicate OwnStep(s: State, t: nat, s': State)
    requires t < |s.threads|
  {
    && |s'.threads| == |s.threads|
    && s'.threads == s.threads[t := s'.threads[t]]
    && s'.threads[t].req == s.threads[t].req && s'.threads[t].mutex == s.threads[t].mutex
    && s'.locks == s.locks && s'.holder == s.holder && s'.nextMutex == s.nextMutex
    && Inside(s'.threads[t].pc)
  }

  lemma StoreIsOwnStep(cfg: Config, s: State, t: nat, c: Choice)
    requires CanStep(s, t) && s.threads[t].pc.Store?
    ensures OwnStep(s, t, DoStore(cfg, s, t, c))
    ensures Rank(DoStore(cfg, s, t, c).threads[t].pc) < Rank(s.threads[t].pc)
  {
    match s.threads[t].pc.phase
    case Create =>
    case Fill(_) =>
    case Rename(_) =>
    case Remove(_) =>
  }

  lemma ReadIsOwnStep(cfg: Config, s: State, t: nat, c: Choice)
    requires CanStep(s, t)
    requires var pc := s.threads[t].pc; pc.ReadLocator? || pc.ReadVerdict? || pc.ReadArtifact?
    ensures OwnStep(s, t, StepThread(cfg, s, t, c))
    ensures Rank(StepThread(cfg, s, t, c).threads[t].pc) < Rank(s.threads[t].pc)
  {
    match s.threads[t].pc
    case ReadLocator =>
    case ReadVerdict(digest) => assert StepThread(cfg, s, t, c) == DoReadVerdict(s, t, c, digest);
    case ReadArtifact(_, digest) => assert StepThread(cfg, s, t, c) == DoReadArtifact(s, t, c, digest);
  }

  lemma FetchOrHistoryIsOwnStep(cfg: Config, s: State, t: nat, c: Choice)
    requires CanStep(s, t)
    requires var pc := s.threads[t].pc; pc.Fetch? || pc.ReadHistory?
    ensures OwnStep(s, t, StepThread(cfg, s, t, c))
    ensures Rank(StepThread(cfg, s, t, c).threads[t].pc) < Rank(s.threads[t].pc)
  {
    match s.threads[t].pc
    case Fetch => assert StepThread(cfg, s, t, c) == DoFetch(s, t, c);
    case ReadHistory(body, v) => assert StepThread(cfg, s, t, c) == DoReadHistory(s, t, c, body, v);
  }

  lemma JudgingIsOwnStep(cfg: Config, s: State, t: nat, c: Choice)
    requires CanStep(s, t)
    requires var pc := s.threads[t].pc; pc.CheckVerdict? || pc.Judge?
    ensures OwnStep(s, t, StepThread(cfg, s, t, c))
    ensures Rank(StepThread(cfg, s, t, c).threads[t].pc) < Rank(s.threads[t].pc)
  {
    match s.threads[t].pc
    case CheckVerdict(body) => assert StepThread(cfg, s, t, c) == DoCheckVerdict(cfg, s, t, c, body);
    case Judge(body) => assert StepThread(cfg, s, t, c) == DoJudge(cfg, s, t, c, body);
  }

  /** Every step but the three lock steps leaves the mutex table alone, its thread inside, and its bound lower. */
  lemma InnerStep(cfg: Config, s: State, t: nat, c: Choice)
    requires CanStep(s, t) && Inside(s.threads[t].pc) && !s.threads[t].pc.Unlock?
    ensures OwnStep(s, t, StepThread(cfg, s, t, c))
    ensures Rank(StepThread(cfg, s, t, c).threads[t].pc) < Rank(s.threads[t].pc)
  {
    var pc := s.threads[t].pc;
    if pc.Store? {
      StoreIsOwnStep(cfg, s, t, c);
    } else if pc.ReadLocator? || pc.ReadVerdict? || pc.ReadArtifact? {
      ReadIsOwnStep(cfg, s, t, c);
    } else if pc.Fetch? || pc.ReadHistory? {
      FetchOrHistoryIsOwnStep(cfg, s, t, c);
    } else if !pc.Reply? {
      JudgingIsOwnStep(cfg, s, t, c);
    }
  }

  lemma LockInvStep(cfg: Config, s: State, t: nat, c: Choice)
    requires LockInv(s) && CanStep(s, t)
    ensures LockInv(StepThread(cfg, s, t, c))
  {
    var s' := StepThread(cfg, s, t, c);
    var th := s.threads[t];
    assert ThreadLocks(s, t);
    if Inside(th.pc) && !th.pc.Unlock? {
      InnerStep(cfg, s, t, c);
      forall u | 0 <= u < |s'.threads| ensures ThreadLocks(s', u) {
        assert ThreadLocks(s, u);
      }
      forall m | m in s'.holder ensures HolderOk(s', m) {
        assert HolderOk(s, m);
      }
    } else {
      forall u | 0 <= u < |s'.threads| ensures ThreadLocks(s', u) {
        assert ThreadLocks(s, u);
      }
      forall m | m in s'.holder ensures HolderOk(s', m) {
        if m in s.holder { assert HolderOk(s, m); }
      }
    }
  }

  lemma LockInvApply(cfg: Config, s: State, a: Action)
    requires LockInv(s) && Enabled(s, a)
    ensures LockInv(Apply(cfg, s, a))
  {
    match a
    case Arrive(req) =>
      var s' := Apply(cfg, s, a);
      forall u | 0 <= u < |s'.threads| ensures ThreadLocks(s', u) {
        if u < |s.threads| { assert ThreadLocks(s, u); }
      }
      forall m | m in s'.holder ensures HolderOk(s', m) {
        assert HolderOk(s, m);
      }
    case Step(t, c) => LockInvStep(cfg, s, t, c);
    case Crash =>
  }

  lemma {:induction false} LockInvRun(cfg: Config, s: State, acts: seq<Action>)
    requires LockInv(s) && Legal(cfg, s, acts)
    ensures LockInv(Run(cfg, s, acts))
    decreases |acts|
  {
    if acts != [] {
      LockInvApply(cfg, s, acts[0]);
      LockInvRun(cfg, Apply(cfg, s, acts[0]), acts[1..]);
    }
  }

  /** At any moment of any schedule at most one request per key is past the lock. */
  lemma MutualExclusion(cfg: Config, acts: seq<Action>, t: nat, u: nat)
    requires Legal(cfg, START, acts)
    requires var s := Run(cfg, START, acts);
             && t < |s.threads| && u < |s.threads|
             && Inside(s.threads[t].pc) && Inside(s.threads[u].pc)
             && s.threads[t].req.Key() == s.threads[u].req.Key()
    ensures t == u
  {
    LockInvRun(cfg, START, acts);
    var s := Run(cfg, START, acts);
    assert ThreadLocks(s, t) && ThreadLocks(s, u);
  }

  /** Within one process lifetime a key's mutex object never changes, and no two keys share one. */
  lemma {:induction false} OneMutexPerKey(cfg: Config, before: seq<Action>, acts: seq<Action>, key: string)
    requires Legal(cfg, START, before)
    requires var s := Run(cfg, START, before); key in s.locks && Legal(cfg, s, acts)
    requires Crash !in acts
    ensures var s := Run(cfg, START, before);
            var s' := Run(cfg, s, acts);
            && key in s'.locks && s'.locks[key] == s.locks[key]
            && forall k :: k in s'.locks && s'.locks[k] == s.locks[key] ==> k == key
  {
    var s := Run(cfg, START, before);
    LockInvRun(cfg, START, before);
    LockInvRun(cfg, s, acts);
    LocksGrow(cfg, s, acts, key);
  }

  lemma {:induction false} LocksGrow(cfg: Config, s: State, acts: seq<Action>, key: string)
    requires key in s.locks && Legal(cfg, s, acts) && Crash !in acts
    ensures key in Run(cfg, s, acts).locks && Run(cfg, s, acts).locks[key] == s.locks[key]
    decreases |acts|
  {
    if acts != [] {
      assert acts[0] in acts;
      var s1 := Apply(cfg, s, acts[0]);
      assert key in s1.locks && s1.locks[key] == s.locks[key];
      assert forall a :: a in acts[1..] ==> a in acts;
      LocksGrow(cfg, s1, acts[1..], key);
    }
  }

  // ---- progress ----

  function Work(threads: seq<Thread>): nat {
    if threads == [] then 0 else Rank(threads[0].pc) + Work(threads[1..])
  }

  lemma {:induction false} WorkUpdate(threads: seq<Thread>, t: nat, th: Thread)
    requires t < |threads|
    ensures Work(threads[t := th]) == Work(threads) - Rank(threads[t].pc) + Rank(th.pc)
    decreases |threads|
  {
    if t == 0 {
      assert threads[t := th][1..] == threads[1..];
    } else {
      assert threads[t := th][1..] == threads[1..][t - 1 := th];
      WorkUpdate(threads[1..], t - 1, th);
    }
  }

  /** Every thread step strictly lowers the thread's own bound, whatever fails. */
  lemma StepLowersRank(cfg: Config, s: State, t: nat, c: Choice)
    requires CanStep(s, t)
    ensures var s' := StepThread(cfg, s, t, c);
            && |s'.threads| == |s.threads|
            && Rank(s'.threads[t].pc) < Rank(s.threads[t].pc)
            && s'.threads == s.threads[t := s'.threads[t]]
  {
    if Inside(s.threads[t].pc) && !s.threads[t].pc.Unlock? { InnerStep(cfg, s, t, c); }
  }

  ghost predicate AllOver(s: State) { forall t :: 0 <= t < |s.threads| ==> !Live(s.threads[t].pc) }

  /** No deadlock: while some request is unfinished, some thread can step. */
  lemma NoDeadlock(s: State) returns (t: nat)
    requires LockInv(s) && !AllOver(s)
    ensures CanStep(s, t)
  {
    var u :| 0 <= u < |s.threads| && Live(s.threads[u].pc);
    if s.threads[u].pc.Waiting? && s.threads[u].mutex in s.holder {
      assert HolderOk(s, s.threads[u].mutex);
      t := s.holder[s.threads[u].mutex];
    } else {
      t := u;
    }
  }

  predicate OnlySteps(acts: seq<Action>) { forall i :: 0 <= i < |acts| ==> acts[i].Step? }

  /** Without new arrivals every schedule from `s` is at most Work(s) steps long ... */
  lemma {:induction false} BoundedRuns(cfg: Config, s: State, acts: seq<Action>)
    requires Legal(cfg, s, acts) && OnlySteps(acts)
    ensures |acts| + Work(Run(cfg, s, acts).threads) <= Work(s.threads)
    decreases |acts|
  {
    if acts != [] {
      var t, c := acts[0].t, acts[0].choice;
      var s1 := StepThread(cfg, s, t, c);
      StepLowersRank(cfg, s, t, c);
      WorkUpdate(s.threads, t, s1.threads[t]);
      BoundedRuns(cfg, s1, acts[1..]);
    }
  }

  /** ... and a schedule that cannot be extended has answered and released every request. */
  lemma Progress(cfg: Config, before: seq<Action>, acts: seq<Action>)
    requires Legal(cfg, START, before)
    requires var s := Run(cfg, START, before); Legal(cfg, s, acts) && OnlySteps(acts)
    ensures var s := Run(cfg, START, before);
            var s' := Run(cfg, s, acts);
            && |acts| <= Work(s.threads)
            && ((forall t :: !CanStep(s', t)) <==> AllOver(s'))
            && (AllOver(s') ==> s'.holder == map[])
  {
    var s := Run(cfg, START, before);
    var s' := Run(cfg, s, acts);
    LockInvRun(cfg, START, before);
    LockInvRun(cfg, s, acts);
    BoundedRuns(cfg, s, acts);
    if !AllOver(s') {
      var t := NoDeadlock(s');
    } else {
      assert forall m :: m in s'.holder ==> HolderOk(s', m);
      assert s'.holder.Keys == {};
    }
  }
}
