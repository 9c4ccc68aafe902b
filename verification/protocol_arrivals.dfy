/** Schedules by position, and where their requests come from. */
module ProtocolArrivals {
  import opened Verdicts
  import opened Protocol
  import opened ProtocolLocks
  import opened ProtocolSafety

  lemma {:induction false} LegalSplit(cfg: Config, s: State, acts: seq<Action>, k: nat)
    requires Legal(cfg, s, acts) && k <= |acts|
    ensures Legal(cfg, s, acts[..k]) && Legal(cfg, Run(cfg, s, acts[..k]), acts[k..])
    ensures Run(cfg, s, acts) == Run(cfg, Run(cfg, s, acts[..k]), acts[k..])
    decreases k
  {
    if k == 0 {
      assert acts[..0] == [] && acts[0..] == acts;
    } else {
      LegalSplit(cfg, Apply(cfg, s, acts[0]), acts[1..], k - 1);
      assert acts[..k][1..] == acts[1..][..k - 1] && acts[1..][k - 1..] == acts[k..];
    }
  }

  /** The state after the first k actions. */
  function StateAt(cfg: Config, acts: seq<Action>, k: nat): State
    requires Legal(cfg, START, acts) && k <= |acts|
  {
    LegalSplit(cfg, START, acts, k);
    Run(cfg, START, acts[..k])
  }

  lemma StateStart(cfg: Config, acts: seq<Action>)
    requires Legal(cfg, START, acts)
    ensures StateAt(cfg, acts, 0) == START
  {
    assert acts[..0] == [];
  }

  lemma StateStep(cfg: Config, acts: seq<Action>, k: nat)
    requires Legal(cfg, START, acts) && k < |acts|
    ensures Enabled(StateAt(cfg, acts, k), acts[k])
    ensures StateAt(cfg, acts, k + 1) == Apply(cfg, StateAt(cfg, acts, k), acts[k])
  {
    LegalSplit(cfg, START, acts, k);
    LegalSplit(cfg, START, acts, k + 1);
    assert acts[k..][0] == acts[k];
    RunSnoc(cfg, START, acts[..k], acts[k]);
    assert acts[..k + 1] == acts[..k] + [acts[k]];
  }

  /** Between two positions the schedule is a schedule of its own. */
  lemma StateSpan(cfg: Config, acts: seq<Action>, i: nat, j: nat)
    requires Legal(cfg, START, acts) && i <= j <= |acts|
    ensures Legal(cfg, StateAt(cfg, acts, i), acts[i..j])
    ensures Run(cfg, StateAt(cfg, acts, i), acts[i..j]) == StateAt(cfg, acts, j)
  {
    LegalSplit(cfg, START, acts, j);
    LegalSplit(cfg, START, acts[..j], i);
    assert acts[..j][..i] == acts[..i] && acts[..j][i..] == acts[i..j];
  }

  lemma StateInv(cfg: Config, acts: seq<Action>, k: nat)
    requires WellHashed(cfg) && Legal(cfg, START, acts) && k <= |acts|
    ensures Inv(cfg, StateAt(cfg, acts, k)) && LockInv(StateAt(cfg, acts, k))
  {
    LegalSplit(cfg, START, acts, k);
    InvRun(cfg, START, acts[..k]);
    LockInvRun(cfg, START, acts[..k]);
  }

  // ---- arrivals ----

  predicate ArrivalsIn(acts: seq<Action>, q: set<Request>) {
    forall i :: 0 <= i < |acts| && acts[i].Arrive? ==> acts[i].req in q
  }

  /** Every thread serves, and every answer went to, a request of q. */
  ghost predicate From(s: State, q: set<Request>) {
    && (forall t :: 0 <= t < |s.threads| ==> s.threads[t].req in q)
    && (forall i :: 0 <= i < |s.log| && s.log[i].Responded? ==> s.log[i].req in q)
  }

  lemma StepKeepsRequests(cfg: Config, s: State, t: nat, c: Choice)
    requires CanStep(s, t)
    ensures var s' := StepThread(cfg, s, t, c);
            && |s'.threads| == |s.threads|
            && forall u :: 0 <= u < |s.threads| ==> s'.threads[u].req == s.threads[u].req
  {
    if Inside(s.threads[t].pc) && !s.threads[t].pc.Unlock? { InnerStep(cfg, s, t, c); }
  }

  lemma FromApply(cfg: Config, s: State, a: Action, q: set<Request>)
    requires Enabled(s, a) && From(s, q) && (a.Arrive? ==> a.req in q)
    ensures From(Apply(cfg, s, a), q)
  {
    if a.Step? {
      StepKeepsRequests(cfg, s, a.t, a.choice);
      LogEffect(cfg, s, a.t, a.choice);
      var s' := Apply(cfg, s, a);
      forall i | 0 <= i < |s'.log| && s'.log[i].Responded? ensures s'.log[i].req in q {
        if i < |s.log| { assert s'.log[i] == s.log[i]; } else { assert EventOf(cfg, s.threads[a.t], s'.log[i]); }
      }
    }
  }

  lemma {:induction false} FromRun(cfg: Config, s: State, acts: seq<Action>, q: set<Request>)
    requires Legal(cfg, s, acts) && From(s, q) && ArrivalsIn(acts, q)
    ensures From(Run(cfg, s, acts), q)
    decreases |acts|
  {
    if acts != [] {
      FromApply(cfg, s, acts[0], q);
      FromRun(cfg, Apply(cfg, s, acts[0]), acts[1..], q);
    }
  }
}
