/** For which requests the cached server cannot be told from the one without a cache. */
module ProtocolLabels {
  import opened Verdicts
  import opened Protocol
  import opened ProtocolSafety
  import opened ProtocolRefinement
  import opened ProtocolArrivals
  import opened ProtocolExamples

  /** Both URLs hold the same bytes, which the gate does not allow. */
  predicate SameRefused(w: World, r: Request, u: Request) {
    && w.origin(r.Key()).status == 200 && w.origin(u.Key()).status == 200
    && w.origin(r.Key()).body == w.origin(u.Key()).body
    && w.judge(w.origin(r.Key()).body).decision != Allow
  }

  /** No bytes the gate refuses are asked for under two names. */
  ghost predicate OneNamePerRefusal(w: World, q: set<Request>) {
    forall r, u :: r in q && u in q && SameRefused(w, r, u) ==> r.Label("") == u.Label("")
  }

  /** Apart from outages and gate failures, every answer so far is the uncached server's. */
  ghost predicate AllExact(cfg: Config, w: World, log: seq<Event>) {
    forall i :: 0 <= i < |log| && log[i].Responded? && !log[i].response.BadGateway? && !log[i].response.GateFailed? ==>
      log[i].response == Uncached(cfg, w, log[i].req)
  }

  /** Every schedule of requests from q in this world, with every failure and crash, answers exactly. */
  ghost predicate AnswersExactly(cfg: Config, w: World, q: set<Request>) {
    forall acts :: Legal(cfg, START, acts) && ArrivalsIn(acts, q) && Honest(cfg, w, START, acts) ==>
      AllExact(cfg, w, Run(cfg, START, acts).log)
  }

  /** A refusal is filed under the name of some request of q for the same bytes. */
  lemma RefusalFiled(cfg: Config, w: World, q: set<Request>, acts: seq<Action>, i: nat, req: Request, v: Verdict)
    requires CollisionFree(cfg, w) && WellHashed(cfg) && Legal(cfg, START, acts) && ArrivalsIn(acts, q) && Honest(cfg, w, START, acts)
    requires var log := Run(cfg, START, acts).log; i < |log| && log[i] == Responded(req, Refused(v))
    ensures req in q
    ensures exists u :: u in q && FiledBy(cfg, w, u, v) && SameRefused(w, req, u)
  {
    var s := Run(cfg, START, acts);
    InvRun(cfg, START, acts);
    RightRun(cfg, w, START, acts);
    FiledRun(cfg, w, START, acts);
    FromRun(cfg, START, acts, q);
    assert ResponseOk(cfg, s.log[..i], Refused(v)) && Matches(cfg, w, req, Refused(v));
    assert WasIssued(s.log, v);
    var t :| 0 <= t < |s.threads| && FiledBy(cfg, w, s.threads[t].req, v);
  }

  /**
   The cached server cannot be told from the uncached one, in any schedule of requests from q, exactly
   when no bytes the gate refuses are asked for under two names.
  */
  lemma AnswersExactlyIff(cfg: Config, w: World, q: set<Request>)
    requires CollisionFree(cfg, w) && WellHashed(cfg)
    ensures AnswersExactly(cfg, w, q) <==> OneNamePerRefusal(w, q)
  {
    if OneNamePerRefusal(w, q) {
      forall acts | Legal(cfg, START, acts) && ArrivalsIn(acts, q) && Honest(cfg, w, START, acts)
        ensures AllExact(cfg, w, Run(cfg, START, acts).log) {
        OneNameIsExact(cfg, w, q, acts);
      }
    } else {
      var r, u :| r in q && u in q && SameRefused(w, r, u) && r.Label("") != u.Label("");
      TwoNamesTell(cfg, w, q, r, u);
    }
  }

  lemma OneNameIsExact(cfg: Config, w: World, q: set<Request>, acts: seq<Action>)
    requires CollisionFree(cfg, w) && WellHashed(cfg) && OneNamePerRefusal(w, q)
    requires Legal(cfg, START, acts) && ArrivalsIn(acts, q) && Honest(cfg, w, START, acts)
    ensures AllExact(cfg, w, Run(cfg, START, acts).log)
  {
    var log := Run(cfg, START, acts).log;
    forall i | 0 <= i < |log| && log[i].Responded? && !log[i].response.BadGateway? && !log[i].response.GateFailed?
      ensures log[i].response == Uncached(cfg, w, log[i].req) {
      var req, r := log[i].req, log[i].response;
      CachedRefinesUncached(cfg, w, acts, i, req, r);
      if r.Refused? {
        RefusalFiled(cfg, w, q, acts, i, req, r.verdict);
        var u :| u in q && FiledBy(cfg, w, u, r.verdict) && SameRefused(w, req, u);
        assert req.Label("") == u.Label("");
      }
    }
  }

  lemma TwoNamesTell(cfg: Config, w: World, q: set<Request>, r: Request, u: Request)
    requires WellHashed(cfg) && r in q && u in q && SameRefused(w, r, u) && r.Label("") != u.Label("")
    ensures !AnswersExactly(cfg, w, q)
  {
    var body := w.origin(r.Key()).body;
    var acts := BorrowSchedule(r, u, body, w.judge(body));
    RefusalBorrowsAName(cfg, w, r, u, body);
    var log := Run(cfg, START, acts).log;
    assert log[|log| - 1].response != Uncached(cfg, w, u);
    assert !AllExact(cfg, w, log);
  }
}
