# Detonator, verified

Detonator is a pull-through package registry: it fetches npm tarballs and PyPI files, judges each
distinct set of bytes once, and serves only what its gate allows. This project models its hardest
parts and proves what they promise, for all inputs, all schedules and all runs.

`dafny verify dfyconfig.toml` checks everything.

## What is modelled

- **Gate and serve** (`protocol*.dfy`, `store.dfy`, `server.dfy`, `signed.dfy`). Many request threads
  over one on-disk cache, as a transition system. Every access to shared state is a step; a store
  write is the temp-file protocol of `atomicWrite`, each of whose steps may fail; the process may
  crash between any two steps and go on with the files it left. `ProtocolLocks` proves mutual
  exclusion and progress, `ProtocolSafety` what every schedule keeps, `ProtocolRefinement` that the
  cached server answers like one without a cache, `ProtocolLabels` for which requests the two cannot be
  told apart, `ProtocolAnswers` when an answer is an outage, `ProtocolOnce` and `ProtocolSettled`
  at-most-once work, `ProtocolHistory` and `ProtocolAppends` what an append
  does to the package log and for which requests the log only grows; `ProtocolArrivals` and
  `ProtocolExamples` hold the schedules behind these. `Server.Handler` is the
  request handler as imperative code over the cache object, in an environment that says what upstream,
  the gate and the disk answer; it carries the run of the transition system it performs, so the theorems
  about runs are theorems about the code.
- **Campaign splits** (`unionfind.dfy`, `campaigns.dfy`, `families.dfy`, `splits.dfy`, `slices.dfy`). The
  union-find with path halving over a forest without ranks, the clusters it builds (the least equivalence
  generated by the large enough groups), what that means for rows and names, the temporal split and the
  campaign slices.
- **The JSON object extractor** (`scanner.dfy`, `json.dfy`), against a printer of JSON values whose
  strings are escaped as section 7 of RFC 8259 has them.
- **The decision algebra** (`ranking.dfy`, `engine.dfy`, `quorums.dfy`, `policy_laws.dfy`, `regrading.dfy`,
  `triage.dfy`, `gate.dfy`, `score.dfy`, `composition.dfy`, `evaluation.dfy`, `workers.dfy`).
- **Unpacking, behaviour rules, URL rewriting** (`paths.dfy`, `unpack.dfy`, `behavior*.dfy`, `orders.dfy`,
  `rewriting.dfy`, `routing.dfy`).
- `text.dfy`, `seqs.dfy` and `gather.dfy` hold the string and sequence facts the rest uses.

## Where the code and its comments differ

The model follows the code; each point below is a theorem.

- The caller's lock is said to make appending to the history safe (`internal/cache/cache.go:243-245`):
  that lock is per URL, so two versions of one package can lose a history entry
  (`ProtocolExamples.HistoryLosesAnEntry`). An append leaves what it read plus its own entry, so it loses
  something exactly when the log at its rename is not a prefix of that (`ProtocolHistory.AppendWrites`);
  and the log only grows, in all schedules, exactly when all requests for the package share one URL
  (`ProtocolAppends.AppendOnlyIff`).
- "families never span slices" (`phase3/heldout/split.py:157`): slices are windows over rows, so the
  campaign on a boundary is cut (`Slices.OnlyTheBoundaryCampaignIsCut`,
  `Slices.AFamilySpansTwoSlices`). A set number below 1 repeats set 1
  (`Slices.LowSetNumbersRepeatTheFirst`).
- "train <= cutoff < test" (`phase3/heldout/split.py:116`): the code trains strictly before the cutoff.
- Every string with the old prefix is said to be rewritten (`internal/proxy/npm.go:93-95`): strings held by
  arrays, and a document that is a bare string, are left alone (`Rewriting.RewritesExactly`).
- An artifact that cannot be unpacked is said to surface for review (`internal/gate/pipeline.go:53-54`): it has
  one medium signal, which the shipped policy allows (`Composition.UnpackFailureAlone`).
- Raising a rule's severity can lower a decision, unless one critical blocks and one high quarantines
  (`Regrading.RaisingIsSafeIff`). An override to medium is no promotion for a rule that is graded higher
  somewhere, and can then cost a catch (`Regrading.PromotingToMediumLosesIff`,
  `Regrading.AloneAtMediumIsMissed`). The promotion view tries rules seen below high; where no rule is
  high in one sample and lower in another, each of its lines is at or above the baseline
  (`Evaluation.CandidatesOnlyGain`).
- A verdict is looked up by digest, and the digest the verdict itself names is not compared
  (`internal/cache/cache.go:278-312`). In a store only PutVerdict has written the two agree
  (`SignedVerdicts.HitIsLastPut`); a verdict file moved to another digest's name is still a hit
  (`SignedVerdicts.MovedFileIsAHit`).
- A 403 body names the package the verdict was first issued for, which may be another request's
  (`ProtocolExamples.RefusalBorrowsAName`); everything else a client sees is as without a cache. The
  two servers cannot be told apart, in any schedule, exactly when no bytes the gate refuses are asked
  for under two names (`ProtocolLabels.AnswersExactlyIff`).
- Phases are visited in an order of the runtime's choosing, and a drop counts only for runs visited no
  earlier: download-and-execute is reported in every order exactly when phases drop and run in a circle,
  and in some order exactly when any drop is run at all (`BehaviorOrders.AlwaysFiresIffCycle`,
  `BehaviorOrders.CanFireIffAnyEdge`).
- The evaluation's worker pool hangs when asked for no workers (`Workers.StuckIffNoWorkers`).

## Assumptions

- Digests are a function parameter. Nearly all theorems ask only that it yields well-formed
  `sha256:` strings; the refinement also asks that no two bodies the world offers collide, and the
  counterexamples about the log use two bodies with different digests.
- Signatures are ideal: a signature is the pair of key and message. The JSON codec of verdicts is a
  parameter with the two laws of `SignedVerdicts.Faithful` and, where a theorem says so, keeps digests.
- File names derived by hashing a key are taken as the key. Temporary file names are never reused.
- Upstream, the gate's opinion inside the protocol, the model's answer, regular-expression and
  substring classifiers, container decoders, the differ and the OSV client are parameters.
- A severity or decision outside the constants is `Ungraded`/`Undefined` with its text.

## Model

| member | source | states |
|---|---|---|
| ProtocolLocks.LockInvRun | internal/cache/cache.go:391-408 | every schedule keeps: live keys map to distinct mutexes, each request past the lock holds its key's mutex, each locked mutex has such a holder |
| ProtocolLocks.MutualExclusion | internal/proxy/server.go:66-69 | at any moment of any schedule at most one request per key is past the lock |
| ProtocolLocks.OneMutexPerKey | internal/cache/cache.go:398-408 | a key's mutex never changes while the process lives and no other key gets it |
| ProtocolLocks.NoDeadlock | internal/cache/cache.go:398-408 | while a request is unfinished some thread can step |
| ProtocolLocks.BoundedRuns | internal/proxy/server.go:62-132 | without new arrivals every schedule is at most as long as the work left |
| ProtocolLocks.Progress | internal/proxy/server.go:62-132 | a schedule nobody can extend has finished every request and released every lock, and only such a one |
| ProtocolSafety.StoreTouchesOwn | internal/cache/cache.go:360-375 | one step of an atomic write changes no file but its own temp file and its target, and the target stays as it was or, at a successful rename, becomes the whole document; no other thread uses that temp file |
| ProtocolSafety.InvRun | internal/proxy/server.go:62-132 | every schedule keeps the invariant on disk, threads and log: whole documents in place, local data justified by issued verdicts, each answer justified by the log before it |
| ProtocolSafety.ServedOnlyIfAllowed | internal/proxy/server.go:71-131 | a 200 with body b is preceded by an issued Allow verdict for exactly the digest of b |
| ProtocolSafety.RefusedOnlyIfJudged | internal/proxy/server.go:74-77 | a 403 carries an earlier issued verdict that does not allow |
| ProtocolSafety.StoresStayWhole | internal/cache/cache.go:4-9 | no reachable named file is partial; artifacts lie under their own digest, verdicts under their artifact's digest, histories have pairwise distinct digests of issued verdicts |
| ProtocolRefinement.CachedRefinesUncached | internal/proxy/server.go:71-131 | with fixed upstream bytes and a gate that judges bytes, every 200, 403 or passed-on status is the uncached server's answer, up to the name in a 403 body, and exactly so when that name is the request's |
| ProtocolRefinement.ExactUnlessRenamed | internal/proxy/server.go:71-131 | if no request asked for the same bytes under another name the answers are equal outright |
| ProtocolAnswers.OutageIff | internal/proxy/server.go:86-108 | every answer was sent by one request thread: a 502 exactly when that thread's fetch got no answer, a 500 exactly when its gate call got none |
| ProtocolAnswers.EveryAnswerRefines | internal/proxy/server.go:71-131 | where every fetch and gate call is answered, every answer without exception is the uncached server's, up to the name in a 403 |
| ProtocolAnswers.EveryAnswerIsPlain | internal/proxy/server.go:71-131 | the same in terms of what the URL holds and what the gate thinks of it |
| ProtocolOnce.WorkAtMostOnce | internal/proxy/server.go:66-121 | after a slow path whose three writes succeeded, in every continuation with crashes, each fetch or gate call for the key follows a failed read of one of its files |
| ProtocolSettled.AskedOnceRun | internal/proxy/server.go:66-121 | while the disk works, in every schedule with crashes, no fetch and no gate call follows an answer made from the URL's bytes |
| ProtocolHistory.AppendWrites | internal/cache/cache.go:246-262 | whoever interleaves it, an append leaves the log it read plus its entry: it extends the current log exactly when that is the log it read, and loses nothing exactly when the current log is a prefix of what it writes |
| ProtocolHistory.AppendExtends | internal/cache/cache.go:246-262 | if no other append to that log ends between an append's read and its rename, the log at the rename is still the one read and becomes it plus the entry |
| ProtocolHistory.NewDigestIsAppended | internal/cache/cache.go:246-262 | a verdict is appended exactly when no entry of the log has its digest |
| ProtocolAppends.UninterleavedOnlyGrows | internal/cache/cache.go:243-262 | along a whole schedule in which no append to a log is interleaved, each state of the log is a prefix of every later one |
| ProtocolAppends.AppendOnlyIff | internal/cache/cache.go:243-262 | in every schedule of requests from a set, with every failure and crash, the log only grows, exactly when all requests for the package share one URL and so one lock |
| ProtocolExamples.HistoryLosesAnEntry | internal/cache/cache.go:243-262 | a schedule of two requests for one package under two URLs in which both appends succeed and one entry is gone |
| ProtocolExamples.RefusalBorrowsAName | internal/proxy/server.go:100-125 | for any two requests for the same refused bytes under different names, a schedule in the given world whose second 403 body carries the first one's name and version |
| ProtocolLabels.AnswersExactlyIff | internal/proxy/server.go:71-131 | every schedule of requests from a set answers exactly as the uncached server, outages and gate failures aside, if and only if no two of them ask for the same bytes, judged other than allow, under different names |
| ProtocolWrites.WriteEnds | internal/cache/cache.go:360-375 | the steps of one atomic write, left alone, end in the disk that AtomicWrite's contract names |
| Store.Cache.AtomicWrite | internal/cache/cache.go:360-375 | succeeds exactly when create, write and rename do; the disk is the old one with the document in place, or with at most a stray temp file |
| Store.WrittenWholeOrNot | internal/cache/cache.go:358-375 | the target holds the whole new document, or every named file is as before |
| Store.Cache.PutArtifact | internal/cache/cache.go:99-112 | stores the bytes under their own digest and returns it exactly on success |
| Store.Cache.GetArtifact | internal/cache/cache.go:85-95 | the stored bytes, or nothing for a bad digest, a missing file or a failed read |
| Store.Cache.PutLocator | internal/cache/cache.go:201-206 | refuses a malformed digest, else one atomic write |
| Store.Cache.GetLocator | internal/cache/cache.go:186-198 | the digest stored for the key if it is well formed |
| Store.Cache.AppendHistory | internal/cache/cache.go:246-262 | writes exactly when the log is readable and lacks the digest, and then the log with the entry at its end |
| Store.Cache.GetHistory | internal/cache/cache.go:228-241 | an absent log is empty, an undecodable one an error |
| Store.ReadBack | internal/cache/cache.go:60-206 | a get after a put finds what was put, or what was there when the put failed |
| Server.Handler.ServeArtifact | internal/proxy/server.go:62-132 | serving a request is one run of the protocol and ends with this answer; if upstream and the gate always answer, as one world, it is what that world makes of the request: upstream's other status, the bytes it allows, or a refusal with its opinion of them; a 502 or 500 means that upstream or the gate did not answer about this request; while the disk works nothing answered from its bytes is fetched or judged again |
| Server.Handler.FastPath | internal/proxy/server.go:71-83 | follows the state machine's three reads to an answer or to the slow path |
| Server.Handler.SlowPath | internal/proxy/server.go:85-131 | follows fetch, judge and the three writes to an answer |
| Server.Handler.Lock | internal/cache/cache.go:398-408 | the key's own mutex, new for a new key, and no other key's changes |
| SignedVerdicts.VerdictStore.PutVerdict | internal/cache/cache.go:320-342 | stores the verdict signed when there is a signer, bare otherwise, under its digest |
| SignedVerdicts.VerdictStore.GetVerdict | internal/cache/cache.go:278-316 | accepts a signed entry only from its own key and a bare one only without a signer |
| SignedVerdicts.RoundTrip | internal/cache/cache.go:278-342 | get after put, for every pairing of signers: a hit exactly when both are unsigned, or the same key and the canonical bytes survive re-reading |
| SignedVerdicts.StableRoundTrip | internal/sign/sign.go:88-122 | a verdict that survives its encoding comes back as it was exactly when the signers agree |
| SignedVerdicts.HitMeansSigned | internal/sign/sign.go:103-122 | with a signer, whatever the file holds, a hit is a verdict that key has signed |
| SignedVerdicts.AlterationMisses | internal/sign/sign.go:103-122 | altering any field of an envelope but keeping its signature, or putting in one the key never made, turns the hit into a miss |
| SignedVerdicts.HitIsLastPut | internal/cache/cache.go:278-312 | in a store only puts have written, a hit under a digest is the last verdict put under it, by the reader's own signer, and names that digest |
| SignedVerdicts.MovedFileIsAHit | internal/cache/cache.go:278-312 | a verdict file under another digest's name is a hit as well and names the old digest |
| SignedVerdicts.HitNamesIff | internal/cache/cache.go:278-312 | whoever wrote the files, every hit names the digest asked for exactly when every file that is a hit names its own |
| SignedVerdicts.VerdictStore.SetSigner | internal/cache/cache.go:38-40 | replaces the signer and leaves the files |
| UnionFind.Union.Find | phase3/heldout/split.py:55-60 | terminates on the forest without ranks, returns the root, and changes no root; a new key becomes its own |
| UnionFind.Union.Merge | phase3/heldout/split.py:62-65 | the keys of b's class get a's root and every other root stays |
| UnionFind.HalvingKeepsRoots | phase3/heldout/split.py:57-59 | one halving step keeps the forest acyclic and every root as it was |
| UnionFind.RootsAreUnique | phase3/heldout/split.py:55-60 | the root a forest gives a key does not depend on the witness of its shape |
| Campaigns.ByDay | phase3/heldout/split.py:76-78 | the dictionary holds every day group with exactly its members in order |
| Campaigns.ByPrefix | phase3/heldout/split.py:85-89 | the dictionary holds every prefix group of names with more than two tokens with exactly its members |
| Campaigns.MergeGroups | phase3/heldout/split.py:79-93 | one pass joins the members of every large enough group, and only linked keys |
| Campaigns.CampaignClusters | phase3/heldout/split.py:68-95 | two keys get the same id exactly when a chain of shared large enough groups links them |
| Families.TogetherIff | phase3/heldout/split.py:76-93 | two packages are joined directly exactly when rows of theirs share an ecosystem and a day of at least 10 rows, or an ecosystem and two leading hyphen-free tokens that at least 3 longer names share |
| Families.FamilyIsLinked | phase3/heldout/split.py:85-93 | three rows a-b-x, a-b-y, a-b-z of one ecosystem are one campaign, whatever their days |
| Families.BulkDayIsLinked | phase3/heldout/split.py:76-83 | ten rows of one ecosystem and day are one campaign, whatever their names |
| Families.LonerIsUnlinked | phase3/heldout/split.py:68-95 | a package listed once, on a day of at most 9 rows and with no prefix that more than 2 rows share, is a campaign of its own |
| Campaigns.LinkedSameEcosystem | phase3/heldout/split.py:75-93 | linked keys are of one ecosystem |
| Campaigns.PartitionIgnoresOrder | phase3/heldout/split.py:68-95 | the partition is the same for every order of the rows |
| Splits.TemporalConserves | phase3/heldout/split.py:141-150 | train and test together are a permutation of the rows and share no campaign id |
| Splits.TestIsNovel | phase3/heldout/split.py:144-148 | a row is tested exactly when its whole campaign was first seen at or after the cutoff |
| Splits.SidesAreUnlinked | phase3/heldout/split.py:98-104 | no chain of groups leads from a test row to a train row |
| Splits.TemporalMode | phase3/heldout/split.py:124-155 | from the pool to the sides: nothing is lost, the test side is in row order exactly the rows no linked row of which is dated before the cutoff, the train side the earlier rows and then the moved ones, each in row order, and the purity check cannot stop it |
| Slices.GroupRows | phase3/heldout/split.py:160-162 | each cluster's rows, in pool order |
| Slices.TakeCluster | phase3/heldout/split.py:168-173 | the four dictionaries after one cluster; stops exactly at a row of a third ecosystem |
| Slices.CampaignMode | phase3/heldout/split.py:157-174 | per ecosystem exactly the window of the cluster-ordered rows that starts at want*(set-1); no slice exactly when a third ecosystem is met |
| Slices.SlicesTile | phase3/heldout/split.py:163-173 | sets 1 to m end to end are the first want*m rows of the ordering |
| Slices.SliceAt | phase3/heldout/split.py:163-172 | row j of set k is row want*(k-1)+j of the ordering, and a set is full while the rows last |
| Slices.SlicesCoverThePool | phase3/heldout/split.py:157-174 | enough sets hold every row of the ecosystem exactly once |
| Slices.OnlyTheBoundaryCampaignIsCut | phase3/heldout/split.py:157-174 | a campaign has rows on both sides of a boundary exactly when the two rows at it are its own |
| Slices.AFamilySpansTwoSlices | phase3/heldout/split.py:157 | ten packages of one day, five a slice: that campaign spans slices |
| Slices.LowSetNumbersRepeatTheFirst | phase3/heldout/split.py:164 | every set number below 1 yields the rows of set 1 |
| Scanner.ExtractJSONObject | internal/triage/codex.go:188-224 | the two loops return the last of the objects a restarting scan finds |
| Scanner.ClosesWhereBalanced | internal/triage/codex.go:195-219 | a brace closes at e exactly when the scan depth is at least 1 in between and 0 there |
| Scanner.ObjectsExact | internal/triage/codex.go:190-222 | what the scan finds is balanced, in order and apart, and no other brace outside opens a balanced object |
| Scanner.ObjectsUnique | internal/triage/codex.go:190-222 | those properties leave no choice |
| Scanner.ExtractedMeans | internal/triage/codex.go:184-224 | nothing exactly when no brace opens a balanced object, else a balanced object after which none opens |
| JsonText.PrintNeutral | internal/triage/codex.go:184-187 | scanning any printed JSON value, with braces, quotes and backslashes in its strings, brings the scan back to where it was |
| JsonText.LogObjects | internal/triage/codex.go:184-224 | in a log of objects between brace-free text the scan finds those objects and nothing else |
| JsonText.ExtractsTheLastObject | internal/triage/codex.go:184-224 | the result is the text of the last object printed, byte for byte |
| JsonText.ExtractsTheObject | internal/triage/codex.go:184-224 | one object with brace-free text around it comes out exactly |
| Ranking.SortSignals | internal/engine/engine.go:135-149 | the in-place sort of a copy yields the stable sort by rank, stage and rule |
| Ranking.InsertAllIsStableSort | internal/engine/engine.go:135-149 | sorted, a permutation, and signals with one key keep their order |
| Ranking.StableSortIsUnique | internal/engine/engine.go:135-149 | sortedness and the order within keys determine the result |
| Ranking.OrderDoesNotMatter | internal/engine/engine.go:135-136 | permutations with distinct keys sort to the same sequence |
| Engine.Decide | internal/engine/engine.go:56-101 | filter, count, weigh, explain and sort give the verdict of the specification, whose signals are a sorted permutation of the enabled re-graded ones |
| Quorums.DecisionMeans | internal/engine/engine.go:47-90 | with positive quorums as configured and 1, 1, 2 for the others: block exactly at enough criticals, else quarantine at enough highs or mediums, else allow, counting the enabled signals by the grade the policy gives them; failing closed never quarantines |
| Quorums.OneMediumUnderOnes | internal/engine/engine.go:47-53 | one medium is quarantined at quorums 1, 1, 1 and allowed at 0, 0, 0 and below |
| Quorums.ReasonMeans | internal/engine/engine.go:103-120 | the words of a quarantine and of an allow, with the counts |
| Quorums.BlockQuotesACritical | internal/engine/engine.go:103-128 | a block for its criticals quotes one of them |
| Ranking.BeforeMeans | internal/engine/engine.go:130-149 | critical, high, medium, low, info, anything else; then the stage, then the rule |
| Text.DecimalReads | internal/engine/engine.go:111-118 | a count's text reads back as the count |
| Engine.CountedWhereKept | internal/engine/engine.go:57-74 | counting after the filter counts the enabled signals by their grade |
| Engine.NothingToFilter | internal/engine/engine.go:57-69 | skipping the filter for an empty policy changes nothing |
| Engine.BlockNamesASignal | internal/engine/engine.go:103-128 | a block's reason names a counted signal no other outranks: critical when the critical quorum was met, at least medium otherwise |
| PolicyLaws.AddingNeverLowers | internal/engine/engine.go:71-90 | more signals never lower the decision |
| PolicyLaws.LooseningNeverRaises | internal/engine/engine.go:17-42 | disabling rules, raising resolved quorums or leaving fail-closed mode never raises it |
| PolicyLaws.FailClosedMeaning | internal/engine/engine.go:88-90 | failing closed turns quarantines into blocks and nothing else |
| PolicyLaws.OrderIsIrrelevant | internal/engine/engine.go:71-86 | the decision ignores the order of the signals |
| PolicyLaws.VerdictIgnoresOrder | internal/engine/engine.go:92-101 | with distinct keys so does the whole verdict, reason included |
| Regrading.RaisingIsSafeIff | internal/engine/engine.go:37-41 | raising severities never lowers the decision, for all inputs, exactly when the resolved critical and high quorums are 1 |
| Regrading.HighQuorumAboveOne | internal/engine/engine.go:77-86 | at any higher high quorum, signals whose raising turns a quarantine into an allow |
| Regrading.PromotingToHighKeepsCatches | internal/engine/engine.go:37-41 | under the shipped quorums an override to high loses no catch |
| Regrading.PromotingToMediumLosesIff | internal/engine/engine.go:37-41 | an override to medium loses a catch exactly when the rule fired once, at high or critical, and nothing else is medium or worse |
| Regrading.AloneAtMediumIsMissed | internal/engine/engine.go:37-41 | one high signal: quarantined as it is, allowed when overridden to medium |
| Regrading.PromotingNeverLowers | internal/engine/engine.go:37-41 | under the shipped quorums, promoting a rule nowhere graded above the new severity never lowers the decision |
| Regrading.PromotionBuys | cmd/deval/main.go:267-272 | of the signals let through, promotion to high catches exactly those with the rule, to medium exactly those where it fires twice or beside a medium |
| Triage.ParseOutput | internal/triage/codex.go:165-178 | the four outcomes of reading the model's output |
| Triage.LastMessageDecides | internal/triage/codex.go:164-182 | whatever log surrounds it, the last printed object is what is decoded, and only the three verdicts are accepted |
| Triage.ToSignal | internal/triage/triage.go:45-63 | high exactly for a block, medium exactly for a quarantine, info for the rest, under the rule named after the verdict, with every reason readable in the evidence |
| Triage.TriageAdds | internal/gate/pipeline.go:103-129 | an unavailable model adds one info signal; an answer adds its own signal, and a medium disagreement exactly when one of rules and model allows and the other does not |
| Triage.JoinSignals | internal/triage/triage.go:94-103 | the parts in order with the separator between them |
| Gate.GateTriage | internal/gate/pipeline.go:103-129 | the gate's triage step adds exactly the specified signals |
| Score.TriageStep | internal/score/score.go:87-110 | the scorer's copy adds the same signals for the same answer |
| Gate.Pipeline.PreviousGood | internal/gate/pipeline.go:137-158 | the backward search returns the predecessor the specification names, or none |
| Gate.LatestIsLatest | internal/gate/pipeline.go:134-158 | that predecessor is good and no later entry is; without one no entry is good |
| Gate.PreviousIs | internal/gate/pipeline.go:134-158 | the predecessor is the last entry of the log that was allowed, has another digest, and whose bytes can be read and unpacked; there is none exactly without such an entry |
| Gate.Pipeline.Admit | internal/gate/pipeline.go:45-98 | the verdict is the engine's over rule and triage signals; the log gains the decision unless unreadable or already there; under the shipped policy a critical from OSV blocks every artifact |
| Gate.NotUnpacked | internal/gate/pipeline.go:51-82 | an artifact that cannot be unpacked brings the medium signal that says so and all that OSV says |
| Gate.FirstVersion | internal/gate/pipeline.go:60-82 | one that can be, without a predecessor, brings the inspection's signals and then OSV's |
| Gate.LaterVersion | internal/gate/pipeline.go:60-82 | with one it also brings the differ's, from the predecessor's version and files to the candidate's |
| Composition.PipelineIsUnanimous | internal/gate/pipeline.go:84-98 | under the shipped policy the pipeline with a model admits exactly what the rules allow and the model does not object to, and blocks exactly what the rules block |
| Score.Score | internal/score/score.go:29-32 | the engine's verdict over the collected evidence |
| Score.Signals | internal/score/score.go:34-42 | the same artifact and signals that scoring decides on, so a replay decides alike |
| Score.ScoreTriage | internal/score/score.go:49-56 | the engine's verdict over evidence and triage signals |
| Score.EvidenceIs | internal/score/score.go:63-82 | the signals scored are the trace's, if there is one and it parses, and then the tarball's under its own digest, if there is one and it unpacks |
| Composition.TriageCounts | internal/score/score.go:100-109 | what a valid answer adds to each severity count |
| Composition.TriageNeverLowers | internal/score/score.go:44-56 | under any policy asking the model never lowers the rules' decision |
| Composition.OnlyRulesBlock | internal/triage/triage.go:50-55 | not failing closed, the final decision is block exactly when the rules block |
| Composition.UnanimityIff | internal/gate/pipeline.go:84-93 | admission needs the rules' allow and no objection, for all inputs, exactly at medium quorum 1, or 2 with high quorum 1 |
| Composition.ShippedPolicyIsUnanimous | internal/engine/engine.go:44-45 | so under the shipped policy |
| Composition.UnpackFailureAlone | internal/gate/pipeline.go:51-59 | an artifact that cannot be unpacked and has nothing else against it is allowed exactly when the medium quorum exceeds 1 |
| Evaluation.Apply | cmd/deval/main.go:189-214 | the six tallies are the independent counts of their classes |
| Evaluation.TalliesMean | cmd/deval/main.go:189-214 | the tallies are numbers of samples by error, label and decision |
| Evaluation.RatesMean | cmd/deval/main.go:52-64 | a rate is the share in percent, and 0 of nothing |
| Evaluation.Conserved | cmd/deval/main.go:189-214 | malicious, benign and errors add up to the corpus, numerators stay below denominators |
| Evaluation.SweepIsMonotone | cmd/deval/main.go:361-375 | higher quorums never raise caught, flagged, blocked or the two rates |
| Evaluation.AblationOnlyLoses | cmd/deval/main.go:377-411 | a disabled rule only loses, exactly the samples that needed it, and at most those it fired on |
| Evaluation.Ablate | cmd/deval/main.go:379-411 | one row per rule that fires anywhere, with the catches and flags only it makes and the points of recall and false positives they are |
| Evaluation.PromotionToHighKeeps | cmd/deval/main.go:298-304 | promoting to high loses no catch and no flag on any corpus |
| Evaluation.RegradingToMediumCosts | internal/engine/engine.go:37-41 | under an override to medium, the change in catches over a corpus is those gained minus those hanging on one severe signal of the rule |
| Evaluation.PromotionOnlyGains | cmd/deval/main.go:298-304 | promoting a rule the corpus nowhere grades above the new severity catches exactly the misses it buys more, and lowers no count and no rate |
| Evaluation.CandidatesOnlyGain | cmd/deval/main.go:273-304 | so for each rule the promotion view tries, at medium and at high, if no rule is high or critical in one place and below in another |
| Evaluation.MissAnalysis | cmd/deval/main.go:311-333 | counts silent and sub-threshold misses, and each rule once per missed sample |
| Evaluation.MissesMean | cmd/deval/main.go:311-333 | what is counted, as sets of malicious samples the policy allows |
| Evaluation.MissesAddUp | cmd/deval/main.go:311-334 | the two kinds are all the misses, and no rule is named on more |
| Workers.ReturnsEveryAnalysis | cmd/deval/main.go:142-161 | whatever the interleaving, the returned array holds each sample's own analysis |
| Workers.EveryRunIsBounded | cmd/deval/main.go:142-161 | no schedule of the pool is longer than the work there is |
| Workers.StuckIffNoWorkers | cmd/deval/main.go:142-161 | the pool can hang exactly when there are samples and no workers |
| Unpack.UnpackTarGz | internal/artifact/unpack.go:109-155 | accepts exactly the archives within every budget and files their regular members in order, without 64-bit overflow |
| Unpack.UnpackZip | internal/artifact/unpack.go:157-198 | the same for zip members |
| Unpack.ReadCapped | internal/artifact/unpack.go:200-213 | the first 4 MiB and whether there was more, or an error if the stream breaks before one byte more; what the drain meets is dropped |
| Unpack.UnpackAuto | internal/artifact/unpack.go:92-107 | the container by ecosystem and magic number, or an error |
| Unpack.ContainerMeans | internal/artifact/unpack.go:92-107 | npm is a gzipped tar below package/, PyPI a zip exactly when it starts with PK and bytes 3 and 4 and a gzipped tar otherwise, nothing else is unpacked |
| Unpack.BudgetMeans | internal/artifact/unpack.go:22-36 | the limits in figures: 20000 files, 32 MiB each, 512 MiB in all, and no member broken within its first 4 MiB and a byte |
| Unpack.MemberFiled | internal/artifact/unpack.go:109-198 | a member below one directory is filed under its path there, with its first 4 MiB |
| Unpack.UnpackedIsBounded | internal/artifact/unpack.go:22-36 | at most 20000 files of declared sizes up to 32 MiB and 512 MiB in all, each holding as many first bytes as declared up to 4 MiB and marked truncated exactly above that, paths contained; the declared size is true unless the member broke after 4 MiB |
| Unpack.Unpacked.Index | internal/artifact/unpack.go:63-68 | the index maps each path to its last file and nothing else |
| Unpack.Unpacked.Lookup | internal/artifact/unpack.go:45-52 | the last file with that path, or none |
| Unpack.LastAtIsLast | internal/artifact/unpack.go:63-68 | what the last file is |
| Paths.CleanIsContained | internal/artifact/unpack.go:218-220 | the cleaned name is relative and has no dot components |
| Paths.LogicalPathContained | internal/artifact/unpack.go:218-229 | for any member name the logical path is relative and has no ".." |
| Paths.LogicalPathKeeps | internal/artifact/unpack.go:218-229 | a well-formed path inside the stripped directory comes out as it is |
| Paths.UpCancelsDown | internal/artifact/unpack.go:218-220 | a component followed by .. may as well not be there |
| Paths.DotVanishes | internal/artifact/unpack.go:218-220 | nor a dot or a doubled slash |
| Paths.RootHasNoParent | internal/artifact/unpack.go:218-220 | nor a leading .. |
| Behavior.ConnectsHardcodedIP | internal/analyze/behavior/behavior.go:435-442 | yes exactly when the address is routable and no other hostname is recorded |
| Behavior.IsUnknownDomain | internal/analyze/behavior/behavior.go:485-496 | yes exactly when the host is neither local nor whitelisted for the ecosystem |
| Behavior.SpawnsWritten | internal/analyze/behavior/behavior.go:304-314 | the first argument that is a path to a dropped name |
| BehaviorAnalysis.DnsExfilPattern | internal/analyze/behavior/behavior.go:344-367 | the count is the true maximum multiplicity of a parent domain, reached by the one returned |
| BehaviorAnalysis.HasUnknownEgress | internal/analyze/behavior/behavior.go:409-425 | yes exactly when some phase contacts an unknown destination |
| BehaviorAnalysis.ScanFiles | internal/analyze/behavior/behavior.go:32-66 | signals, credential reads, drops and deletions of a phase's files |
| BehaviorAnalysis.ScanCommands | internal/analyze/behavior/behavior.go:67-83 | signals and tools of a phase's commands, given the drops so far |
| BehaviorAnalysis.Analyze | internal/analyze/behavior/behavior.go:23-152 | per-item signals of the visit followed by the aggregates, whatever orders the three walks of the map take |
| BehaviorRules.ReportedIff | internal/analyze/behavior/behavior.go:31-118 | in every visiting order a signal of a rule about single events is reported, word for word, exactly when some phase holds an event that is reported so |
| BehaviorRules.BareAddressIff | internal/analyze/behavior/behavior.go:97-106 | hardcoded-ip-egress, at high, exactly for a socket that is neither a metadata contact nor at a mining port, with a routable address and no other hostname |
| BehaviorRules.MetadataIff | internal/analyze/behavior/behavior.go:86-90 | cloud-metadata-access, at critical, exactly for a socket to one of the two metadata addresses |
| BehaviorRules.MiningIff | internal/analyze/behavior/behavior.go:91-96 | mining-pool-egress, at high, for a socket at one of the five ports that is no metadata contact, or as the command pattern grades it |
| BehaviorRules.UnknownDomainIff | internal/analyze/behavior/behavior.go:108-117 | unknown-domain, at high, exactly for a query outside the listed registries |
| BehaviorRules.SensitiveReadIff | internal/analyze/behavior/behavior.go:35-46 | a read of a sensitive category, at its grade, exactly for a file of it that was read |
| BehaviorRules.WriteIff | internal/analyze/behavior/behavior.go:48-54 | persistence-write and binary-overwrite exactly for a file written that is graded so |
| BehaviorPatterns.ExfilChainIff | internal/analyze/behavior/behavior.go:139-150 | exfil-chain exactly when some phase reads a grave credential or a registry token and some phase contacts an unknown destination |
| BehaviorPatterns.ReconBurstIff | internal/analyze/behavior/behavior.go:127-132 | recon-burst exactly when commands name three different tools |
| BehaviorPatterns.EncodedMeans | internal/analyze/behavior/behavior.go:344-375 | a query counts for its last two labels exactly when it is unknown and 20 or more characters stand before them |
| BehaviorPatterns.ThreeQueriesFire | internal/analyze/behavior/behavior.go:133-138 | three such queries to one parent are reported |
| BehaviorPatterns.DataDestructionIff | internal/analyze/behavior/behavior.go:121-126 | data-destruction exactly for 25 deletions outside the package manager's trees over all phases, or a destructive command |
| BehaviorLaws.OrderDoesNotShow | internal/analyze/behavior/behavior.go:31-118 | any two visiting orders give the same multiset of rule and severity, apart from the two rules the runtime's choices reach |
| BehaviorLaws.AggregatesFireIff | internal/analyze/behavior/behavior.go:133-150 | exfil-chain exactly with a credential read and an unknown contact anywhere; dns-exfil exactly with three encoded queries to one parent |
| BehaviorLaws.DestructionIff | internal/analyze/behavior/behavior.go:121-126 | data-destruction exactly with 25 deletions over all phases or a destructive command |
| BehaviorLaws.DropAndRunIff | internal/analyze/behavior/behavior.go:77-82 | download-and-execute exactly when a command names a file dropped in its phase or one visited before |
| BehaviorOrders.AlwaysFiresIffCycle | internal/analyze/behavior/behavior.go:31-82 | the rule fires in every visiting order exactly when the relation of a phase to those that run what it drops has a cycle, self-loops included |
| BehaviorOrders.CanFireIffAnyEdge | internal/analyze/behavior/behavior.go:31-82 | and in some order exactly when that relation is not empty |
| Orders.ForwardIffCycle | internal/analyze/behavior/behavior.go:31-82 | the fact behind it: every order of some items has an edge that does not point back exactly when the edges have a cycle |
| BehaviorLaws.SamePhaseAlwaysFires | internal/analyze/behavior/behavior.go:293-314 | a drop and a run in one phase are reported in every order |
| Rewriting.RewriteURLStrings | internal/proxy/npm.go:96-111 | the walk returns the specified rewriting |
| Rewriting.RewritesExactly | internal/proxy/npm.go:93-111 | position by position: shape, keys and leaves stay, except object-held strings with the old prefix, which get the new one |
| Rewriting.IdempotentIff | internal/proxy/npm.go:93-111 | rewriting twice is rewriting once, for all documents, exactly for equal prefixes or prefixes neither of which continues the other |
| Rewriting.SecondPassChanges | internal/proxy/npm.go:93-111 | for the others a document that a second pass changes |
| Routing.SplitTarballMeaning | internal/proxy/npm.go:32-40 | the parts make up the request and the cut is at the first separator |
| Routing.NPMRoundTrip | internal/proxy/npm.go:19-30 | rewriting then routing leads back to the upstream URL, as a tarball exactly when it holds the separator |
| Routing.NPMVersionRecovered | internal/proxy/npm.go:119-129 | the version comes back from npm's file name, scoped or not |
| Routing.PypiProject.RewriteFileURLs | internal/proxy/pypi.go:93-101 | every file below the upstream is repointed in place, nothing else changes |
| Routing.PyPIRoundTrip | internal/proxy/pypi.go:133-145 | rewriting then routing leads back to the upstream URL |
| Routing.SdistLabelIff | internal/proxy/pypi.go:160-165 | a source archive's label is right exactly when its version has no hyphen |
| Routing.WheelLabelIff | internal/proxy/pypi.go:153-159 | a wheel's label is right exactly when neither name nor version has one |

## Left out

- HTTP, upstream transport, logging, flags, output formatting, wall-clock stamps, metadata freshness and build stamps.
- The metadata store and its sidecar, whose two writes are independent and add nothing to the protocol.
- sha256, ed25519, gzip, tar, zip and JSON decoding: library code, standing behind parameters.
- Error texts of failed stages, the diff attached to a verdict, and the excerpts shown to a model.
- The differ, the OSV client, the static rules and all pattern classifiers: parameters.
- Rewriting.RewriteURLStrings: works on document values, so updating the decoded maps in place is not captured; a freshly decoded document shares no parts, so the result is the same.
- Server.Handler.ServeArtifact: covers one request at a time; interleavings are in the transition system.
- SignedVerdicts.VerdictStore.GetVerdict: a file that carries a signature field of another JSON type is not distinguished from an undecodable one.
- BehaviorLaws.OrderDoesNotShow: leaves out download-and-execute, whose exact dependence on the visiting order is BehaviorOrders.AlwaysFiresIffCycle, and recon-burst, which depends on the tool names the runtime picks.
- Unpack.UnpackTarGz: a member that does not break is taken to yield exactly its declared size, as the tar reader ensures.
- Unpack.UnpackZip: likewise; a member whose stream breaks only after the first 4 MiB and one byte is accepted with its declared size, as in the code, and sizes of 2^63 and more are not told from other sizes too large.
- Gate.Pipeline.Admit: the evidence of `unpack-failed` and `osv-unavailable`, which is the text of the error, is left blank.
- Routing.PyPIRoundTrip: paths without percent escapes, as handed to the handler.
- Routing.NPMRoundTrip: paths without percent escapes, as handed to the handler; the multiplexer's own path cleaning is not part of this model.
- The report's attribution table, the counts and order of the candidate list of `promote`, floating-point formatting and the HTML page.
- `internal/triage/panel.go`, prompts and subprocesses; `phase0`, the recording network, simulators and shell scripts.
