/** One worker against the store, with replies that may be lost at any call. */
module WorkerRuns {
  import opened Wrappers
  import opened Vocabulary
  import opened Snapshots
  import opened Evaluators
  import opened MatchingStore
  import opened StoreRuns
  import opened MatchingWorker

  // The identifiers and the clock a transaction draws.
  datatype Draw = Draw(runId: string, decisionId: string, now: int)

  // What becomes of a step's call: never executed, executed with its reply lost, or answered.
  datatype Fate = Lost(retryAfter: nat) | ReplyLost(retryAfter: nat) | Answered

  function RequestOf(e: Event): Request {
    Request(Trigger(e.id, RequestSubmitted), e.batchId, e.version, e.epoch, e.correlationId, Some(e))
  }

  function KeyOfEvent(e: Event): string { KeyOf(Trigger(e.id, RequestSubmitted)) }

  // http.go: the status each code is sent with.
  function StatusOf(code: Code): nat {
    match code
    case InvalidContract => 400
    case IdempotencyConflict | StaleContext | StateConflict => 409
    case InvalidResult => 422
    case NotFound => 404
    case LimitExceeded => 413
    case Unauthenticated => 401
    case Forbidden => 403
    case UnsupportedRuleSet | Unavailable | DataIntegrityError => 503
  }

  function Refusal(code: Code): Answer { Refused(StatusOf(code), code, None, if StatusOf(code) == 503 then 2 else 0) }

  function RunAnswer(r: Result<Reply, Code>): Answer {
    match r
    case Ok(reply) => Run(reply)
    case Err(code) => Refusal(code)
  }

  // The call the stage makes, executed by the store.
  function Serve(rules: Rules, db: Db, d: Delivery, draw: Draw): (Db, Answer)
    requires Consistent(d)
  {
    match d.stage
    case PrepareStage =>
      var (after, r) := PrepareStep(rules, db, RequestOf(d.event.value), KeyOfEvent(d.event.value), draw.runId,
                                    draw.decisionId, draw.now);
      (after, match r case Ok((reply, _)) => Run(reply) case Err(code) => Refusal(code))
    case CommitStage =>
      var (after, r) := CommitStep(rules, db, d.runId.value, d.output.value);
      (after, match r case Ok((result, replay)) => Result(result, replay) case Err(code) => Refusal(code))
    case ResolveStage => (db, RunAnswer(GetStep(db, d.runId.value)))
    case RefreshStage =>
      var (after, r) := RefreshStep(rules, db, d.runId.value, d.context.value.inputHash, draw.now);
      (after, RunAnswer(r))
    case _ => (db, Published)
  }

  predicate MakesCall(s: Settings, d: Delivery) {
    match d.stage
    case PrepareStage | CommitStage | ResolveStage | QuarantineStage => true
    case RefreshStage => d.refreshes < s.maxRefreshes
    case ValidateEvent | EvaluateStage | DoneStage => false
  }

  function Attempt(rules: Rules, s: Settings, db: Db, d: Delivery, fate: Fate, draw: Draw): (Db, Answer)
    requires Consistent(d)
  {
    if !MakesCall(s, d) then (db, Published)
    else match fate
      case Lost(after) =>
        (db, if d.stage == QuarantineStage then Unpublished else Refused(503, Unavailable, None, after))
      case ReplyLost(after) =>
        (Serve(rules, db, d, draw).0,
         if d.stage == QuarantineStage then Unpublished else Refused(503, Unavailable, None, after))
      case Answered => Serve(rules, db, d, draw)
  }

  // ---------------------------------------------------------------- what the parts must offer

  // events.submission accepts the event; its date arithmetic did not overflow.
  predicate PySubmission(e: Event) { ValidEvent(e) && e.details.submittedAt + 90 * DAY < END_OF_TIME }

  // Python accepts, unchanged, every context the store freezes for an event Python submitted.
  ghost predicate Compatible(p: Python, rules: Rules) {
    forall id, e, c :: ContextOf(rules, id, RequestOf(e), c) && PySubmission(e) ==> p.valid(c) && p.normalize(c) == c
  }

  // An evaluation names the context it was made of.
  ghost predicate Echoing(p: Python) {
    forall c :: p.evaluate(c).Some? ==>
      var o := p.evaluate(c).value;
      o.runId == c.runId && o.decisionId == c.decisionId && o.generation == c.generation && o.inputHash == c.inputHash
  }

  ghost predicate Fit(rules: Rules, s: Settings) {
    Sane(rules) && Compatible(s.python, rules) && Echoing(s.python)
  }

  // ---------------------------------------------------------------- the joint invariant

  function LastContext(run: Run): Option<Snapshot> {
    match run
    case InProgress(_, _, c, _) => Some(c)
    case Finished(_, _, c, _, _) => c
  }

  predicate RunCommitted(run: Run) { run.Finished? && run.result.disposition.Committed? }

  // The held context is the run's own, or an earlier one of it.
  predicate Follows(c: Snapshot, last: Option<Snapshot>) {
    && last.Some? && last.value.decisionId == c.decisionId && last.value.generation >= c.generation
    && (last.value.generation == c.generation ==> last.value == c)
  }

  // What the delivery knows about its run.
  predicate Knows(p: Python, id: string, run: Run, d: Delivery) {
    && d.event.Some? && run.request == RequestOf(d.event.value) && run.key == KeyOfEvent(d.event.value)
    && (d.context.Some? ==> d.context.value.runId == id && Follows(d.context.value, LastContext(run)))
    && (d.output.Some? ==> d.context.Some? && p.evaluate(d.context.value) == d.output)
    && (d.context.Some? && !d.refreshAllowed && run.InProgress? ==> Some(run.context) == d.context)
    && (d.refreshAllowed ==> d.context.Some? && d.output.Some? && !RunCommitted(run))
    && (d.refreshAllowed && run.InProgress? && Some(run.context) == d.context ==>
          run.staleHash == Some(d.context.value.inputHash))
    && (d.stage == RefreshStage ==> d.refreshAllowed && (run.InProgress? ==> Some(run.context) == d.context))
    && d.stage !in {ValidateEvent, PrepareStage} && (d.stage in {EvaluateStage, CommitStage} ==> !d.refreshAllowed)
    && (RunCommitted(run) && d.stage != DoneStage ==> d.output.Some? && run.accepted == d.output)
    && (d.stage == DoneStage && d.disposition == Some(CommittedRun) ==> RunCommitted(run))
    && (d.stage == DoneStage && d.disposition == Some(SkippedRun) ==> run.Finished? && !RunCommitted(run))
  }

  // Before the first reply nothing is known.
  predicate Ignorant(d: Delivery) {
    && d.context.None? && d.output.None? && !d.refreshAllowed
    && d.stage in {ValidateEvent, PrepareStage, QuarantineStage, DoneStage}
    && d.disposition != Some(CommittedRun) && d.disposition != Some(SkippedRun)
  }

  ghost predicate Joint(rules: Rules, s: Settings, db: Db, d: Delivery) {
    && Inv(rules, db) && Consistent(d)
    && (d.record.Submission? ==> PySubmission(d.record.event))
    && (d.event.Some? ==> d.record == Submission(d.event.value))
    && (if d.runId.Some? then d.runId.value in db.runs && Knows(s.python, d.runId.value, db.runs[d.runId.value], d)
        else Ignorant(d))
  }

  // ---------------------------------------------------------------- honest replies pass the checks

  lemma ResultPasses(rules: Rules, id: string, run: Run, e: Event, output: Option<Output>)
    requires Sane(rules) && RunSound(rules, id, run) && run.Finished? && run.request == RequestOf(e)
    requires RunCommitted(run) && output.Some? ==>
               output == run.accepted && output.value.decisionId == run.lastContext.value.decisionId
    ensures CheckResult(run.result, e, id, output) == Some(if RunCommitted(run) then CommittedRun else SkippedRun)
  {
    if RunCommitted(run) {
      assert OutputSane(run.accepted.value) by { assert rules.recompute(run.lastContext.value).Some?; }
    }
  }

  function PassedReply(run: Run): Checked {
    match run
    case InProgress(_, _, c, _) => CheckedPrepared(c)
    case Finished(_, _, _, _, _) => CheckedDone(if RunCommitted(run) then CommittedRun else SkippedRun)
  }

  lemma ReplyPasses(rules: Rules, s: Settings, id: string, run: Run, e: Event, runId: Option<string>,
                    output: Option<Output>, replay: bool)
    requires Fit(rules, s) && RunSound(rules, id, run) && run.request == RequestOf(e) && PySubmission(e)
    requires runId.Some? ==> runId.value == id
    requires RunCommitted(run) && output.Some? ==>
               output == run.accepted && output.value.decisionId == run.lastContext.value.decisionId
    ensures CheckRun(s.python, RunReply(id, run, replay), e, runId, output) == PassedReply(run)
  {
    match run
    case InProgress(_, req, c, _) => assert ContextOf(rules, id, RequestOf(e), c);
    case Finished(_, _, _, _, _) => ResultPasses(rules, id, run, e, output);
  }

  // ---------------------------------------------------------------- how a delivery takes a reply

  // What must hold between a delivery and the run whose reply it is about to read.
  predicate Ready(p: Python, id: string, run: Run, d: Delivery) {
    && d.event.Some? && run.request == RequestOf(d.event.value) && run.key == KeyOfEvent(d.event.value)
    && (d.runId.Some? ==> d.runId.value == id)
    && (d.context.Some? ==> d.context.value.runId == id && Follows(d.context.value, LastContext(run)))
    && (d.output.Some? ==> d.context.Some? && p.evaluate(d.context.value) == d.output)
    && (!d.refreshAllowed && d.context.Some? && run.InProgress? ==> Some(run.context) == d.context)
    && (d.refreshAllowed ==> d.context.Some? && d.output.Some? && !RunCommitted(run))
    && (d.refreshAllowed && run.InProgress? && Some(run.context) == d.context ==>
          run.staleHash == Some(d.context.value.inputHash))
    && (RunCommitted(run) && d.output.Some? ==> run.accepted == d.output)
    && (d.stage in {PrepareStage, ResolveStage})
  }

  lemma OutputNamesContext(s: Settings, id: string, run: Run, d: Delivery)
    requires Echoing(s.python) && Ready(s.python, id, run, d) && RunCommitted(run) && d.output.Some?
    ensures LastContext(run).Some? && d.output.value.decisionId == LastContext(run).value.decisionId
  {
  }

  lemma RefreshedKnows(p: Python, id: string, run: Run, d: Delivery)
    requires Ready(p, id, run, d) && d.runId == Some(id) && d.refreshAllowed && run.InProgress? && d.stage == ResolveStage
    requires run.context.runId == id
    ensures var (after, ok) := Refreshed(d, run.context);
            && ok && Knows(p, id, run, after) && Consistent(after)
            && after.record == d.record && after.event == d.event && after.runId == d.runId
  {
  }

  lemma ResponseKnows(rules: Rules, s: Settings, id: string, run: Run, d: Delivery, replay: bool, resolving: bool)
    requires Fit(rules, s) && RunSound(rules, id, run) && Ready(s.python, id, run, d) && PySubmission(d.event.value)
    requires d.refreshAllowed ==> d.stage == ResolveStage
    ensures var (after, ok) := RunResponse(s.python, d, RunReply(id, run, replay), resolving);
            && ok && after.runId == Some(id) && Knows(s.python, id, run, after) && Consistent(after)
            && after.record == d.record && after.event == d.event
  {
    var output := if d.refreshAllowed then None else d.output;
    if RunCommitted(run) && d.output.Some? { OutputNamesContext(s, id, run, d); }
    ReplyPasses(rules, s, id, run, d.event.value, d.runId, output, replay);
    if run.InProgress? {
      assert ContextOf(rules, id, run.request, run.context);
      var held := d.(runId := Some(id));
      if !(resolving && d.pendingRejection.Some?) && d.refreshAllowed { RefreshedKnows(s.python, id, run, held); }
    }
  }

  // A refused call of a delivery that already names its run.
  lemma RefusalKnows(s: Settings, id: string, run: Run, d: Delivery, operation: Stage, a: Answer)
    requires a.Refused? && a.durable.None? && d.stage == ResolveStage && d.runId == Some(id)
    requires Knows(s.python, id, run, d) && Consistent(d)
    requires a.code == StaleContext && a.status == 409 && operation in {CommitStage, RefreshStage} ==>
               run.InProgress? && d.context == Some(run.context) && run.staleHash == Some(run.context.inputHash)
    ensures var out := OnRefusal(s, d, operation, a);
            && out.incident != InvalidFacadeResponse && Knows(s.python, id, run, out.delivery)
            && Consistent(out.delivery) && out.delivery.runId == d.runId
            && out.delivery.record == d.record && out.delivery.event == d.event
  {
  }

  // ---------------------------------------------------------------- what the store answers

  lemma CreateAnswers(rules: Rules, db: Db, req: Request, key: string, draw: Draw)
    requires Faithful(rules) && req.batchId in db.batches
    ensures var (after, r) := CreateRun(rules, db, req, key, draw.runId, draw.decisionId, draw.now);
            match r
            case Ok((reply, _)) =>
              && reply.runId in after.runs && after.runs[reply.runId].request == req && after.runs[reply.runId].key == key
              && reply == RunReply(reply.runId, after.runs[reply.runId], false)
            case Err(code) => code in {Unavailable, UnsupportedRuleSet, InvalidContract}
  {
  }

  lemma PrepareAnswers(rules: Rules, db: Db, e: Event, draw: Draw)
    requires Inv(rules, db)
    ensures var (after, r) := PrepareStep(rules, db, RequestOf(e), KeyOfEvent(e), draw.runId, draw.decisionId, draw.now);
            match r
            case Ok((reply, _)) =>
              && reply.runId in after.runs
              && after.runs[reply.runId].request == RequestOf(e) && after.runs[reply.runId].key == KeyOfEvent(e)
              && exists replay :: reply == RunReply(reply.runId, after.runs[reply.runId], replay)
            case Err(code) => code != StaleContext && code != StateConflict
  {
    if KeyOfEvent(e) in db.keys {
      var id := db.keys[KeyOfEvent(e)];
      assert db.runs[id].key == KeyOfEvent(e);
      assert RunReply(id, db.runs[id], true).runId == id;
    } else if e.batchId in db.batches {
      CreateAnswers(rules, db, RequestOf(e), KeyOfEvent(e), draw);
    }
  }

  // The recheck of a commit, or its write.
  lemma RecheckAnswers(rules: Rules, s: Settings, db: Db, d: Delivery)
    requires Fit(rules, s) && Joint(rules, s, db, d) && d.stage == CommitStage && db.runs[d.runId.value].InProgress?
    requires db.runs[d.runId.value].request.batchId in db.batches
    ensures var id := d.runId.value;
            var run := db.runs[id];
            var (after, r) := Recheck(rules, db, id, run, d.output.value);
            && id in after.runs
            && match r
               case Ok((result, _)) =>
                 && after.runs[id].Finished? && result == after.runs[id].result && result.disposition.Committed?
                 && after.runs[id].accepted == d.output && after.runs[id].lastContext == d.context
                 && after.runs[id].key == run.key && after.runs[id].request == run.request
               case Err(StaleContext) => after.runs[id] == run.(staleHash := Some(run.context.inputHash))
               case Err(_) => after == db
  {
  }

  // The three ways a commit of the run's own context ends.
  lemma CommitBranches(rules: Rules, db: Db, id: string, output: Output)
    requires id in db.runs && db.runs[id].InProgress? && db.runs[id].request.batchId in db.batches
    requires output.inputHash == db.runs[id].context.inputHash && output.generation == db.runs[id].context.generation
    ensures var run := db.runs[id];
            var (after, r) := CommitStep(rules, db, id, output);
            || (after == db && r.Err? && r.error in {InvalidContract, InvalidResult})
            || (after == Skip(db, id, run.key, run.request, Some(run.context)) && r.Ok?)
            || (&& SchemaOutput(output) && StateMatches(db.batches[run.request.batchId], run.request)
                && (after, r) == Recheck(rules, db, id, run, output))
  {
  }

  predicate CommitLeaves(p: Python, id: string, run: Run, d: Delivery, r: Result<(RunResult, bool), Code>) {
    && Knows(p, id, run, d)
    && (r.Ok? ==> run.Finished? && r.value.0 == run.result)
    && (r == Err(StaleContext) ==>
          run.InProgress? && d.context == Some(run.context) && run.staleHash == Some(run.context.inputHash))
  }

  lemma CommitProgressAnswers(rules: Rules, s: Settings, db: Db, d: Delivery)
    requires Fit(rules, s) && Joint(rules, s, db, d) && d.stage == CommitStage && db.runs[d.runId.value].InProgress?
    ensures var id := d.runId.value;
            var run := db.runs[id];
            var (after, r) := CommitStep(rules, db, id, d.output.value);
            && id in after.runs && after.runs[id].key == run.key && after.runs[id].request == run.request
            && LastContext(after.runs[id]) == Some(run.context)
            && (after.runs[id].InProgress? ==>
                  after.runs[id].staleHash == Some(run.context.inputHash) || after.runs[id] == run)
            && (RunCommitted(after.runs[id]) ==> after.runs[id].accepted == d.output)
            && (r.Ok? ==> after.runs[id].Finished? && r.value.0 == after.runs[id].result)
            && (r == Err(StaleContext) ==>
                  after.runs[id].InProgress? && after.runs[id].staleHash == Some(run.context.inputHash))
  {
    var run := db.runs[d.runId.value];
    assert s.python.evaluate(d.context.value) == d.output;
    assert d.output.value.inputHash == run.context.inputHash && d.output.value.generation == run.context.generation;
    assert RunPlaced(db, d.runId.value, run);
    CommitBranches(rules, db, d.runId.value, d.output.value);
    RecheckAnswers(rules, s, db, d);
  }

  lemma CommitAnswers(rules: Rules, s: Settings, db: Db, d: Delivery)
    requires Fit(rules, s) && Joint(rules, s, db, d) && d.stage == CommitStage
    ensures var id := d.runId.value;
            var (after, r) := CommitStep(rules, db, id, d.output.value);
            id in after.runs && CommitLeaves(s.python, id, after.runs[id], d.(stage := ResolveStage), r)
  {
    var id := d.runId.value;
    if db.runs[id].InProgress? {
      CommitProgressAnswers(rules, s, db, d);
      var after := CommitStep(rules, db, id, d.output.value).0;
    }
  }

  predicate RefreshLeaves(id: string, held: Run, run: Run, r: Result<Reply, Code>) {
    && run.request == held.request && run.key == held.key && RunEvolves(held, run)
    && (RunCommitted(run) ==> run == held)
    && (held.InProgress? && run.InProgress? && run.context == held.context ==> run == held)
    && (r.Ok? ==> exists replay :: r.value == RunReply(id, run, replay))
    && r != Err(StaleContext)
  }

  lemma RefreezeAnswers(rules: Rules, db: Db, id: string, now: int)
    requires Inv(rules, db) && id in db.runs && db.runs[id].InProgress? && db.runs[id].request.batchId in db.batches
    ensures var (after, r) := Refreeze(rules, db, id, db.runs[id], now);
            id in after.runs && RefreshLeaves(id, db.runs[id], after.runs[id], r)
  {
    var run := db.runs[id];
    var b := db.batches[run.request.batchId];
    var generation := run.context.generation + 1;
    var frozen := Freeze(rules, db.config, b, run.request, id, run.context.decisionId, generation, now);
    if frozen.Err? {
    } else {
      var next := InProgress(run.key, run.request, frozen.value, None);
      assert Prepared(id, frozen.value) == RunReply(id, next, false);
    }
  }

  lemma RefreshAnswers(rules: Rules, s: Settings, db: Db, d: Delivery, now: int)
    requires Fit(rules, s) && Joint(rules, s, db, d) && d.stage == RefreshStage
    ensures var id := d.runId.value;
            var (after, r) := RefreshStep(rules, db, id, d.context.value.inputHash, now);
            id in after.runs && RefreshLeaves(id, db.runs[id], after.runs[id], r)
  {
    var id := d.runId.value;
    var run := db.runs[id];
    if run.Finished? {
      assert Done(id, run.result, true) == RunReply(id, run, true);
    } else if run.request.batchId in db.batches {
      if StateMatches(db.batches[run.request.batchId], run.request) {
        RefreezeAnswers(rules, db, id, now);
      } else {
        var skipped := Finished(run.key, run.request, Some(run.context), None, SkippedResult(id, run.request));
        assert Done(id, SkippedResult(id, run.request), false) == RunReply(id, skipped, false);
      }
    }
  }

  // ---------------------------------------------------------------- one worker step

  function LostAnswer(retryAfter: nat): Answer { Refused(503, Unavailable, None, retryAfter) }

  // What a step leaves: the joint invariant, and no reply called invalid.
  ghost predicate Holds(rules: Rules, s: Settings, db: Db, out: MatchingWorker.Outcome) {
    Joint(rules, s, db, out.delivery) && out.incident != InvalidFacadeResponse
  }

  // A preparing delivery that was refused stays ignorant.
  lemma PrepareRefused(s: Settings, d: Delivery, a: Answer)
    requires Ignorant(d) && Consistent(d) && d.stage == PrepareStage && d.runId.None?
    requires a.Refused? && a.durable.None?
    ensures var out := Step(s, d, a);
            && Ignorant(out.delivery) && Consistent(out.delivery) && out.delivery.runId.None?
            && out.delivery.record == d.record && out.delivery.event == d.event && out.incident != InvalidFacadeResponse
  {
  }

  lemma PrepareAnswered(rules: Rules, s: Settings, db: Db, d: Delivery, reply: Reply)
    requires Fit(rules, s) && Inv(rules, db) && Ignorant(d) && Consistent(d) && d.stage == PrepareStage && d.runId.None?
    requires d.record == Submission(d.event.value) && PySubmission(d.event.value)
    requires reply.runId in db.runs && exists replay :: reply == RunReply(reply.runId, db.runs[reply.runId], replay)
    requires db.runs[reply.runId].request == RequestOf(d.event.value)
    requires db.runs[reply.runId].key == KeyOfEvent(d.event.value)
    ensures Holds(rules, s, db, Step(s, d, Run(reply)))
  {
    var id := reply.runId;
    var run := db.runs[id];
    var replay :| reply == RunReply(id, run, replay);
    assert RunSound(rules, id, run);
    ResponseKnows(rules, s, id, run, d, replay, false);
  }

  lemma PrepareHolds(rules: Rules, s: Settings, db: Db, d: Delivery, draw: Draw, lost: Option<nat>)
    requires Fit(rules, s) && Joint(rules, s, db, d) && d.stage == PrepareStage
    ensures var (after, answer) := Serve(rules, db, d, draw);
            Holds(rules, s, after, Step(s, d, if lost.Some? then LostAnswer(lost.value) else answer))
  {
    var e := d.event.value;
    var a := Prepare(RequestOf(e), KeyOfEvent(e), draw.runId, draw.decisionId, draw.now);
    var (after, answer) := Serve(rules, db, d, draw);
    assert Inv(rules, after) by { StepKeeps(rules, db, a); }
    PrepareAnswers(rules, db, e, draw);
    if lost.Some? {
      PrepareRefused(s, d, LostAnswer(lost.value));
    } else if answer.Run? {
      PrepareAnswered(rules, s, after, d, answer.reply);
    } else {
      PrepareRefused(s, d, answer);
    }
  }

  lemma ResolvingRefused(rules: Rules, s: Settings, db: Db, d: Delivery, id: string, operation: Stage, a: Answer)
    requires Inv(rules, db) && id in db.runs && d.runId == Some(id) && d.stage == ResolveStage
    requires d.event.Some? && d.record == Submission(d.event.value) && PySubmission(d.event.value)
    requires Knows(s.python, id, db.runs[id], d) && Consistent(d) && a.Refused? && a.durable.None?
    requires a.code == StaleContext && a.status == 409 && operation in {CommitStage, RefreshStage} ==>
               db.runs[id].InProgress? && d.context == Some(db.runs[id].context) &&
               db.runs[id].staleHash == Some(db.runs[id].context.inputHash)
    ensures Holds(rules, s, db, OnRefusal(s, d, operation, a))
  {
    RefusalKnows(s, id, db.runs[id], d, operation, a);
  }

  lemma ResultHolds(rules: Rules, s: Settings, db: Db, d: Delivery, id: string, replay: bool)
    requires Fit(rules, s) && Inv(rules, db) && id in db.runs && db.runs[id].Finished?
    requires d.runId == Some(id) && d.stage == ResolveStage && d.output.Some?
    requires d.event.Some? && d.record == Submission(d.event.value) && PySubmission(d.event.value)
    requires Knows(s.python, id, db.runs[id], d) && Consistent(d)
    ensures Holds(rules, s, db, OnResult(s, d, Result(db.runs[id].result, replay)))
  {
    var run := db.runs[id];
    assert RunSound(rules, id, run);
    if RunCommitted(run) { OutputNamesContext(s, id, run, d); }
    ResultPasses(rules, id, run, d.event.value, d.output);
  }

  lemma CommitHolds(rules: Rules, s: Settings, db: Db, d: Delivery, draw: Draw, lost: Option<nat>)
    requires Fit(rules, s) && Joint(rules, s, db, d) && d.stage == CommitStage
    ensures var (after, answer) := Serve(rules, db, d, draw);
            Holds(rules, s, after, Step(s, d, if lost.Some? then LostAnswer(lost.value) else answer))
  {
    var id := d.runId.value;
    var held := d.(stage := ResolveStage);
    var (after, answer) := Serve(rules, db, d, draw);
    assert Inv(rules, after) by { StepKeeps(rules, db, Commit(id, d.output.value)); }
    CommitAnswers(rules, s, db, d);
    if lost.Some? {
      ResolvingRefused(rules, s, after, held, id, CommitStage, LostAnswer(lost.value));
    } else if answer.Result? {
      ResultHolds(rules, s, after, held, id, answer.replay);
    } else {
      ResolvingRefused(rules, s, after, held, id, CommitStage, answer);
    }
  }

  lemma ReplyHolds(rules: Rules, s: Settings, db: Db, d: Delivery, id: string, operation: Stage, reply: Reply, resolving: bool)
    requires Fit(rules, s) && Inv(rules, db) && id in db.runs && d.runId == Some(id) && d.stage == ResolveStage
    requires d.event.Some? && d.record == Submission(d.event.value) && PySubmission(d.event.value)
    requires Ready(s.python, id, db.runs[id], d) && exists replay :: reply == RunReply(id, db.runs[id], replay)
    ensures Holds(rules, s, db, OnRun(s, d, operation, Run(reply), resolving))
  {
    var run := db.runs[id];
    var replay :| reply == RunReply(id, run, replay);
    assert RunSound(rules, id, run);
    ResponseKnows(rules, s, id, run, d, replay, resolving);
  }

  lemma ResolveHolds(rules: Rules, s: Settings, db: Db, d: Delivery, draw: Draw, lost: Option<nat>)
    requires Fit(rules, s) && Joint(rules, s, db, d) && d.stage == ResolveStage
    ensures var (after, answer) := Serve(rules, db, d, draw);
            Holds(rules, s, after, Step(s, d, if lost.Some? then LostAnswer(lost.value) else answer))
  {
    var id := d.runId.value;
    if lost.Some? {
      ResolvingRefused(rules, s, db, d, id, ResolveStage, LostAnswer(lost.value));
    } else {
      ReplyHolds(rules, s, db, d, id, ResolveStage, RunReply(id, db.runs[id], true), true);
    }
  }

  // How the delivery, now resolving, takes what the refresh call left and answered.
  lemma RefreshTaken(rules: Rules, s: Settings, db: Db, d: Delivery, id: string, before: Run, r: Result<Reply, Code>,
                     a: Answer)
    requires Fit(rules, s) && Inv(rules, db) && id in db.runs
    requires d.runId == Some(id) && d.stage == RefreshStage && Consistent(d)
    requires d.event.Some? && d.record == Submission(d.event.value) && PySubmission(d.event.value)
    requires Knows(s.python, id, before, d) && RefreshLeaves(id, before, db.runs[id], r)
    requires a == RunAnswer(r) || (a.Refused? && a.durable.None? && a.code != StaleContext)
    ensures Holds(rules, s, db, OnRun(s, d.(stage := ResolveStage), RefreshStage, a, false))
  {
    if a.Refused? {
      ResolvingRefused(rules, s, db, d.(stage := ResolveStage), id, RefreshStage, a);
    } else {
      ReplyHolds(rules, s, db, d.(stage := ResolveStage), id, RefreshStage, r.value, false);
    }
  }

  lemma RefreshHolds(rules: Rules, s: Settings, db: Db, d: Delivery, draw: Draw, lost: Option<nat>)
    requires Fit(rules, s) && Joint(rules, s, db, d) && d.stage == RefreshStage && d.refreshes < s.maxRefreshes
    ensures var (after, answer) := Serve(rules, db, d, draw);
            Holds(rules, s, after, Step(s, d, if lost.Some? then LostAnswer(lost.value) else answer))
  {
    var id, hash := d.runId.value, d.context.value.inputHash;
    var (after, r) := RefreshStep(rules, db, id, hash, draw.now);
    assert Inv(rules, after) by { StepKeeps(rules, db, Refresh(id, hash, draw.now)); }
    RefreshAnswers(rules, s, db, d, draw.now);
    RefreshTaken(rules, s, after, d, id, db.runs[id], r, if lost.Some? then LostAnswer(lost.value) else RunAnswer(r));
  }

  lemma KnownLocal(s: Settings, id: string, run: Run, d: Delivery, a: Answer)
    requires Knows(s.python, id, run, d) && Consistent(d) && d.runId == Some(id) && a in {Published, Unpublished}
    requires d.stage in {EvaluateStage, QuarantineStage, DoneStage} || (d.stage == RefreshStage && !MakesCall(s, d))
    ensures var out := Step(s, d, a);
            && Knows(s.python, id, run, out.delivery) && Consistent(out.delivery) && out.delivery.runId == Some(id)
            && out.delivery.record == d.record && out.delivery.event == d.event && out.incident != InvalidFacadeResponse
  {
  }

  lemma IgnorantLocal(s: Settings, d: Delivery, a: Answer)
    requires Ignorant(d) && Consistent(d) && d.runId.None? && a in {Published, Unpublished} && d.stage != PrepareStage
    requires d.event.Some? ==> d.record == Submission(d.event.value)
    ensures var out := Step(s, d, a);
            && Ignorant(out.delivery) && Consistent(out.delivery) && out.delivery.runId.None?
            && out.delivery.record == d.record && out.incident != InvalidFacadeResponse
            && (out.delivery.event.Some? ==> d.record == Submission(out.delivery.event.value))
  {
  }

  // Stages that call nobody, or only the publisher.
  lemma LocalHolds(rules: Rules, s: Settings, db: Db, d: Delivery, a: Answer)
    requires Fit(rules, s) && Joint(rules, s, db, d) && a in {Published, Unpublished}
    requires d.stage in {ValidateEvent, EvaluateStage, QuarantineStage, DoneStage} || !MakesCall(s, d)
    ensures Holds(rules, s, db, Step(s, d, a))
  {
    if d.runId.Some? {
      KnownLocal(s, d.runId.value, db.runs[d.runId.value], d, a);
    } else {
      IgnorantLocal(s, d, a);
    }
  }

  // A call that never arrived.
  lemma LostHolds(rules: Rules, s: Settings, db: Db, d: Delivery, retryAfter: nat)
    requires Fit(rules, s) && Joint(rules, s, db, d) && MakesCall(s, d) && d.stage != QuarantineStage
    ensures Holds(rules, s, db, Step(s, d, LostAnswer(retryAfter)))
  {
    if d.stage == PrepareStage {
      PrepareRefused(s, d, LostAnswer(retryAfter));
    } else {
      ResolvingRefused(rules, s, db, d.(stage := ResolveStage), d.runId.value, d.stage, LostAnswer(retryAfter));
    }
  }

  // A call the store executed.
  lemma ServedHolds(rules: Rules, s: Settings, db: Db, d: Delivery, draw: Draw, lost: Option<nat>)
    requires Fit(rules, s) && Joint(rules, s, db, d) && MakesCall(s, d) && d.stage != QuarantineStage
    ensures var (after, answer) := Serve(rules, db, d, draw);
            Holds(rules, s, after, Step(s, d, if lost.Some? then LostAnswer(lost.value) else answer))
  {
    match d.stage
    case PrepareStage => PrepareHolds(rules, s, db, d, draw, lost);
    case CommitStage => CommitHolds(rules, s, db, d, draw, lost);
    case ResolveStage => ResolveHolds(rules, s, db, d, draw, lost);
    case RefreshStage => RefreshHolds(rules, s, db, d, draw, lost);
  }

  /** One worker step, whatever becomes of its call: the joint invariant holds again and the worker
      never calls an honest reply invalid. */
  lemma WorkerStepHolds(rules: Rules, s: Settings, db: Db, d: Delivery, fate: Fate, draw: Draw)
    requires Fit(rules, s) && Joint(rules, s, db, d)
    ensures var (after, answer) := Attempt(rules, s, db, d, fate, draw);
            Holds(rules, s, after, Step(s, d, answer))
  {
    if MakesCall(s, d) && d.stage != QuarantineStage {
      match fate
      case Lost(t) => LostHolds(rules, s, db, d, t);
      case ReplyLost(t) => ServedHolds(rules, s, db, d, draw, Some(t));
      case Answered => ServedHolds(rules, s, db, d, draw, None);
    } else {
      LocalHolds(rules, s, db, d, Published);
      LocalHolds(rules, s, db, d, Unpublished);
    }
  }

  // ---------------------------------------------------------------- joint executions

  // A step of the worker, or anything else the store is asked to do.
  datatype Happening = Worker(fate: Fate, draw: Draw) | Other(action: Action)

  // Nobody else commits or refreshes the worker's run.
  predicate Elsewhere(d: Delivery, a: Action) {
    match a
    case Refresh(id, _, _) => d.runId != Some(id)
    case Commit(id, _) => d.runId != Some(id)
    case _ => true
  }

  lemma UntouchedRun(rules: Rules, db: Db, d: Delivery, a: Action)
    requires Inv(rules, db) && d.runId.Some? && d.runId.value in db.runs && Elsewhere(d, a)
    ensures d.runId.value in Apply(rules, db, a).runs && Apply(rules, db, a).runs[d.runId.value] == db.runs[d.runId.value]
  {
    match a
    case Prepare(req, key, runId, decisionId, now) => PrepareEffect(rules, db, req, key, runId, decisionId, now);
    case Get(_) =>
    case Refresh(id, expected, now) => RefreshEffect(rules, db, id, expected, now);
    case Commit(id, output) =>
      CommitEffect(rules, db, id, output);
      if Decided(rules, db, id, output, Apply(rules, db, a)) { DecidedEffect(rules, db, id, output, Apply(rules, db, a)); }
    case Environment(_) =>
  }

  lemma OtherHolds(rules: Rules, s: Settings, db: Db, d: Delivery, a: Action)
    requires Joint(rules, s, db, d) && Elsewhere(d, a)
    ensures Joint(rules, s, Apply(rules, db, a), d)
  {
    StepKeeps(rules, db, a);
    if d.runId.Some? { UntouchedRun(rules, db, d, a); }
  }

  datatype World = World(db: Db, delivery: Delivery, incident: Incident)

  // One thing that happens, whoever the others are and whatever they call.
  ghost predicate Acts(rules: Rules, s: Settings, w: World, e: Happening, v: World) {
    match e
    case Worker(fate, draw) =>
      && Consistent(w.delivery)
      && var (after, answer) := Attempt(rules, s, w.db, w.delivery, fate, draw);
         v == World(after, Step(s, w.delivery, answer).delivery, Step(s, w.delivery, answer).incident)
    case Other(action) => v == World(Apply(rules, w.db, action), w.delivery, Clear)
  }

  ghost predicate Next(rules: Rules, s: Settings, w: World, e: Happening, v: World) {
    Acts(rules, s, w, e, v) && (e.Other? ==> Elsewhere(w.delivery, e.action))
  }

  // The store may already hold runs, this event's included: the worker starts from nothing.
  ghost predicate JointExecution(rules: Rules, s: Settings, ws: seq<World>, es: seq<Happening>) {
    && Fit(rules, s) && |ws| == |es| + 1
    && Inv(rules, ws[0].db) && ws[0].delivery == Fresh(ws[0].delivery.record) && ws[0].incident == Clear
    && (ws[0].delivery.record.Submission? ==> PySubmission(ws[0].delivery.record.event))
    && forall i {:trigger Position(i)} :: 0 <= i < |es| ==> Next(rules, s, ws[i], es[i], ws[i + 1])
  }

  lemma NextHolds(rules: Rules, s: Settings, w: World, e: Happening, v: World)
    requires Fit(rules, s) && Joint(rules, s, w.db, w.delivery) && Next(rules, s, w, e, v)
    ensures Joint(rules, s, v.db, v.delivery) && v.incident != InvalidFacadeResponse
  {
    match e
    case Worker(fate, draw) => WorkerStepHolds(rules, s, w.db, w.delivery, fate, draw);
    case Other(action) => OtherHolds(rules, s, w.db, w.delivery, action);
  }

  lemma {:induction false} JointHolds(rules: Rules, s: Settings, ws: seq<World>, es: seq<Happening>, k: nat)
    requires JointExecution(rules, s, ws, es) && k < |ws|
    ensures Joint(rules, s, ws[k].db, ws[k].delivery) && ws[k].incident != InvalidFacadeResponse
  {
    if k > 0 {
      JointHolds(rules, s, ws, es, k - 1);
      assert Position(k - 1);
      NextHolds(rules, s, ws[k - 1], es[k - 1], ws[k]);
    }
  }

  /** Along every execution, with any calls lost before or after they are executed: the worker never
      rejects a reply of the honest store, what it submits or resubmits is the evaluation of the
      context it holds, and a delivery that ends COMMITTED or SKIPPED ended a run that says so. */
  lemma WorkerTrustsHonestStore(rules: Rules, s: Settings, ws: seq<World>, es: seq<Happening>, k: nat)
    requires JointExecution(rules, s, ws, es) && k < |ws|
    ensures ws[k].incident != InvalidFacadeResponse
    ensures var d := ws[k].delivery;
            && (d.output.Some? ==> d.context.Some? && s.python.evaluate(d.context.value) == d.output)
            && (d.stage == DoneStage && d.disposition in {Some(CommittedRun), Some(SkippedRun)} ==>
                  && d.runId.Some? && d.event.Some? && d.runId.value in ws[k].db.runs
                  && ws[k].db.runs[d.runId.value].Finished?
                  && ws[k].db.runs[d.runId.value].request == RequestOf(d.event.value)
                  && (ws[k].db.runs[d.runId.value].result.disposition.Committed? <==> d.disposition == Some(CommittedRun)))
  {
    JointHolds(rules, s, ws, es, k);
  }

  // ---------------------------------------------------------------- the real parts fit

  lemma RealContextAccepted(id: string, e: Event, c: Snapshot)
    requires ContextOf(GO_RULES, id, RequestOf(e), c) && PySubmission(e)
    ensures PYTHON.valid(c) && PYTHON.normalize(c) == c
  {
    assert GoValid(c);
    ValidatorsAgree(c);
  }

  /** Go's validator and evaluator with Python's are such parts. */
  lemma RealPartsFit(s: Settings)
    requires s.python == PYTHON
    ensures Fit(GO_RULES, s) && Faithful(GO_RULES)
  {
    forall id, e, c | ContextOf(GO_RULES, id, RequestOf(e), c) && PySubmission(e)
      ensures PYTHON.valid(c) && PYTHON.normalize(c) == c
    {
      RealContextAccepted(id, e, c);
    }
    forall c | PYTHON.evaluate(c).Some?
      ensures var o := PYTHON.evaluate(c).value;
              o.runId == c.runId && o.decisionId == c.decisionId && o.generation == c.generation && o.inputHash == c.inputHash
    {
    }
  }
}
