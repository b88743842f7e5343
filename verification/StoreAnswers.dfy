/** What the matching store answers to each call, and what the call leaves in the tables, stated on the
    rows. */
module StoreAnswers {
  import opened Wrappers
  import opened Vocabulary
  import opened Decimals
  import opened Snapshots
  import opened Evaluators
  import opened MatchingStore

  // ---------------------------------------------------------------- answers

  // A run as a caller sees it.
  predicate Shows(reply: Reply, id: string, run: Run, replay: bool) {
    match run
    case InProgress(_, _, context, _) => reply == Prepared(id, context)
    case Finished(_, _, _, _, result) => reply == Done(id, result, replay)
  }

  // The run is stored under its id and its key, and nothing else changes.
  predicate OnlyRun(db: Db, after: Db, id: string, run: Run) {
    after == db.(runs := db.runs[id := run], keys := db.keys[run.key := id])
  }

  // The batch still is as the run was asked for.
  predicate StillAsAsked(b: BatchRow, req: Request) {
    b.status == Submitted && b.version == req.batchVersion && b.epoch == req.epoch
  }

  predicate Skips(result: RunResult, id: string, req: Request) {
    result.disposition.Skipped? && result.runId == id && result.batchId == req.batchId && result.correlationId == req.correlationId
  }

  // The frame of a frozen snapshot around what was observed.
  predicate FramesRun(s: Snapshot, content: Canon, req: Request, runId: string, decisionId: string, generation: int) {
    && s.runId == runId && s.decisionId == decisionId && s.generation == generation && s.trigger == req.trigger
    && s.correlationId == req.correlationId && s.content == content && s.profileHash == content.organisations && s.inputHash == content
  }

  // Freezing observes the batch at the instant, frames it and has it validated.
  predicate Freezes(rules: Rules, db: Db, req: Request, runId: string, decisionId: string, generation: int, at: int,
                    frozen: Result<Snapshot, Code>)
    requires req.batchId in db.batches
  {
    var observed := rules.observe(db.config, db.batches[req.batchId], req.batchId, at);
    match frozen
    case Err(e) => if observed.Err? then e == observed.error else e == Unavailable
    case Ok(s) => observed.Ok? && FramesRun(s, observed.value, req, runId, decisionId, generation) && rules.valid(s)
  }

  lemma FreezeMeans(rules: Rules, db: Db, req: Request, runId: string, decisionId: string, generation: int, at: int)
    requires req.batchId in db.batches
    ensures Freezes(rules, db, req, runId, decisionId, generation, at,
                    Freeze(rules, db.config, db.batches[req.batchId], req, runId, decisionId, generation, at))
    ensures var observed := rules.observe(db.config, db.batches[req.batchId], req.batchId, at);
            observed.Ok? ==>
              (Freeze(rules, db.config, db.batches[req.batchId], req, runId, decisionId, generation, at).Ok? <==>
               rules.valid(Snapshot(runId, decisionId, generation, req.trigger, req.correlationId, observed.value,
                                    observed.value.organisations, observed.value)))
  {
  }

  // ---------------------------------------------------------------- prepare

  // A submission event within the limits of its contract, that says what the request says.
  predicate EventRestated(req: Request, e: Event) {
    var d := e.details;
    && e.id == req.trigger.id && e.batchId == req.batchId && e.version == req.batchVersion && e.epoch == req.epoch
    && e.correlationId == req.correlationId && e.occurredAt == d.submittedAt
    && 1 <= |d.organizationId| <= 32 && (forall i :: 0 <= i < |d.organizationId| ==> ' ' <= d.organizationId[i] <= '~')
    && IsInstant(d.submittedAt) && IsInstant(d.deadline)
    && d.category in CATEGORIES && d.condition in CONDITIONS && d.zone in ZONES && 1 <= d.quantity <= 100000
    && IsMoney(d.weightKg) && |Whole(d.weightKg)| <= 6 && 10 <= Amount(d.weightKg) <= 5_000_000
    && 48 * HOUR <= d.deadline - d.submittedAt <= 90 * DAY
  }

  predicate WellFormed(req: Request, key: string) {
    && 1 <= req.batchVersion <= 0xFFFF_FFFF && 1 <= req.epoch <= 0xFFFF_FFFF_FFFF_FFFF && 1 <= |req.correlationId| <= 128
    && match req.trigger.kind
       case RequestSubmitted =>
         key == "REQUEST_SUBMITTED:" + req.trigger.id && req.event.Some? && EventRestated(req, req.event.value)
       case ExplicitRun => key == "EXPLICIT_RUN:" + req.trigger.id && req.event.None?
  }

  lemma WeightInRange(d: Details)
    requires IsMoney(d.weightKg) && |Whole(d.weightKg)| <= 6
    ensures GoWeight(d) <==> 10 <= Amount(d.weightKg) <= 5_000_000
  {
    FieldReads(d.weightKg, 6);
  }

  lemma WellFormedExactly(req: Request, key: string)
    ensures ValidPrepare(req, key) <==> WellFormed(req, key)
  {
    if req.event.Some? && IsMoney(req.event.value.details.weightKg) && |Whole(req.event.value.details.weightKg)| <= 6 {
      WeightInRange(req.event.value.details);
    }
  }

  // The submission's own row is in the outbox, exactly as presented.
  predicate Presented(db: Db, req: Request) {
    req.event.Some? && req.trigger.id in db.events && db.events[req.trigger.id] == req.event.value && req.event.value.batchId == req.batchId
  }

  // A new run of a batch that is there.
  ghost predicate OpensRun(rules: Rules, db: Db, req: Request, key: string, runId: string, decisionId: string, now: int, after: Db,
                     answer: Result<(Reply, bool), Code>)
    requires req.batchId in db.batches
  {
    if runId in db.runs then after == db && answer == Err(Unavailable)
    else if !StillAsAsked(db.batches[req.batchId], req) then
      && answer.Ok? && answer.value.1 && answer.value.0.Done? && !answer.value.0.replay && answer.value.0.runId == runId
      && Skips(answer.value.0.result, runId, req)
      && OnlyRun(db, after, runId, Finished(key, req, None, None, answer.value.0.result))
    else
      match answer
      case Err(e) =>
        after == db &&
        (Freezes(rules, db, req, runId, decisionId, 1, now, Err(e)) ||
         exists s: Snapshot ::
           && Freezes(rules, db, req, runId, decisionId, 1, now, Ok(s)) && e == InvalidContract
           && req.trigger.kind == RequestSubmitted && req.event.Some? && req.event.value.details != s.content.batch.details)
      case Ok((reply, created)) =>
        && created && reply.Prepared? && reply.runId == runId
        && Freezes(rules, db, req, runId, decisionId, 1, now, Ok(reply.context))
        && (req.trigger.kind == RequestSubmitted && req.event.Some? ==> req.event.value.details == reply.context.content.batch.details)
        && OnlyRun(db, after, runId, InProgress(key, req, reply.context, None))
  }

  lemma CreateMeans(rules: Rules, db: Db, req: Request, key: string, runId: string, decisionId: string, now: int)
    requires req.batchId in db.batches
    ensures var (after, answer) := CreateRun(rules, db, req, key, runId, decisionId, now);
            OpensRun(rules, db, req, key, runId, decisionId, now, after, answer)
  {
    FreezeMeans(rules, db, req, runId, decisionId, 1, now);
  }

  ghost predicate PrepareTells(rules: Rules, db: Db, req: Request, key: string, runId: string, decisionId: string, now: int, after: Db,
                         answer: Result<(Reply, bool), Code>)
  {
    if !WellFormed(req, key) then after == db && answer == Err(InvalidContract)
    else if key in db.keys && db.keys[key] in db.runs then
      && after == db
      && if db.runs[db.keys[key]].request != req then answer == Err(IdempotencyConflict)
         else answer.Ok? && !answer.value.1 && Shows(answer.value.0, db.keys[key], db.runs[db.keys[key]], true)
    else if req.trigger.kind == RequestSubmitted && (req.batchId !in db.batches || !Presented(db, req)) then
      after == db && answer == Err(InvalidContract)
    else if req.batchId !in db.batches then after == db && answer == Err(NotFound)
    else OpensRun(rules, db, req, key, runId, decisionId, now, after, answer)
  }

  /** Prepare: a malformed request is refused, a used key replays its own request and conflicts with any
      other, a submission must present its own event, and a new run is skipped or frozen. */
  lemma PrepareMeans(rules: Rules, db: Db, req: Request, key: string, runId: string, decisionId: string, now: int)
    ensures var (after, answer) := PrepareStep(rules, db, req, key, runId, decisionId, now);
            PrepareTells(rules, db, req, key, runId, decisionId, now, after, answer)
  {
    WellFormedExactly(req, key);
    if req.batchId in db.batches { CreateMeans(rules, db, req, key, runId, decisionId, now); }
  }

  // ---------------------------------------------------------------- get and refresh

  lemma GetMeans(db: Db, id: string)
    ensures match GetStep(db, id)
            case Err(e) => e == NotFound && id !in db.runs
            case Ok(reply) => id in db.runs && Shows(reply, id, db.runs[id], true)
  {
  }

  predicate RefreshTells(rules: Rules, db: Db, id: string, expected: Canon, now: int, after: Db, answer: Result<Reply, Code>) {
    if id !in db.runs then after == db && answer == Err(NotFound)
    else
      match db.runs[id]
      case Finished(_, _, _, _, result) => after == db && answer == Ok(Done(id, result, true))
      case InProgress(key, req, context, stale) =>
        if context.inputHash != expected then after == db && answer == Err(StaleContext)
        else if req.batchId !in db.batches then after == db && answer == Err(NotFound)
        else if !StillAsAsked(db.batches[req.batchId], req) then
          && answer.Ok? && answer.value.Done? && !answer.value.replay && answer.value.runId == id && Skips(answer.value.result, id, req)
          && OnlyRun(db, after, id, Finished(key, req, Some(context), None, answer.value.result))
        else if stale != Some(expected) then after == db && answer == Err(StateConflict)
        else
          match answer
          case Err(e) => after == db && Freezes(rules, db, req, id, context.decisionId, context.generation + 1, now, Err(e))
          case Ok(reply) =>
            && reply.Prepared? && reply.runId == id
            && Freezes(rules, db, req, id, context.decisionId, context.generation + 1, now, Ok(reply.context))
            && OnlyRun(db, after, id, InProgress(key, req, reply.context, None))
  }

  /** Refresh: only the marked context is refreshed, into the next generation of the same decision. */
  lemma RefreshMeans(rules: Rules, db: Db, id: string, expected: Canon, now: int)
    ensures var (after, answer) := RefreshStep(rules, db, id, expected, now);
            RefreshTells(rules, db, id, expected, now, after, answer)
  {
    if id in db.runs && db.runs[id].InProgress? && db.runs[id].request.batchId in db.batches {
      var run := db.runs[id];
      FreezeMeans(rules, db, run.request, id, run.context.decisionId, run.context.generation + 1, now);
    }
  }

  // ---------------------------------------------------------------- commit

  // The decision is recorded and the run finished; a match raises the batch, once.
  predicate Records(db: Db, id: string, key: string, req: Request, context: Snapshot, output: Output, after: Db, result: RunResult)
    requires req.batchId in db.batches
  {
    var b := db.batches[req.batchId];
    var next := if output.outcome == Matched then b.(status := MatchedBatch, version := b.version + 1) else b;
    && result.disposition.Committed? && result.runId == id && result.batchId == req.batchId && result.correlationId == req.correlationId
    && result.disposition == Committed(context.decisionId, req.epoch, output.outcome, output.evaluatedCount, output.eligibleCount,
                                       next.status, next.version)
    && after == db.(decisions := db.decisions + [Decision(context.decisionId, id, req.batchId, req.trigger, b.version, b.epoch, context, output)],
                    batches := if output.outcome == Matched then db.batches[req.batchId := next] else db.batches,
                    runs := db.runs[id := Finished(key, req, Some(context), Some(output), result)],
                    keys := db.keys[key := id])
  }

  // The identifier and the trigger have no decision yet.
  predicate Undecided(db: Db, decisionId: string, trigger: Trigger) {
    forall i :: 0 <= i < |db.decisions| ==> db.decisions[i].id != decisionId && db.decisions[i].trigger != trigger
  }

  // A recomputed output on a batch that still is as asked for.
  ghost predicate ConcludesRun(rules: Rules, db: Db, id: string, run: Run, output: Output, after: Db, answer: Result<(RunResult, bool), Code>)
    requires run.InProgress? && run.request.batchId in db.batches
  {
    var req, context := run.request, run.context;
    match answer
    case Ok((result, replay)) =>
      && !replay && Undecided(db, context.decisionId, req.trigger) && Records(db, id, run.key, req, context, output, after, result)
      && exists current: Snapshot :: current.inputHash == context.inputHash &&
           Freezes(rules, db, req, id, context.decisionId, context.generation, context.content.evaluationAt, Ok(current))
    case Err(e) =>
      if after != db then e == StaleContext && OnlyRun(db, after, id, run.(staleHash := Some(context.inputHash)))
      else
        || Freezes(rules, db, req, id, context.decisionId, context.generation, context.content.evaluationAt, Err(e))
        || (e == Unavailable && !Undecided(db, context.decisionId, req.trigger))
        || (e == InvalidResult && output.outcome == Matched && db.batches[req.batchId].version == 0xFFFF_FFFF)
        || (e == StaleContext && run.staleHash == Some(context.inputHash))
  }

  lemma RecheckMeans(rules: Rules, db: Db, id: string, run: Run, output: Output)
    requires id in db.runs && db.runs[id] == run && run.InProgress? && run.request.batchId in db.batches
    requires StillAsAsked(db.batches[run.request.batchId], run.request)
    ensures var (after, answer) := Recheck(rules, db, id, run, output);
            ConcludesRun(rules, db, id, run, output, after, answer)
  {
    var req, context := run.request, run.context;
    var frozen := Freeze(rules, db.config, db.batches[req.batchId], req, id, context.decisionId, context.generation, context.content.evaluationAt);
    FreezeMeans(rules, db, req, id, context.decisionId, context.generation, context.content.evaluationAt);
  }

  ghost predicate CommitTells(rules: Rules, db: Db, id: string, output: Output, after: Db, answer: Result<(RunResult, bool), Code>) {
    if output.runId != id || !(1 <= output.generation <= 0xFFFF_FFFF) || !(0 <= output.evaluatedCount <= 0xFFFF_FFFF) ||
      !(0 <= output.eligibleCount <= 0xFFFF_FFFF) then after == db && answer == Err(InvalidResult)
    else if id !in db.runs then after == db && answer == Err(NotFound)
    else
      match db.runs[id]
      case Finished(_, _, _, accepted, result) =>
        && after == db
        && answer == if result.disposition.Committed? && accepted != Some(output) then Err(IdempotencyConflict) else Ok((result, true))
      case InProgress(key, req, context, _) =>
        if output.inputHash != context.inputHash || output.generation != context.generation then after == db && answer == Err(StaleContext)
        else if rules.recompute(context).None? then after == db && answer == Err(InvalidContract)
        else if rules.recompute(context) != Some(output) then after == db && answer == Err(InvalidResult)
        else if req.batchId !in db.batches then after == db && answer == Err(NotFound)
        else if !StillAsAsked(db.batches[req.batchId], req) then
          && answer.Ok? && !answer.value.1 && Skips(answer.value.0, id, req)
          && OnlyRun(db, after, id, Finished(key, req, Some(context), None, answer.value.0))
        else ConcludesRun(rules, db, id, db.runs[id], output, after, answer)
  }

  /** Commit: only the recomputation of the current context is recorded; a finished run answers with its
      result, and conflicts with another output when it committed one. */
  lemma CommitMeans(rules: Rules, db: Db, id: string, output: Output)
    ensures var (after, answer) := CommitStep(rules, db, id, output);
            CommitTells(rules, db, id, output, after, answer)
  {
    if id in db.runs && db.runs[id].InProgress? && db.runs[id].request.batchId in db.batches &&
      StillAsAsked(db.batches[db.runs[id].request.batchId], db.runs[id].request)
    {
      RecheckMeans(rules, db, id, db.runs[id], output);
    }
  }
}
