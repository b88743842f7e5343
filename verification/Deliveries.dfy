/** What becomes of a record in either worker, whatever it is answered: where a delivery ends, what a
    refusal does to it, and how long it waits. */
module Deliveries {
  import opened Wrappers
  import opened Vocabulary
  import opened Snapshots
  import opened MatchingStore
  import opened MatchingWorker
  import Evaluators
  import WorkerRuns
  import Workflow
  import Impact
  import Analytics = AnalyticsWorker

  // ---------------------------------------------------------------- waiting

  function Least(a: nat, b: nat): nat { if a < b then a else b }

  function Most(a: nat, b: nat): nat { if a < b then b else a }

  /** The first wait is the base, each further one doubles up to the longest, and the server's own wish
      is never undercut. */
  lemma BackoffDoubles(s: Settings, streak: nat, retryAfter: nat)
    requires streak >= 1
    ensures Backoff(s, 1, 0) == Least(s.retryBase, s.retryMax)
    ensures streak <= 20 ==> Backoff(s, streak + 1, 0) == Least(2 * Backoff(s, streak, 0), s.retryMax)
    ensures streak >= 21 ==> Backoff(s, streak, 0) == Backoff(s, 21, 0)
    ensures Backoff(s, streak, retryAfter) == Most(Backoff(s, streak, 0), retryAfter)
  {
    assert Power2(0) == 1;
    if streak <= 20 {
      assert Power2(streak) == 2 * Power2(streak - 1);
      assert s.retryBase * (2 * Power2(streak - 1)) == 2 * (s.retryBase * Power2(streak - 1));
    }
  }

  // The delivery tries again later and keeps everything else.
  predicate TriesLater(s: Settings, d: Delivery, stage: Stage, incident: Incident, retryAfter: nat, out: Outcome) {
    && out.delivery == d.(stage := stage, retries := d.retries + 1, failureStreak := d.failureStreak + 1)
    && out.incident == incident && out.delay == Backoff(s, d.failureStreak + 1, retryAfter)
  }

  // The delivery goes on at once.
  predicate GoesOn(out: Outcome) { out.delay == 0 && out.incident == Clear }

  const FINAL_CODES := {InvalidContract, InvalidResult, UnsupportedRuleSet, IdempotencyConflict, DataIntegrityError, LimitExceeded}

  // The stage a rejection is recorded for.
  function RejectedStage(d: Delivery): Stage {
    if d.stage in {ValidateEvent, PrepareStage, EvaluateStage, CommitStage} then d.stage else CommitStage
  }

  // A conflict with the state of the batch: the run was skipped, or it is asked for.
  predicate ConflictTells(s: Settings, d: Delivery, durable: Option<RunResult>, out: Outcome)
    requires d.runId.Some? ==> d.event.Some?
  {
    if durable.None? || d.runId.None? then
      TriesLater(s, d, if d.runId.Some? then ResolveStage else d.stage, StateConflicted, 0, out)
    else if durable.value.disposition.Skipped? && durable.value.runId == d.runId.value &&
      durable.value.batchId == d.event.value.batchId && durable.value.correlationId == d.event.value.correlationId
    then GoesOn(out) && out.delivery == d.(disposition := Some(SkippedRun), stage := DoneStage)
    else TriesLater(s, d, d.stage, InvalidFacadeResponse, 0, out)
  }

  predicate RefusalTells(s: Settings, d: Delivery, operation: Stage, a: Answer, out: Outcome)
    requires a.Refused? && (d.runId.Some? ==> d.event.Some?)
  {
    if a.code == StaleContext && a.status == 409 && operation in {CommitStage, RefreshStage} && d.output.Some? then
      GoesOn(out) && out.delivery == d.(refreshAllowed := true, stage := RefreshStage)
    else if a.code == StateConflict && a.status == 409 then ConflictTells(s, d, a.durable, out)
    else if a.status in {400, 409, 422} && a.code in FINAL_CODES then
      && GoesOn(out)
      && if d.runId.Some? && d.stage == ResolveStage then out.delivery == d.(pendingRejection := Some(a.code))
         else out.delivery == d.(errorCode := Some(a.code), failedStage := Some(RejectedStage(d)), stage := QuarantineStage)
    else TriesLater(s, d, d.stage, FacadeUnavailable, a.retryAfter, out)
  }

  /** Every refusal: a stale context asks for a refresh, a conflict for the run's own result, a final
      code ends in quarantine or is kept until the run is resolved, and anything else is tried again. */
  lemma RefusalMeans(s: Settings, d: Delivery, operation: Stage, a: Answer)
    requires a.Refused? && (d.runId.Some? ==> d.event.Some?)
    ensures RefusalTells(s, d, operation, a, OnRefusal(s, d, operation, a))
  {
  }

  /** Of the codes the facade sends, only three end a delivery: an unsupported rule set and damaged data
      are final codes too, but sent as server errors they are tried again. */
  lemma FacadeCodesEnd(s: Settings, d: Delivery, operation: Stage, code: Code)
    requires (d.runId.Some? ==> d.event.Some?) && code !in {StaleContext, StateConflict}
    ensures var out := OnRefusal(s, d, operation, WorkerRuns.Refusal(code));
            if code in {InvalidContract, IdempotencyConflict, InvalidResult} then
              && GoesOn(out)
              && if d.runId.Some? && d.stage == ResolveStage then out.delivery == d.(pendingRejection := Some(code))
                 else out.delivery.stage == QuarantineStage && out.delivery.errorCode == Some(code)
            else
              TriesLater(s, d, d.stage, FacadeUnavailable,
                         if code in {UnsupportedRuleSet, Unavailable, DataIntegrityError} then 2 else 0, out)
  {
    RefusalMeans(s, d, operation, WorkerRuns.Refusal(code));
  }

  // ---------------------------------------------------------------- what a worker believes

  // A result that fits the event and, where the worker has one, its own output: the counts fit the
  // outcome, and the batch is where the outcome leaves it.
  predicate CountsFit(c: Disposition, e: Event, output: Option<Evaluators.Output>)
    requires c.Committed?
  {
    && c.epoch == e.epoch && 0 <= c.eligibleCount <= c.evaluatedCount <= 0xFFFF_FFFF
    && (match c.outcome
        case Matched => c.eligibleCount >= 1 && c.batchStatus == MatchedBatch && c.batchVersion == e.version + 1
        case NoMatch => c.eligibleCount == 0 && c.batchStatus == Submitted && c.batchVersion == e.version)
    && 1 <= c.batchVersion <= 0xFFFF_FFFF
    && (output.Some? ==>
          && output.value.decisionId == c.decisionId && output.value.outcome == c.outcome
          && output.value.evaluatedCount == c.evaluatedCount && output.value.eligibleCount == c.eligibleCount)
  }

  predicate Believable(r: RunResult, e: Event, runId: string, output: Option<Evaluators.Output>) {
    && r.runId == runId && r.batchId == e.batchId && r.correlationId == e.correlationId
    && (r.disposition.Committed? ==> CountsFit(r.disposition, e, output))
  }

  // A context of this run for this event.
  predicate AnswersEvent(p: Python, c: Snapshot, e: Event, runId: string) {
    var b := c.content.batch;
    && p.valid(c) && c.runId == runId && c.trigger.id == e.id && c.trigger.kind == RequestSubmitted && c.correlationId == e.correlationId
    && b.id == e.batchId && b.version == e.version && b.epoch == e.epoch && b.details == e.details
  }

  predicate BelievableReply(p: Python, reply: Reply, d: Delivery)
    requires d.event.Some?
  {
    && (d.runId.Some? ==> d.runId.value == reply.runId)
    && match reply
       case Done(id, result, _) => Believable(result, d.event.value, id, if d.refreshAllowed then None else d.output)
       case Prepared(id, context) => AnswersEvent(p, context, d.event.value, id)
  }

  function EndOf(result: RunResult): Finish { if result.disposition.Skipped? then SkippedRun else CommittedRun }

  lemma ResultExactly(r: RunResult, e: Event, runId: string, output: Option<Evaluators.Output>)
    ensures CheckResult(r, e, runId, output) == if Believable(r, e, runId, output) then Some(EndOf(r)) else None
  {
  }

  lemma ReplyExactly(p: Python, reply: Reply, d: Delivery)
    requires d.event.Some?
    ensures CheckRun(p, reply, d.event.value, d.runId, if d.refreshAllowed then None else d.output) ==
            if !BelievableReply(p, reply, d) then Invalid
            else match reply case Done(_, result, _) => CheckedDone(EndOf(result)) case Prepared(_, context) => CheckedPrepared(p.normalize(context))
  {
    if reply.Done? { ResultExactly(reply.result, d.event.value, reply.runId, if d.refreshAllowed then None else d.output); }
  }

  // A fresh context of a run whose refresh was allowed: a later generation of the same decision is
  // evaluated anew, the same one is refreshed again, anything else is not believed.
  predicate RefreshTells(d: Delivery, value: Snapshot, after: Delivery, ok: bool)
    requires d.context.Some?
  {
    var held := d.context.value;
    if value.decisionId == held.decisionId && value.generation > held.generation then
      ok && after == d.(refreshAllowed := false, refreshes := d.refreshes + 1, context := Some(value), output := None, stage := EvaluateStage)
    else if value == held then ok && after == d.(stage := RefreshStage)
    else !ok && after == d
  }

  // A prepared context: it settles a kept rejection, refreshes, repeats the held one, or is evaluated.
  predicate ContextTells(d: Delivery, value: Snapshot, resolving: bool, after: Delivery, ok: bool)
    requires d.refreshAllowed ==> d.context.Some?
  {
    if resolving && d.pendingRejection.Some? then
      ok && after == d.(errorCode := d.pendingRejection, failedStage := Some(RejectedStage(d)), stage := QuarantineStage)
    else if d.refreshAllowed then RefreshTells(d, value, after, ok)
    else if d.output.None? then ok && after == d.(context := Some(value), stage := EvaluateStage)
    else if d.context == Some(value) then ok && after == d.(stage := CommitStage)
    else !ok && after == d
  }

  predicate ResponseTells(p: Python, d: Delivery, reply: Reply, resolving: bool, after: Delivery, ok: bool)
    requires d.event.Some? && (d.refreshAllowed ==> d.context.Some?)
  {
    if !BelievableReply(p, reply, d) then !ok && after == d
    else
      match reply
      case Done(id, result, _) => ok && after == d.(runId := Some(id), disposition := Some(EndOf(result)), stage := DoneStage)
      case Prepared(id, context) => ContextTells(d.(runId := Some(id)), p.normalize(context), resolving, after, ok)
  }

  /** What a worker does with a reply about its run: only a believable one changes the delivery. */
  lemma ResponseMeans(p: Python, d: Delivery, reply: Reply, resolving: bool)
    requires d.event.Some? && (d.refreshAllowed ==> d.context.Some?)
    ensures var (after, ok) := RunResponse(p, d, reply, resolving); ResponseTells(p, d, reply, resolving, after, ok)
  {
    ReplyExactly(p, reply, d);
  }

  // ---------------------------------------------------------------- one whole step

  // A step that went well clears the failures in a row.
  predicate Goes(d: Delivery, next: Delivery, out: Outcome) { GoesOn(out) && out.delivery == next.(failureStreak := 0) }

  // The answer to a call about the run.
  ghost predicate CallTells(s: Settings, d: Delivery, operation: Stage, a: Answer, resolving: bool, out: Outcome)
    requires d.event.Some? && (d.refreshAllowed ==> d.context.Some?)
  {
    match a
    case Run(reply) =>
      (exists after :: ResponseTells(s.python, d, reply, resolving, after, true) && Goes(d, after, out)) ||
      (exists after: Delivery :: ResponseTells(s.python, d, reply, resolving, after, false) &&
         TriesLater(s, after, after.stage, InvalidFacadeResponse, 0, out))
    case Refused(_, _, _, _) => RefusalTells(s, d, operation, a, out)
    case _ => TriesLater(s, d, d.stage, InvalidFacadeResponse, 0, out)
  }

  ghost predicate StepTells(s: Settings, d: Delivery, a: Answer, out: Outcome)
    requires Consistent(d)
  {
    match d.stage
    case ValidateEvent =>
      (match d.record
       case Malformed(code) =>
         Goes(d, d.(errorCode := Some(code), failedStage := Some(ValidateEvent), stage := QuarantineStage), out)
       case Unrelated => Goes(d, d.(disposition := Some(IgnoredEvent), stage := DoneStage), out)
       case Submission(e) => Goes(d, d.(event := Some(e), stage := PrepareStage), out))
    case PrepareStage => CallTells(s, d, PrepareStage, a, false, out)
    case EvaluateStage =>
      var output := s.python.evaluate(d.context.value);
      if output.Some? then Goes(d, d.(output := output, stage := CommitStage), out)
      else Goes(d, d.(errorCode := Some(InvalidContract), failedStage := Some(EvaluateStage), stage := QuarantineStage), out)
    case CommitStage =>
      var sent := d.(stage := ResolveStage);
      (match a
       case Result(result, _) =>
         if Believable(result, d.event.value, d.runId.value, d.output)
         then Goes(d, d.(disposition := Some(EndOf(result)), stage := DoneStage), out)
         else TriesLater(s, d, ResolveStage, InvalidFacadeResponse, 0, out)
       case Refused(_, _, _, _) => RefusalTells(s, sent, CommitStage, a, out)
       case _ => TriesLater(s, d, ResolveStage, InvalidFacadeResponse, 0, out))
    case ResolveStage => CallTells(s, d, ResolveStage, a, true, out)
    case RefreshStage =>
      if d.refreshes >= s.maxRefreshes then TriesLater(s, d, RefreshStage, ContextChurn, 0, out)
      else CallTells(s, d.(stage := ResolveStage), RefreshStage, a, false, out)
    case QuarantineStage =>
      if a.Published? then Goes(d, d.(disposition := Some(QuarantinedRecord), stage := DoneStage), out)
      else TriesLater(s, d, QuarantineStage, DlqUnavailable, 0, out)
    case DoneStage => Goes(d, d, out)
  }

  lemma CallMeans(s: Settings, d: Delivery, operation: Stage, a: Answer, resolving: bool)
    requires d.event.Some? && (d.refreshAllowed ==> d.context.Some?) && (d.runId.Some? ==> d.event.Some?)
    ensures CallTells(s, d, operation, a, resolving, OnRun(s, d, operation, a, resolving))
  {
    match a
    case Run(reply) =>
      ResponseMeans(s.python, d, reply, resolving);
      var (after, ok) := RunResponse(s.python, d, reply, resolving);
      assert ResponseTells(s.python, d, reply, resolving, after, ok);
    case Refused(_, _, _, _) => RefusalMeans(s, d, operation, a);
    case _ =>
  }

  lemma ResultMeans(s: Settings, d: Delivery, a: Answer)
    requires Consistent(d) && d.stage == CommitStage
    ensures StepTells(s, d, a, OnResult(s, d.(stage := ResolveStage), a))
  {
    match a
    case Result(result, _) => ResultExactly(result, d.event.value, d.runId.value, d.output);
    case Refused(_, _, _, _) => RefusalMeans(s, d.(stage := ResolveStage), CommitStage, a);
    case _ =>
  }

  /** A whole step of the matching worker, stage by stage and answer by answer, on the fields. */
  lemma StepMeans(s: Settings, d: Delivery, a: Answer)
    requires Consistent(d)
    ensures StepTells(s, d, a, Step(s, d, a))
  {
    if d.stage == PrepareStage {
      CallMeans(s, d, PrepareStage, a, false);
    } else if d.stage == ResolveStage {
      CallMeans(s, d, ResolveStage, a, true);
    } else if d.stage == RefreshStage {
      CallMeans(s, d.(stage := ResolveStage), RefreshStage, a, false);
    } else if d.stage == CommitStage {
      ResultMeans(s, d, a);
    }
  }

  // ---------------------------------------------------------------- a delivery stays consistent

  // A delivery in one of the stages that call.
  predicate Calls(d: Delivery, operation: Stage) {
    && Consistent(d) && d.event.Some? && d.stage in {PrepareStage, ResolveStage} && (d.stage == ResolveStage ==> d.runId.Some?)
    && operation != CommitStage && (operation == RefreshStage ==> d.stage == ResolveStage && d.context.Some? && d.output.Some?)
  }

  lemma ResponseConsistent(p: Python, d: Delivery, operation: Stage, reply: Reply, resolving: bool)
    requires Calls(d, operation)
    ensures Consistent(RunResponse(p, d, reply, resolving).0)
  {
  }

  lemma RefusalConsistent(s: Settings, d: Delivery, operation: Stage, a: Answer)
    requires Calls(d, operation) && a.Refused?
    ensures Consistent(OnRefusal(s, d, operation, a).delivery)
  {
  }

  lemma RunConsistent(s: Settings, d: Delivery, operation: Stage, a: Answer, resolving: bool)
    requires Calls(d, operation)
    ensures Consistent(OnRun(s, d, operation, a, resolving).delivery)
  {
    if a.Run? { ResponseConsistent(s.python, d, operation, a.reply, resolving); }
    if a.Refused? { RefusalConsistent(s, d, operation, a); }
  }

  lemma ResultConsistent(s: Settings, d: Delivery, a: Answer)
    requires Consistent(d) && d.stage == CommitStage
    ensures Consistent(OnResult(s, d.(stage := ResolveStage), a).delivery)
  {
  }

  /** Whatever the facade answers, the fields of the next stage are there. */
  lemma StepConsistent(s: Settings, d: Delivery, a: Answer)
    requires Consistent(d)
    ensures Consistent(Step(s, d, a).delivery)
  {
    if d.stage == PrepareStage {
      RunConsistent(s, d, PrepareStage, a, false);
    } else if d.stage == ResolveStage {
      RunConsistent(s, d, ResolveStage, a, true);
    } else if d.stage == RefreshStage {
      RunConsistent(s, d.(stage := ResolveStage), RefreshStage, a, false);
    } else if d.stage == CommitStage {
      ResultConsistent(s, d, a);
    }
  }

  // ---------------------------------------------------------------- where a record ends

  // A delivery of the record and its steps, with any answers.
  ghost predicate Steps(s: Settings, record: Record, ds: seq<Delivery>, answers: seq<Answer>) {
    && |ds| == |answers| + 1 && ds[0] == Fresh(record)
    && forall i {:trigger Position(i)} :: 0 <= i < |answers| ==> Consistent(ds[i]) && ds[i + 1] == Step(s, ds[i], answers[i]).delivery
  }

  lemma {:induction false} AlwaysConsistent(s: Settings, record: Record, ds: seq<Delivery>, answers: seq<Answer>, k: nat)
    requires Steps(s, record, ds, answers) && k < |ds|
    ensures Consistent(ds[k])
  {
    if k > 0 {
      AlwaysConsistent(s, record, ds, answers, k - 1);
      assert Position(k - 1);
      StepConsistent(s, ds[k - 1], answers[k - 1]);
    }
  }

  // A dead-letter publish among the answers after the first step.
  ghost predicate Buried(answers: seq<Answer>, k: nat)
    requires k <= |answers|
  {
    exists j :: 1 <= j < k && answers[j].Published?
  }

  // Where a delivery of the record is, after its first step.
  predicate EndsAs(record: Record, d: Delivery, buried: bool) {
    d.record == record &&
    match record
    case Unrelated => d.stage == DoneStage && d.disposition == Some(IgnoredEvent) && d.errorCode.None? && d.retries == 0
    case Malformed(code) =>
      && d.errorCode == Some(code) && d.failedStage == Some(ValidateEvent) && d.event.None? && d.runId.None?
      && if buried then d.stage == DoneStage && d.disposition == Some(QuarantinedRecord)
         else d.stage == QuarantineStage && d.disposition.None?
    case Submission(e) =>
      && d.event == Some(e) && d.stage != ValidateEvent && d.disposition != Some(IgnoredEvent)
      && (d.stage == DoneStage <==> d.disposition.Some?)
      && (d.disposition == Some(QuarantinedRecord) ==> d.errorCode.Some? && d.failedStage.Some?)
      && (d.stage == QuarantineStage ==> d.failedStage.Some?)
  }

  // A delivery of the submission at work.
  predicate AtWork(d: Delivery, e: Event) {
    Consistent(d) && d.record == Submission(e) && d.event == Some(e) && d.stage in {PrepareStage, ResolveStage} && d.disposition.None?
  }

  lemma ResponseEnds(p: Python, d: Delivery, reply: Reply, resolving: bool, e: Event)
    requires AtWork(d, e)
    ensures EndsAs(Submission(e), RunResponse(p, d, reply, resolving).0, false)
  {
  }

  lemma RefusalEnds(s: Settings, d: Delivery, operation: Stage, a: Answer, e: Event)
    requires AtWork(d, e) && a.Refused?
    ensures EndsAs(Submission(e), OnRefusal(s, d, operation, a).delivery, false)
  {
  }

  lemma RunEnds(s: Settings, d: Delivery, operation: Stage, a: Answer, resolving: bool, e: Event)
    requires AtWork(d, e)
    ensures EndsAs(Submission(e), OnRun(s, d, operation, a, resolving).delivery, false)
  {
    if a.Run? { ResponseEnds(s.python, d, a.reply, resolving, e); }
    if a.Refused? { RefusalEnds(s, d, operation, a, e); }
  }

  lemma ResultEnds(s: Settings, d: Delivery, a: Answer, e: Event)
    requires AtWork(d, e) && d.stage == ResolveStage
    ensures EndsAs(Submission(e), OnResult(s, d, a).delivery, false)
  {
    if a.Refused? { RefusalEnds(s, d, CommitStage, a, e); }
  }

  lemma SubmissionStepEnds(s: Settings, d: Delivery, a: Answer, e: Event)
    requires Consistent(d) && EndsAs(Submission(e), d, false)
    ensures EndsAs(Submission(e), Step(s, d, a).delivery, false)
  {
    if d.stage == PrepareStage {
      RunEnds(s, d, PrepareStage, a, false, e);
    } else if d.stage == ResolveStage {
      RunEnds(s, d, ResolveStage, a, true, e);
    } else if d.stage == RefreshStage {
      RunEnds(s, d.(stage := ResolveStage), RefreshStage, a, false, e);
    } else if d.stage == CommitStage {
      ResultEnds(s, d.(stage := ResolveStage), a, e);
    }
  }

  lemma StepEnds(s: Settings, d: Delivery, a: Answer, record: Record, buried: bool)
    requires Consistent(d) && EndsAs(record, d, buried)
    ensures EndsAs(record, Step(s, d, a).delivery, buried || a.Published?)
  {
    if record.Submission? { SubmissionStepEnds(s, d, a, record.event); }
  }

  /** The record decides how its delivery can end, whatever is answered: an unrelated one is ignored at
      once, a malformed one ends in quarantine exactly when its dead letter is published, and a
      submission is never ignored. */
  lemma {:induction false} RecordDecides(s: Settings, record: Record, ds: seq<Delivery>, answers: seq<Answer>, k: nat)
    requires Steps(s, record, ds, answers) && 1 <= k < |ds|
    ensures EndsAs(record, ds[k], Buried(answers, k))
  {
    assert Position(k - 1);
    if k > 1 {
      RecordDecides(s, record, ds, answers, k - 1);
      StepEnds(s, ds[k - 1], answers[k - 1], record, Buried(answers, k - 1));
      assert Buried(answers, k) <==> Buried(answers, k - 1) || answers[k - 1].Published?;
    } else {
      assert ds[1] == Step(s, Fresh(record), answers[0]).delivery;
    }
  }

  // ---------------------------------------------------------------- the processing worker

  // The delivery waits in the stage and keeps its work.
  predicate Waits(s: Analytics.Settings, d: Analytics.Delivery, stage: Analytics.Stage, failure: Analytics.Failure,
                  retryAfter: nat, out: Analytics.Outcome)
  {
    && out.delivery == d.(stage := stage, failure := Some(failure), retries := d.retries + 1, failureStreak := d.failureStreak + 1)
    && out.delay == Backoff(s.backoff, d.failureStreak + 1, retryAfter)
  }

  // The reply to a commit: completed from the event's own version, with the event's correlation id and
  // the worker's own figures.
  predicate CompletionFits(reply: Workflow.Reply, e: Impact.Recycled, output: Impact.ImpactResult) {
    && reply.CompletionReply? && reply.batchId == e.batchId && reply.status == BatchStatus.Completed
    && reply.version == e.aggregateVersion + 1 && reply.correlationId == e.correlationId
    && reply.result.metrics == output.metrics && reply.result.quality == output.quality && reply.result.anomalies == output.anomalies
  }

  predicate Clears(d: Analytics.Delivery, next: Analytics.Delivery, out: Analytics.Outcome) {
    out.delay == 0 && out.delivery == next.(failureStreak := 0, failure := None)
  }

  predicate RefusedWaits(s: Analytics.Settings, d: Analytics.Delivery, a: Analytics.Answer, out: Analytics.Outcome) {
    if a.Refused? then
      Waits(s, d, d.stage, if a.status in {401, 403} then Analytics.AuthFailed
                           else if a.status == 429 || a.status >= 500 then Analytics.FacadeUnavailable
                           else Analytics.FacadeRejected, a.retryAfter, out)
    else Waits(s, d, d.stage, Analytics.ContractViolated, 0, out)
  }

  predicate AnalyticsStepTells(s: Analytics.Settings, d: Analytics.Delivery, a: Analytics.Answer, out: Analytics.Outcome)
    requires Analytics.Consistent(d)
  {
    match d.stage
    case ValidateEvent =>
      if d.record.Unrelated? then
        Clears(d, d.(disposition := Some(Analytics.IgnoredEvent), stage := Analytics.DoneStage), out)
      else if d.record.Processing? && d.record.event.aggregateVersion < 0xFFFF_FFFF then
        Clears(d, d.(event := Some(d.record.event), stage := Analytics.PrepareStage), out)
      else Waits(s, d, Analytics.ValidateEvent, Analytics.ContractViolated, 0, out)
    case PrepareStage =>
      if a.PreparedBody? then Clears(d, d.(context := a.value, stage := Analytics.EvaluateStage), out) else RefusedWaits(s, d, a, out)
    case EvaluateStage =>
      if d.context.Some? && s.acknowledge(d.context.value, d.event.value).Ok? then
        Clears(d, d.(output := Some(s.acknowledge(d.context.value, d.event.value).value), stage := Analytics.CommitStage), out)
      else Waits(s, d, Analytics.PrepareStage, Analytics.ContractViolated, 0, out)
    case CommitStage =>
      if !a.CompletionBody? then RefusedWaits(s, d, a, out)
      else if CompletionFits(a.reply, d.event.value, d.output.value.result) then
        Clears(d, d.(disposition := Some(Analytics.CommittedEvent), stage := Analytics.DoneStage), out)
      else Waits(s, d, Analytics.CommitStage, Analytics.ContractViolated, 0, out)
    case DoneStage => Clears(d, d, out)
  }

  /** A whole step of the processing worker, stage by stage and answer by answer, on the fields. */
  lemma AnalyticsStepMeans(s: Analytics.Settings, d: Analytics.Delivery, a: Analytics.Answer)
    requires Analytics.Consistent(d)
    ensures AnalyticsStepTells(s, d, a, Analytics.Step(s, d, a))
  {
  }

  ghost predicate AnalyticsSteps(s: Analytics.Settings, record: Analytics.Record, ds: seq<Analytics.Delivery>,
                                 answers: seq<Analytics.Answer>)
  {
    && |ds| == |answers| + 1 && ds[0] == Analytics.Fresh(record)
    && forall i {:trigger Position(i)} :: 0 <= i < |answers| ==>
         Analytics.Consistent(ds[i]) && ds[i + 1] == Analytics.Step(s, ds[i], answers[i]).delivery
  }

  // Where a delivery of the record is, after its first k steps.
  predicate AnalyticsEndsAs(record: Analytics.Record, d: Analytics.Delivery, k: nat) {
    d.record == record &&
    match record
    case Unrelated => d.stage == Analytics.DoneStage && d.disposition == Some(Analytics.IgnoredEvent) && d.failure.None?
    case Malformed =>
      d.stage == Analytics.ValidateEvent && d.disposition.None? && d.failure == Some(Analytics.ContractViolated) && d.retries == k
    case Processing(e) =>
      if e.aggregateVersion >= 0xFFFF_FFFF then
        d.stage == Analytics.ValidateEvent && d.disposition.None? && d.failure == Some(Analytics.ContractViolated) && d.retries == k
      else
        && d.event == Some(e) && d.stage != Analytics.ValidateEvent && d.disposition != Some(Analytics.IgnoredEvent)
        && (d.stage == Analytics.DoneStage <==> d.disposition == Some(Analytics.CommittedEvent))
  }

  lemma AnalyticsStepEnds(s: Analytics.Settings, d: Analytics.Delivery, a: Analytics.Answer, record: Analytics.Record, k: nat)
    requires Analytics.Consistent(d) && AnalyticsEndsAs(record, d, k)
    ensures AnalyticsEndsAs(record, Analytics.Step(s, d, a).delivery, k + 1)
  {
  }

  /** An unrelated record is ignored, a malformed one and one whose batch has no version left are
      retried for ever, and any other is completed or still in work. */
  lemma {:induction false} AnalyticsRecordDecides(s: Analytics.Settings, record: Analytics.Record, ds: seq<Analytics.Delivery>,
                                                  answers: seq<Analytics.Answer>, k: nat)
    requires AnalyticsSteps(s, record, ds, answers) && 1 <= k < |ds|
    ensures AnalyticsEndsAs(record, ds[k], k)
  {
    assert Position(k - 1);
    if k > 1 {
      AnalyticsRecordDecides(s, record, ds, answers, k - 1);
      AnalyticsStepEnds(s, ds[k - 1], answers[k - 1], record, k - 1);
    } else {
      assert ds[1] == Analytics.Step(s, Analytics.Fresh(record), answers[0]).delivery;
    }
  }
}
