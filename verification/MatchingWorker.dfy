/** The matching worker: a resumable stage machine over one delivery, and the checks it makes of every
    facade reply. */
module MatchingWorker {
  import opened Wrappers
  import opened Vocabulary
  import opened Snapshots
  import opened Evaluators
  import opened MatchingStore

  datatype Stage =
    | ValidateEvent | PrepareStage | EvaluateStage | CommitStage | ResolveStage | RefreshStage
    | QuarantineStage | DoneStage

  // What events.submission makes of the raw record.
  datatype Record = Malformed(code: Code) | Unrelated | Submission(event: Event)

  datatype Finish = CommittedRun | SkippedRun | QuarantinedRecord | IgnoredEvent

  datatype Delivery = Delivery(
    record: Record, stage: Stage, event: Option<Event>, runId: Option<string>, context: Option<Snapshot>,
    output: Option<Output>, errorCode: Option<Code>, failedStage: Option<Stage>, pendingRejection: Option<Code>,
    refreshAllowed: bool, refreshes: nat, retries: nat, failureStreak: nat, disposition: Option<Finish>)

  function Fresh(record: Record): Delivery {
    Delivery(record, ValidateEvent, None, None, None, None, None, None, None, false, 0, 0, 0, None)
  }

  // Python's validation and evaluation; normalize is what validate_input returns.
  datatype Python = Python(valid: Snapshot -> bool, normalize: Snapshot -> Snapshot, evaluate: Snapshot -> Option<Output>)

  const PYTHON := Python(PyValid, Normalized, PyEvaluate)

  datatype Settings = Settings(python: Python, retryBase: nat, retryMax: nat, maxRefreshes: nat)

  // What came back from the one call of a step.
  datatype Answer =
    | Run(reply: Reply)
    | Result(result: RunResult, replay: bool)
    | Refused(status: nat, code: Code, durable: Option<RunResult>, retryAfter: nat)
    | Garbled
    | Published
    | Unpublished

  // ---------------------------------------------------------------- reply checks

  predicate CheckCommitted(c: Disposition, e: Event, output: Option<Output>)
    requires c.Committed?
  {
    && c.epoch == e.epoch
    && 0 <= c.eligibleCount <= c.evaluatedCount <= MAX_UINT32
    && (c.outcome == Matched <==> c.eligibleCount > 0)
    && c.batchStatus == (if c.outcome == Matched then MatchedBatch else Submitted)
    && 1 <= c.batchVersion <= MAX_UINT32
    && c.batchVersion == e.version + (if c.outcome == Matched then 1 else 0)
    && (output.Some? ==>
          && c.decisionId == output.value.decisionId && c.outcome == output.value.outcome
          && c.evaluatedCount == output.value.evaluatedCount && c.eligibleCount == output.value.eligibleCount)
  }

  // check_result; None is a ContractError.
  function CheckResult(r: RunResult, e: Event, runId: string, output: Option<Output>): Option<Finish> {
    if r.runId != runId || r.batchId != e.batchId || r.correlationId != e.correlationId then None
    else match r.disposition
      case Skipped => Some(SkippedRun)
      case Committed(_, _, _, _, _, _, _) => if CheckCommitted(r.disposition, e, output) then Some(CommittedRun) else None
  }

  predicate ContextAnswers(p: Python, c: Snapshot, e: Event, runId: string) {
    && p.valid(c) && c.runId == runId && c.trigger == Trigger(e.id, RequestSubmitted)
    && c.correlationId == e.correlationId && c.content.batch == BatchInput(e.batchId, e.version, e.epoch, e.details)
  }

  datatype Checked = CheckedDone(finish: Finish) | CheckedPrepared(context: Snapshot) | Invalid

  // check_run.
  function CheckRun(p: Python, reply: Reply, e: Event, runId: Option<string>, output: Option<Output>): Checked {
    if runId.Some? && runId.value != reply.runId then Invalid
    else match reply
      case Done(id, result, _) =>
        (match CheckResult(result, e, id, output)
         case None => Invalid
         case Some(finish) => CheckedDone(finish))
      case Prepared(id, context) =>
        if ContextAnswers(p, context, e, id) then CheckedPrepared(p.normalize(context)) else Invalid
  }

  // ---------------------------------------------------------------- one step

  // The fields a stage relies on.
  predicate Consistent(d: Delivery) {
    && (d.stage in {PrepareStage, EvaluateStage, CommitStage, ResolveStage, RefreshStage} ==> d.event.Some?)
    && (d.stage in {EvaluateStage, CommitStage, ResolveStage, RefreshStage} ==> d.runId.Some?)
    && (d.stage in {EvaluateStage, CommitStage, RefreshStage} ==> d.context.Some?)
    && (d.stage in {CommitStage, RefreshStage} ==> d.output.Some?)
    && (d.refreshAllowed ==> d.context.Some? && d.output.Some?)
    && (d.stage == QuarantineStage ==> d.errorCode.Some?)
  }

  function Quarantine(d: Delivery, code: Code): Delivery {
    d.(errorCode := Some(code),
       failedStage := Some(if d.stage in {ValidateEvent, PrepareStage, EvaluateStage, CommitStage} then d.stage else CommitStage),
       stage := QuarantineStage)
  }

  function Power2(n: nat): nat { if n == 0 then 1 else 2 * Power2(n - 1) }

  function Backoff(s: Settings, streak: nat, retryAfter: nat): nat
    requires streak >= 1
  {
    var doublings := if streak - 1 < 20 then streak - 1 else 20;
    var delay := s.retryBase * Power2(doublings);
    var capped := if s.retryMax < delay then s.retryMax else delay;
    if retryAfter > capped then retryAfter else capped
  }

  // The incident a pause reports; Clear is no pause.
  datatype Incident = Clear | ContextChurn | StateConflicted | InvalidFacadeResponse | FacadeUnavailable | DlqUnavailable

  datatype Outcome = Outcome(delivery: Delivery, delay: nat, incident: Incident)

  function Pause(s: Settings, d: Delivery, incident: Incident, retryAfter: nat): Outcome {
    Outcome(d.(retries := d.retries + 1, failureStreak := d.failureStreak + 1),
            Backoff(s, d.failureStreak + 1, retryAfter), incident)
  }

  function Success(d: Delivery): Outcome { Outcome(d.(failureStreak := 0), 0, Clear) }

  // A refreshed context against the held one.
  function Refreshed(d: Delivery, value: Snapshot): (Delivery, bool)
    requires d.context.Some?
  {
    var previous := d.context.value;
    if value.decisionId != previous.decisionId then (d, false)
    else if value.generation == previous.generation then
      if value != previous then (d, false) else (d.(stage := RefreshStage), true)
    else if value.generation < previous.generation then (d, false)
    else (d.(refreshAllowed := false, refreshes := d.refreshes + 1, context := Some(value), output := None,
             stage := EvaluateStage), true)
  }

  // _run_response; false is a ContractError after the fields already assigned.
  function RunResponse(p: Python, d: Delivery, reply: Reply, resolving: bool): (Delivery, bool)
    requires d.event.Some? && (d.refreshAllowed ==> d.context.Some?)
  {
    match CheckRun(p, reply, d.event.value, d.runId, if d.refreshAllowed then None else d.output)
    case Invalid => (d, false)
    case CheckedDone(finish) => (d.(runId := Some(reply.runId), disposition := Some(finish), stage := DoneStage), true)
    case CheckedPrepared(value) =>
      var held := d.(runId := Some(reply.runId));
      if resolving && held.pendingRejection.Some? then (Quarantine(held, held.pendingRejection.value), true)
      else if held.refreshAllowed then Refreshed(held, value)
      else if held.output.Some? then
        if Some(value) != held.context then (held, false) else (held.(stage := CommitStage), true)
      else (held.(context := Some(value), stage := EvaluateStage), true)
  }

  predicate Terminal(status: nat, code: Code) {
    status in {400, 409, 422} &&
    code in {InvalidContract, InvalidResult, UnsupportedRuleSet, IdempotencyConflict, DataIntegrityError, LimitExceeded}
  }

  // The FacadeError handler; d is the delivery as the exception found it.
  function OnRefusal(s: Settings, d: Delivery, operation: Stage, a: Answer): Outcome
    requires a.Refused? && (d.runId.Some? ==> d.event.Some?)
  {
    if a.code == StaleContext && a.status == 409 && operation in {CommitStage, RefreshStage} && d.output.Some? then
      Outcome(d.(refreshAllowed := true, stage := RefreshStage), 0, Clear)
    else if a.code == StateConflict && a.status == 409 then
      if a.durable.Some? && d.runId.Some? then
        if CheckResult(a.durable.value, d.event.value, d.runId.value, None) == Some(SkippedRun)
        then Outcome(d.(disposition := Some(SkippedRun), stage := DoneStage), 0, Clear)
        else Pause(s, d, InvalidFacadeResponse, 0)
      else Pause(s, if d.runId.Some? then d.(stage := ResolveStage) else d, StateConflicted, 0)
    else if Terminal(a.status, a.code) then
      if d.runId.Some? && d.stage == ResolveStage then Outcome(d.(pendingRejection := Some(a.code)), 0, Clear)
      else Outcome(Quarantine(d, a.code), 0, Clear)
    else Pause(s, d, FacadeUnavailable, a.retryAfter)
  }

  function OnRun(s: Settings, d: Delivery, operation: Stage, a: Answer, resolving: bool): Outcome
    requires d.event.Some? && (d.refreshAllowed ==> d.context.Some?)
  {
    match a
    case Run(reply) =>
      var (after, ok) := RunResponse(s.python, d, reply, resolving);
      if ok then Success(after) else Pause(s, after, InvalidFacadeResponse, 0)
    case Refused(_, _, _, _) => OnRefusal(s, d, operation, a)
    case _ => Pause(s, d, InvalidFacadeResponse, 0)
  }

  function OnResult(s: Settings, d: Delivery, a: Answer): Outcome
    requires d.event.Some? && d.runId.Some?
  {
    match a
    case Result(result, _) =>
      (match CheckResult(result, d.event.value, d.runId.value, d.output)
       case None => Pause(s, d, InvalidFacadeResponse, 0)
       case Some(finish) => Success(d.(disposition := Some(finish), stage := DoneStage)))
    case Refused(_, _, _, _) => OnRefusal(s, d, CommitStage, a)
    case _ => Pause(s, d, InvalidFacadeResponse, 0)
  }

  // Processor._step: a is the answer to the call the stage makes, and unused where it makes none.
  function Step(s: Settings, d: Delivery, a: Answer): Outcome
    requires Consistent(d)
  {
    match d.stage
    case ValidateEvent =>
      (match d.record
       case Malformed(code) => Success(Quarantine(d, code))
       case Unrelated => Success(d.(disposition := Some(IgnoredEvent), stage := DoneStage))
       case Submission(event) => Success(d.(event := Some(event), stage := PrepareStage)))
    case PrepareStage => OnRun(s, d, PrepareStage, a, false)
    case EvaluateStage =>
      (match s.python.evaluate(d.context.value)
       case None => Success(Quarantine(d, InvalidContract))
       case Some(output) => Success(d.(output := Some(output), stage := CommitStage)))
    case CommitStage => OnResult(s, d.(stage := ResolveStage), a)
    case ResolveStage => OnRun(s, d, ResolveStage, a, true)
    case RefreshStage =>
      if d.refreshes >= s.maxRefreshes then Pause(s, d, ContextChurn, 0)
      else OnRun(s, d.(stage := ResolveStage), RefreshStage, a, false)
    case QuarantineStage =>
      if a.Published? then Success(d.(disposition := Some(QuarantinedRecord), stage := DoneStage))
      else Pause(s, d, DlqUnavailable, 0)
    case DoneStage => Success(d)
  }

  // ---------------------------------------------------------------- the same, in place

  class DeliveryState {
    var record: Record
    var stage: Stage
    var event: Option<Event>
    var runId: Option<string>
    var context: Option<Snapshot>
    var output: Option<Output>
    var errorCode: Option<Code>
    var failedStage: Option<Stage>
    var pendingRejection: Option<Code>
    var refreshAllowed: bool
    var refreshes: nat
    var retries: nat
    var failureStreak: nat
    var disposition: Option<Finish>

    function Value(): Delivery
      reads this
    {
      Delivery(record, stage, event, runId, context, output, errorCode, failedStage, pendingRejection, refreshAllowed,
               refreshes, retries, failureStreak, disposition)
    }

    constructor (record: Record)
      ensures Value() == Fresh(record)
    {
      this.record, stage, event, runId, context, output := record, ValidateEvent, None, None, None, None;
      errorCode, failedStage, pendingRejection := None, None, None;
      refreshAllowed, refreshes, retries, failureStreak, disposition := false, 0, 0, 0, None;
    }

    method SetQuarantine(code: Code)
      modifies this
      ensures Value() == Quarantine(old(Value()), code)
    {
      errorCode := Some(code);
      failedStage := Some(if stage in {ValidateEvent, PrepareStage, EvaluateStage, CommitStage} then stage else CommitStage);
      stage := QuarantineStage;
    }
  }

  class Processor {
    const settings: Settings

    constructor (settings: Settings)
      ensures this.settings == settings
    {
      this.settings := settings;
    }

    method PauseFor(d: DeliveryState, incident: Incident, retryAfter: nat) returns (delay: nat)
      modifies d
      ensures Pause(settings, old(d.Value()), incident, retryAfter) == Outcome(d.Value(), delay, incident)
    {
      d.retries := d.retries + 1;
      d.failureStreak := d.failureStreak + 1;
      delay := Backoff(settings, d.failureStreak, retryAfter);
    }

    /** _run_response: every field assigned before a failed check stays assigned. */
    method Respond(d: DeliveryState, reply: Reply, resolving: bool) returns (ok: bool)
      requires d.event.Some? && (d.refreshAllowed ==> d.context.Some?)
      modifies d
      ensures (d.Value(), ok) == RunResponse(settings.python, old(d.Value()), reply, resolving)
    {
      var checked := CheckRun(settings.python, reply, d.event.value, d.runId, if d.refreshAllowed then None else d.output);
      if checked.Invalid? { return false; }
      d.runId := Some(reply.runId);
      if checked.CheckedDone? {
        d.disposition, d.stage := Some(checked.finish), DoneStage;
        return true;
      }
      var value := checked.context;
      if resolving && d.pendingRejection.Some? {
        d.SetQuarantine(d.pendingRejection.value);
        return true;
      }
      if d.refreshAllowed {
        var previous := d.context.value;
        if value.decisionId != previous.decisionId { return false; }
        if value.generation == previous.generation {
          if value != previous { return false; }
          d.stage := RefreshStage;
          return true;
        }
        if value.generation <= previous.generation { return false; }
        d.refreshAllowed := false;
        d.refreshes := d.refreshes + 1;
        d.context, d.output := Some(value), None;
        d.stage := EvaluateStage;
      } else if d.output.Some? {
        if Some(value) != d.context { return false; }
        d.stage := CommitStage;
      } else {
        d.context := Some(value);
        d.stage := EvaluateStage;
      }
      return true;
    }

    method Refuse(d: DeliveryState, operation: Stage, a: Answer) returns (delay: nat, incident: Incident)
      requires a.Refused? && (d.runId.Some? ==> d.event.Some?)
      modifies d
      ensures OnRefusal(settings, old(d.Value()), operation, a) == Outcome(d.Value(), delay, incident)
    {
      if a.code == StaleContext && a.status == 409 && operation in {CommitStage, RefreshStage} && d.output.Some? {
        d.refreshAllowed := true;
        d.stage := RefreshStage;
        return 0, Clear;
      }
      if a.code == StateConflict && a.status == 409 {
        if a.durable.Some? && d.runId.Some? {
          if CheckResult(a.durable.value, d.event.value, d.runId.value, None) != Some(SkippedRun) {
            delay := PauseFor(d, InvalidFacadeResponse, 0);
            return delay, InvalidFacadeResponse;
          }
          d.disposition, d.stage := Some(SkippedRun), DoneStage;
          return 0, Clear;
        }
        if d.runId.Some? { d.stage := ResolveStage; }
        delay := PauseFor(d, StateConflicted, 0);
        return delay, StateConflicted;
      }
      if Terminal(a.status, a.code) {
        if d.runId.Some? && d.stage == ResolveStage {
          d.pendingRejection := Some(a.code);
        } else {
          d.SetQuarantine(a.code);
        }
        return 0, Clear;
      }
      delay := PauseFor(d, FacadeUnavailable, a.retryAfter);
      incident := FacadeUnavailable;
    }

    method HandleRun(d: DeliveryState, operation: Stage, a: Answer, resolving: bool)
      returns (delay: nat, incident: Incident)
      requires d.event.Some? && (d.refreshAllowed ==> d.context.Some?)
      modifies d
      ensures OnRun(settings, old(d.Value()), operation, a, resolving) == Outcome(d.Value(), delay, incident)
    {
      if a.Refused? {
        delay, incident := Refuse(d, operation, a);
        return;
      }
      var ok := false;
      if a.Run? { ok := Respond(d, a.reply, resolving); }
      if ok {
        d.failureStreak := 0;
        return 0, Clear;
      }
      delay := PauseFor(d, InvalidFacadeResponse, 0);
      incident := InvalidFacadeResponse;
    }

    method HandleResult(d: DeliveryState, a: Answer) returns (delay: nat, incident: Incident)
      requires d.event.Some? && d.runId.Some?
      modifies d
      ensures OnResult(settings, old(d.Value()), a) == Outcome(d.Value(), delay, incident)
    {
      if a.Refused? {
        delay, incident := Refuse(d, CommitStage, a);
        return;
      }
      if a.Result? {
        var finish := CheckResult(a.result, d.event.value, d.runId.value, d.output);
        if finish.Some? {
          d.disposition, d.stage, d.failureStreak := Some(finish.value), DoneStage, 0;
          return 0, Clear;
        }
      }
      delay := PauseFor(d, InvalidFacadeResponse, 0);
      incident := InvalidFacadeResponse;
    }

    /** _step: RESOLVE is set before an uncertain call, so that a lost reply is resolved by a GET. */
    method Advance(d: DeliveryState, a: Answer) returns (delay: nat, incident: Incident)
      requires Consistent(d.Value())
      modifies d
      ensures Step(settings, old(d.Value()), a) == Outcome(d.Value(), delay, incident)
    {
      delay, incident := 0, Clear;
      match d.stage {
        case ValidateEvent =>
          match d.record {
            case Malformed(code) => d.SetQuarantine(code);
            case Unrelated => d.disposition, d.stage := Some(IgnoredEvent), DoneStage;
            case Submission(event) => d.event, d.stage := Some(event), PrepareStage;
          }
          d.failureStreak := 0;
        case PrepareStage => delay, incident := HandleRun(d, PrepareStage, a, false);
        case EvaluateStage =>
          var output := settings.python.evaluate(d.context.value);
          if output.None? {
            d.SetQuarantine(InvalidContract);
          } else {
            d.output, d.stage := output, CommitStage;
          }
          d.failureStreak := 0;
        case CommitStage =>
          d.stage := ResolveStage;
          delay, incident := HandleResult(d, a);
        case ResolveStage => delay, incident := HandleRun(d, ResolveStage, a, true);
        case RefreshStage =>
          if d.refreshes >= settings.maxRefreshes {
            delay := PauseFor(d, ContextChurn, 0);
            incident := ContextChurn;
          } else {
            d.stage := ResolveStage;
            delay, incident := HandleRun(d, RefreshStage, a, false);
          }
        case QuarantineStage =>
          if a.Published? {
            d.disposition, d.stage, d.failureStreak := Some(QuarantinedRecord), DoneStage, 0;
          } else {
            delay := PauseFor(d, DlqUnavailable, 0);
            incident := DlqUnavailable;
          }
        case DoneStage => d.failureStreak := 0;
      }
    }
  }
}
