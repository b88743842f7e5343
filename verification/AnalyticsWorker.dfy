/** The processing worker: one delivery taken to the durable completion of its batch, and its runs
    against the service while calls and replies are lost and other instances interfere. */
module AnalyticsWorker {
  import opened Wrappers
  import opened Vocabulary
  import opened BatchCase
  import opened CaseInvariant
  import opened Workflow
  import opened WorkflowRuns
  import opened WorkflowHistories
  import opened Completions
  import Impact
  import MatchingWorker

  datatype Stage = ValidateEvent | PrepareStage | EvaluateStage | CommitStage | DoneStage

  // What analytics.source_event makes of the raw record.
  datatype Record = Malformed | Unrelated | Processing(event: Impact.Recycled)

  datatype Finish = IgnoredEvent | CommittedEvent

  datatype Failure = AuthFailed | FacadeUnavailable | FacadeRejected | ContractViolated

  datatype Delivery = Delivery(
    record: Record, stage: Stage, event: Option<Impact.Recycled>, context: Option<Preparation>,
    output: Option<Acknowledgement>, failure: Option<Failure>, retries: nat, failureStreak: nat,
    disposition: Option<Finish>)

  function Fresh(record: Record): Delivery { Delivery(record, ValidateEvent, None, None, None, None, 0, 0, None) }

  // What came back from the one call of a step. A body of the wrong shape carries no preparation.
  datatype Answer =
    | PreparedBody(value: Option<Preparation>)
    | CompletionBody(reply: Reply)
    | Refused(status: nat, retryAfter: nat)
    | Garbled

  // The backoff of the delivery loop, and the acknowledgement the worker computes.
  datatype Settings = Settings(
    backoff: MatchingWorker.Settings,
    acknowledge: (Preparation, Impact.Recycled) -> Result<Acknowledgement, AckError>)

  // ---------------------------------------------------------------- one step

  predicate Consistent(d: Delivery) {
    && (d.stage in {PrepareStage, EvaluateStage, CommitStage} ==> d.event.Some?)
    && (d.stage == CommitStage ==> d.output.Some?)
  }

  function FailureOf(status: nat): Failure {
    if status == 401 || status == 403 then AuthFailed
    else if status >= 500 || status == 429 then FacadeUnavailable
    else FacadeRejected
  }

  datatype Outcome = Outcome(delivery: Delivery, delay: nat)

  function Success(d: Delivery): Outcome { Outcome(d.(failureStreak := 0, failure := None), 0) }

  function Paused(s: Settings, d: Delivery, failure: Failure, retryAfter: nat): Outcome {
    Outcome(d.(failure := Some(failure), retries := d.retries + 1, failureStreak := d.failureStreak + 1),
            MatchingWorker.Backoff(s.backoff, d.failureStreak + 1, retryAfter))
  }

  function OnFailedCall(s: Settings, d: Delivery, a: Answer): Outcome {
    if a.Refused? then Paused(s, d, FailureOf(a.status), a.retryAfter) else Paused(s, d, ContractViolated, 0)
  }

  // AnalyticsProcessor.step: a failed check of a fetched input fetches it again, a failed commit keeps
  // the output so that the same body is sent again.
  function Step(s: Settings, d: Delivery, a: Answer): Outcome
    requires Consistent(d)
  {
    match d.stage
    case ValidateEvent =>
      (match d.record
       case Malformed => Paused(s, d, ContractViolated, 0)
       case Unrelated => Success(d.(disposition := Some(IgnoredEvent), stage := DoneStage))
       case Processing(e) =>
         if e.aggregateVersion >= MAX_UINT32 then Paused(s, d, ContractViolated, 0)
         else Success(d.(event := Some(e), stage := PrepareStage)))
    case PrepareStage =>
      if a.PreparedBody? then Success(d.(context := a.value, stage := EvaluateStage)) else OnFailedCall(s, d, a)
    case EvaluateStage =>
      if d.context.None? || s.acknowledge(d.context.value, d.event.value).Err?
      then Paused(s, d.(stage := PrepareStage), ContractViolated, 0)
      else Success(d.(output := Some(s.acknowledge(d.context.value, d.event.value).value), stage := CommitStage))
    case CommitStage =>
      if a.CompletionBody? then
        if CheckCompletion(a.reply, d.event.value, d.output.value.result)
        then Success(d.(disposition := Some(CommittedEvent), stage := DoneStage))
        else Paused(s, d, ContractViolated, 0)
      else OnFailedCall(s, d, a)
    case DoneStage => Success(d)
  }

  // ---------------------------------------------------------------- the same, in place

  class DeliveryState {
    var record: Record
    var stage: Stage
    var event: Option<Impact.Recycled>
    var context: Option<Preparation>
    var output: Option<Acknowledgement>
    var failure: Option<Failure>
    var retries: nat
    var failureStreak: nat
    var disposition: Option<Finish>

    function Value(): Delivery
      reads this
    {
      Delivery(record, stage, event, context, output, failure, retries, failureStreak, disposition)
    }

    constructor (record: Record)
      ensures Value() == Fresh(record)
    {
      this.record, stage, event, context, output := record, ValidateEvent, None, None, None;
      failure, retries, failureStreak, disposition := None, 0, 0, None;
    }
  }

  class AnalyticsProcessor {
    const settings: Settings

    constructor (settings: Settings)
      ensures this.settings == settings
    {
      this.settings := settings;
    }

    method PauseFor(d: DeliveryState, failure: Failure, retryAfter: nat) returns (delay: nat)
      modifies d
      ensures Paused(settings, old(d.Value()), failure, retryAfter) == Outcome(d.Value(), delay)
    {
      d.failure := Some(failure);
      d.retries := d.retries + 1;
      d.failureStreak := d.failureStreak + 1;
      delay := MatchingWorker.Backoff(settings.backoff, d.failureStreak, retryAfter);
    }

    /** step: the error handlers run after the stage's own assignments. */
    method Advance(d: DeliveryState, a: Answer) returns (delay: nat)
      requires Consistent(d.Value())
      modifies d
      ensures Step(settings, old(d.Value()), a) == Outcome(d.Value(), delay)
    {
      var violated := false;
      match d.stage {
        case ValidateEvent =>
          if d.record.Unrelated? {
            d.stage, d.disposition := DoneStage, Some(IgnoredEvent);
          } else if d.record.Processing? && d.record.event.aggregateVersion < MAX_UINT32 {
            d.event, d.stage := Some(d.record.event), PrepareStage;
          } else {
            violated := true;
          }
        case PrepareStage =>
          if a.PreparedBody? {
            d.context, d.stage := a.value, EvaluateStage;
          } else {
            violated := true;
          }
        case EvaluateStage =>
          if d.context.Some? && settings.acknowledge(d.context.value, d.event.value).Ok? {
            d.output := Some(settings.acknowledge(d.context.value, d.event.value).value);
            d.stage := CommitStage;
          } else {
            violated := true;
          }
        case CommitStage =>
          if a.CompletionBody? && CheckCompletion(a.reply, d.event.value, d.output.value.result) {
            d.stage, d.disposition := DoneStage, Some(CommittedEvent);
          } else {
            violated := true;
          }
        case DoneStage =>
      }
      if !violated {
        d.failureStreak, d.failure := 0, None;
        return 0;
      }
      if d.stage in {PrepareStage, CommitStage} && a.Refused? {
        delay := PauseFor(d, FailureOf(a.status), a.retryAfter);
        return;
      }
      if d.stage == EvaluateStage { d.stage := PrepareStage; }
      delay := PauseFor(d, ContractViolated, 0);
    }
  }

  // ---------------------------------------------------------------- a worker against the service

  // What becomes of a call: it is executed and answered, it is executed and its reply is lost, or it
  // never arrives. An error, lost or answered, reads as a refusal with some status.
  datatype Fate = Answered(status: nat) | ReplyLost(status: nat) | NeverSent(status: nat)

  datatype Move = Other(action: Action) | Work(fate: Fate, oracle: Oracle, draw: Draw)

  datatype World = World(db: Db, delivery: Delivery)

  datatype Bench = Bench(checks: Checks, settings: Settings, principal: string)

  function MetaOf(b: Bench, e: Impact.Recycled): Meta {
    Meta(Service(b.principal), "analytics-v1:" + e.eventId, e.correlationId)
  }

  function RequestOf(e: Impact.Recycled, out: Acknowledgement): Request { Acknowledge(e.batchId, e.aggregateVersion, out) }

  function KeyFor(b: Bench, e: Impact.Recycled): CommandKey {
    CommandKey(Service(b.principal), AcknowledgeAnalyticsCommand, "analytics-v1:" + e.eventId)
  }

  function PrepareCall(db: Db, e: Impact.Recycled, status: nat): Answer {
    match Prepare(db, e.batchId, e.eventId) case Err(_) => Answer.Refused(status, 0) case Ok(value) => PreparedBody(Some(value))
  }

  function CommitCall(b: Bench, db: Db, e: Impact.Recycled, out: Acknowledgement, o: Oracle, draw: Draw, status: nat)
    : (Db, Answer)
  {
    var (after, answer) := Call(b.checks, db, MetaOf(b, e), RequestOf(e, out), o, draw);
    (after, if answer.Ok? then CompletionBody(answer.value.reply) else Answer.Refused(status, 0))
  }

  // The call of the delivery's stage, as the service executes it.
  function Executed(b: Bench, w: World, m: Move): (Db, Answer)
    requires m.Work? && Consistent(w.delivery)
  {
    var d := w.delivery;
    if d.stage == PrepareStage then (w.db, PrepareCall(w.db, d.event.value, m.fate.status))
    else if d.stage == CommitStage then CommitCall(b, w.db, d.event.value, d.output.value, m.oracle, m.draw, m.fate.status)
    else (w.db, Garbled)
  }

  function Heard(fate: Fate, a: Answer): Answer {
    match fate
    case Answered(_) => a
    case ReplyLost(status) => Answer.Refused(status, 0)
    case NeverSent(status) => Answer.Refused(status, 0)
  }

  // The step, when the service would move to after and answer a.
  function Received(b: Bench, w: World, fate: Fate, after: Db, a: Answer): World
    requires Consistent(w.delivery)
  {
    World(if fate.NeverSent? then w.db else after, Step(b.settings, w.delivery, Heard(fate, a)).delivery)
  }

  function Worked(b: Bench, w: World, m: Move): World
    requires m.Work? && Consistent(w.delivery)
  {
    Received(b, w, m.fate, Executed(b, w, m).0, Executed(b, w, m).1)
  }

  function Moved(b: Bench, w: World, m: Move): World
    requires Consistent(w.delivery)
  {
    match m case Other(action) => World(Apply(b.checks, w.db, action), w.delivery) case Work(_, _, _) => Worked(b, w, m)
  }

  predicate AckFits(e: Impact.Recycled, out: Acknowledgement) {
    && out.sourceEventId == e.eventId && out.sourceVersion == e.aggregateVersion
    && out.input == Impact.CanonicalInput(e) && out.result.ruleVersion == e.data.ruleVersion != ""
  }

  // The worker's output for the event, which the service's own validation accepts.
  predicate Canonical(b: Bench, e: Impact.Recycled, out: Acknowledgement) {
    && e.aggregateVersion < MAX_UINT32 && AckFits(e, out)
    && b.settings.acknowledge(PreparedFrom(e), e) == Ok(out) && b.checks.accepts(e.data, out.result)
  }

  // Only workers acknowledge: others use this key, or acknowledge this batch, as this worker would.
  predicate Fair(b: Bench, e: Impact.Recycled, out: Acknowledgement, a: Action) {
    a.Invoke? ==>
      && (KeyOf(a.meta, a.request) == KeyFor(b, e) ==> a.request == RequestOf(e, out) && a.meta.correlationId == e.correlationId)
      && (a.request.Acknowledge? && a.request.batchId == e.batchId ==> a.request.ack == out)
  }

  // ---------------------------------------------------------------- the joint invariant

  predicate SourceHeld(db: Db, e: Impact.Recycled) {
    e.batchId in db.cases && db.cases[e.batchId].source == Some(e)
  }

  // Whatever is stored under the worker's key answers the worker's request.
  predicate KeySound(b: Bench, db: Db, e: Impact.Recycled, out: Acknowledgement) {
    KeyFor(b, e) in db.commands && e.batchId in db.cases ==>
      && db.commands[KeyFor(b, e)].request == RequestOf(e, out)
      && CheckCompletion(db.commands[KeyFor(b, e)].reply, e, out.result)
      && db.cases[e.batchId].status == Completed
  }

  predicate ResultSound(db: Db, e: Impact.Recycled, out: Acknowledgement) {
    e.batchId in db.cases && db.cases[e.batchId].results != [] ==> db.cases[e.batchId].results[0].ack == out
  }

  ghost predicate StoreSound(b: Bench, db: Db, e: Impact.Recycled, out: Acknowledgement) {
    Inv(b.checks, db) && SourceHeld(db, e) && ResultSound(db, e, out) && KeySound(b, db, e, out)
  }

  ghost predicate DeliverySound(d: Delivery, e: Impact.Recycled, out: Acknowledgement) {
    && Consistent(d) && d.record == Processing(e)
    && (d.event.Some? ==> d.event.value == e)
    && (d.context.Some? ==> d.context.value == PreparedFrom(e))
    && (d.stage == EvaluateStage ==> d.context.Some?)
    && (d.output.Some? ==> d.output.value == out)
    && (d.stage == DoneStage <==> d.disposition == Some(CommittedEvent))
    && d.failure != Some(ContractViolated)
  }

  ghost predicate Sound(b: Bench, w: World, e: Impact.Recycled, out: Acknowledgement) {
    && StoreSound(b, w.db, e, out) && DeliverySound(w.delivery, e, out)
    && (w.delivery.stage == DoneStage ==> w.db.cases[e.batchId].status == Completed)
  }

  // A batch with a source event has no result yet, or its one result.
  predicate Awaiting(c: Case, e: Impact.Recycled, out: Acknowledgement) {
    && c.source == Some(e)
    && if c.status == Recycled then c.results == [] && c.version == e.aggregateVersion
       else
         && c.status == Completed && c.results != [] && c.version == e.aggregateVersion + 1
         && c.results[0].ack == out && out.sourceEventId == e.eventId
  }

  lemma SourceAwaits(db: Db, e: Impact.Recycled, out: Acknowledgement)
    requires SourceHeld(db, e) && CaseSound(db.cases[e.batchId]) && ResultSound(db, e, out)
    ensures Awaiting(db.cases[e.batchId], e, out)
  {
  }

  // The first acknowledgement of the batch, or a later one under another key.
  lemma AcknowledgeEffect(p: Checks, db: Db, m: Meta, e: Impact.Recycled, out: Acknowledgement, expected: int, draw: Draw)
    requires e.batchId in db.cases && Awaiting(db.cases[e.batchId], e, out)
    requires AcknowledgeStep(p, db, m, e.batchId, expected, out, draw).Ok?
    ensures AcknowledgeStep(p, db, m, e.batchId, expected, out, draw).value.Recorded? ==>
              var after := AcknowledgeStep(p, db, m, e.batchId, expected, out, draw).value.db;
              SourceHeld(after, e) && ResultSound(after, e, out) && after.cases[e.batchId].status == Completed
    ensures AcknowledgeStep(p, db, m, e.batchId, expected, out, draw).value.Echoed? ==> db.cases[e.batchId].status == Completed
    ensures CheckCompletion(AcknowledgeStep(p, db, m, e.batchId, expected, out, draw).value.reply, e, out.result) <==>
            m.correlationId == e.correlationId
  {
  }

  /** Completion is final: no transaction takes a completed batch anywhere. */
  lemma CompletionIsFinal(c: Case, next: Case)
    requires CaseSound(c) && c.status == Completed && CaseSound(next)
    ensures !Advances(c, next)
  {
  }

  predicate SameResults(db: Db, after: Db, id: string) {
    id in db.cases && id in after.cases && after.cases[id].results == db.cases[id].results
  }

  lemma BatchResults(p: Checks, db: Db, m: Meta, r: Request, o: Oracle, draw: Draw, id: string)
    requires r.EditDraft? || r.Submit? || r.VerifyReceipt? || r.RecordTreatment?
    requires id in db.cases && BatchStep(p, db, m, r, o, draw).Ok?
    ensures SameResults(db, BatchStep(p, db, m, r, o, draw).value.0, id)
  {
    assert BatchNext(p, db, m, r, o, draw).value.results == db.cases[r.batchId].results;
  }

  lemma AssignmentResults(db: Db, m: Meta, r: Request, draw: Draw, id: string)
    requires r.AcceptAssignment? || r.RejectAssignment? || r.RecordHandoff? || r.FailPickup? || r.RecoverCollection?
    requires id in db.cases && AssignmentStep(db, m, r, draw).Ok?
    ensures SameResults(db, AssignmentStep(db, m, r, draw).value.0, id)
  {
    var (x, i) := Located(db, r.assignmentId).value;
    assert AssignmentNext(db.cases[x], i, ActorOf(m), r, draw.rowId).value.results == db.cases[x].results;
  }

  lemma ClaimResults(p: Checks, db: Db, m: Meta, batchId: string, expected: int, epoch: int, o: Oracle, draw: Draw, id: string)
    requires id in db.cases && ClaimStep(p, db, m, batchId, expected, epoch, o, draw).Ok?
    ensures SameResults(db, ClaimStep(p, db, m, batchId, expected, epoch, o, draw).value.0, id)
  {
  }

  lemma SelectResults(db: Db, m: Meta, batchId: string, expected: int, epoch: int, scopeId: string, o: Oracle, draw: Draw, id: string)
    requires id in db.cases && SelectStep(db, m, batchId, expected, epoch, scopeId, o, draw).Ok?
    ensures SameResults(db, SelectStep(db, m, batchId, expected, epoch, scopeId, o, draw).value.0, id)
  {
  }

  // No command but an acknowledgement of the batch writes its result.
  lemma ResultsOnlyByAcknowledge(p: Checks, db: Db, m: Meta, r: Request, o: Oracle, draw: Draw, id: string)
    requires id in db.cases && Execute(p, db, m, r, o, draw).Ok? && Execute(p, db, m, r, o, draw).value.Recorded?
    requires !(r.Acknowledge? && r.batchId == id)
    ensures SameResults(db, Execute(p, db, m, r, o, draw).value.db, id)
  {
    match r
    case EditDraft(_, _, _) => BatchResults(p, db, m, r, o, draw, id);
    case Submit(_, _) => BatchResults(p, db, m, r, o, draw, id);
    case VerifyReceipt(_, _, _) => BatchResults(p, db, m, r, o, draw, id);
    case RecordTreatment(_, _, _) => BatchResults(p, db, m, r, o, draw, id);
    case CreateDraft(_) =>
    case ClaimBatch(batchId, expected, epoch, _) => ClaimResults(p, db, m, batchId, expected, epoch, o, draw, id);
    case SelectCollector(batchId, expected, epoch, scopeId) =>
      SelectResults(db, m, batchId, expected, epoch, scopeId, o, draw, id);
    case Acknowledge(_, _, _) =>
    case _ => AssignmentResults(db, m, r, draw, id);
  }

  // The store's part about the one batch, without the invariant of all others.
  lemma ExecuteKeepsResult(p: Checks, db: Db, m: Meta, r: Request, o: Oracle, draw: Draw, e: Impact.Recycled, out: Acknowledgement)
    requires SourceHeld(db, e) && CaseSound(db.cases[e.batchId]) && ResultSound(db, e, out)
    requires Execute(p, db, m, r, o, draw).Ok? && Execute(p, db, m, r, o, draw).value.Recorded?
    requires r.Acknowledge? && r.batchId == e.batchId ==> r.ack == out
    ensures ResultSound(Execute(p, db, m, r, o, draw).value.db, e, out)
  {
    if r.Acknowledge? && r.batchId == e.batchId {
      SourceAwaits(db, e, out);
      AcknowledgeEffect(p, db, m, e, out, r.expected, draw);
    } else {
      ResultsOnlyByAcknowledge(p, db, m, r, o, draw, e.batchId);
    }
  }

  lemma SourceStaysHeld(c: Case, next: Case, e: Impact.Recycled)
    requires CaseSound(c) && CaseSound(next) && c.source == Some(e) && (next == c || Advances(c, next))
    ensures next.source == Some(e) && (c.status == Completed ==> next.status == Completed)
  {
    if c.status == Completed { CompletionIsFinal(c, next); }
  }

  // The reply stored under the worker's key.
  lemma KeyWritten(b: Bench, db: Db, m: Meta, r: Request, o: Oracle, draw: Draw, e: Impact.Recycled, out: Acknowledgement)
    requires SourceHeld(db, e) && CaseSound(db.cases[e.batchId]) && ResultSound(db, e, out)
    requires r == RequestOf(e, out) && m.correlationId == e.correlationId
    requires Execute(b.checks, db, m, r, o, draw).Ok? && Execute(b.checks, db, m, r, o, draw).value.Recorded?
    ensures CheckCompletion(Execute(b.checks, db, m, r, o, draw).value.reply, e, out.result)
    ensures SourceHeld(Execute(b.checks, db, m, r, o, draw).value.db, e)
    ensures Execute(b.checks, db, m, r, o, draw).value.db.cases[e.batchId].status == Completed
  {
    SourceAwaits(db, e, out);
    AcknowledgeEffect(b.checks, db, m, e, out, e.aggregateVersion, draw);
  }

  // What any call does to the store's half of the invariant.
  lemma CallKeepsStore(b: Bench, db: Db, m: Meta, r: Request, o: Oracle, draw: Draw, e: Impact.Recycled, out: Acknowledgement)
    requires StoreSound(b, db, e, out) && Fair(b, e, out, Invoke(m, r, o, draw))
    ensures StoreSound(b, Call(b.checks, db, m, r, o, draw).0, e, out)
    ensures db.cases[e.batchId].status == Completed ==>
              Call(b.checks, db, m, r, o, draw).0.cases[e.batchId].status == Completed
  {
    var after := Call(b.checks, db, m, r, o, draw).0;
    CallKeeps(b.checks, db, m, r, o, draw);
    SourceStaysHeld(db.cases[e.batchId], after.cases[e.batchId], e);
    if after != db {
      CallWrites(b.checks, db, m, r, o, draw);
      ExecuteKeepsResult(b.checks, db, m, r, o, draw, e, out);
      if KeyOf(m, r) == KeyFor(b, e) { KeyWritten(b, db, m, r, o, draw, e, out); }
    }
  }

  lemma MatchResults(db: Db, batchId: string, decisionId: string, matched: bool, rows: seq<MatchedRow>, id: string)
    requires id in db.cases
    ensures SameResults(db, MatchStep(db, batchId, decisionId, matched, rows), id)
  {
  }

  lemma MatchKeepsStore(b: Bench, db: Db, batchId: string, decisionId: string, matched: bool, rows: seq<MatchedRow>, e: Impact.Recycled,
                        out: Acknowledgement)
    requires StoreSound(b, db, e, out)
    ensures StoreSound(b, MatchStep(db, batchId, decisionId, matched, rows), e, out)
    ensures db.cases[e.batchId].status == Completed ==>
              MatchStep(db, batchId, decisionId, matched, rows).cases[e.batchId].status == Completed
  {
    var after := MatchStep(db, batchId, decisionId, matched, rows);
    MatchKeeps(b.checks, db, batchId, decisionId, matched, rows);
    MatchResults(db, batchId, decisionId, matched, rows, e.batchId);
    SourceStaysHeld(db.cases[e.batchId], after.cases[e.batchId], e);
  }

  lemma OtherKeepsStore(b: Bench, db: Db, a: Action, e: Impact.Recycled, out: Acknowledgement)
    requires StoreSound(b, db, e, out) && Fair(b, e, out, a)
    ensures StoreSound(b, Apply(b.checks, db, a), e, out)
    ensures db.cases[e.batchId].status == Completed ==> Apply(b.checks, db, a).cases[e.batchId].status == Completed
  {
    match a
    case Invoke(m, r, o, draw) => CallKeepsStore(b, db, m, r, o, draw, e, out);
    case Match(batchId, decisionId, matched, rows) => MatchKeepsStore(b, db, batchId, decisionId, matched, rows, e, out);
  }

  // ---------------------------------------------------------------- one step against the service

  lemma PrepareAnswered(db: Db, e: Impact.Recycled)
    requires SourceHeld(db, e) && CaseSound(db.cases[e.batchId]) && e.data.ruleVersion != ""
    ensures Prepare(db, e.batchId, e.eventId) == Ok(PreparedFrom(e))
  {
  }

  // The transaction completes the batch, or has already.
  ghost predicate Completes(db: Db, done: Result<Effect, Error>, e: Impact.Recycled, out: Acknowledgement)
    requires e.batchId in db.cases
  {
    && done.Ok? && CheckCompletion(done.value.reply, e, out.result)
    && (done.value.Recorded? ==> e.batchId in done.value.db.cases && done.value.db.cases[e.batchId].status == Completed)
    && (done.value.Echoed? ==> db.cases[e.batchId].status == Completed)
  }

  lemma FirstCommit(b: Bench, db: Db, draw: Draw, e: Impact.Recycled, out: Acknowledgement)
    requires e.batchId in db.cases && Awaiting(db.cases[e.batchId], e, out) && Canonical(b, e, out)
    ensures Completes(db, AcknowledgeStep(b.checks, db, MetaOf(b, e), e.batchId, e.aggregateVersion, out, draw), e, out)
  {
    var c := db.cases[e.batchId];
    if c.status == Recycled { assert AckGuard(c, e.aggregateVersion, out, b.checks.accepts).None?; }
    AcknowledgeEffect(b.checks, db, MetaOf(b, e), e, out, e.aggregateVersion, draw);
  }

  // The service's reply to the worker's request, first or repeated, passes the worker's check; with
  // the caller admitted, the service does reply.
  ghost predicate GoodReply(db: Db, answer: Result<Workflow.Answer, Error>, o: Oracle, e: Impact.Recycled, out: Acknowledgement) {
    && (answer.Ok? ==>
          CheckCompletion(answer.value.reply, e, out.result) && e.batchId in db.cases && db.cases[e.batchId].status == Completed)
    && (o.requestOk && o.actorOk ==> answer.Ok?)
  }

  lemma CommitRepeated(b: Bench, db: Db, o: Oracle, draw: Draw, e: Impact.Recycled, out: Acknowledgement)
    requires SourceHeld(db, e) && KeySound(b, db, e, out) && KeyFor(b, e) in db.commands
    ensures var (after, answer) := Call(b.checks, db, MetaOf(b, e), RequestOf(e, out), o, draw); GoodReply(after, answer, o, e, out)
  {
  }

  // A first call of an acknowledgement is its transaction, once the caller is admitted.
  lemma CommitFirst(p: Checks, db: Db, m: Meta, r: Request, o: Oracle, draw: Draw, e: Impact.Recycled, out: Acknowledgement)
    requires r.Acknowledge? && KeyOf(m, r) !in db.commands && e.batchId in db.cases
    requires Completes(db, AcknowledgeStep(p, db, m, r.batchId, r.expected, r.ack, draw), e, out)
    ensures var (after, answer) := Call(p, db, m, r, o, draw); GoodReply(after, answer, o, e, out)
  {
  }

  lemma CommitReplied(b: Bench, db: Db, o: Oracle, draw: Draw, e: Impact.Recycled, out: Acknowledgement)
    requires SourceHeld(db, e) && Awaiting(db.cases[e.batchId], e, out) && KeySound(b, db, e, out) && Canonical(b, e, out)
    ensures var (after, answer) := Call(b.checks, db, MetaOf(b, e), RequestOf(e, out), o, draw); GoodReply(after, answer, o, e, out)
  {
    if KeyFor(b, e) in db.commands {
      CommitRepeated(b, db, o, draw, e, out);
    } else {
      FirstCommit(b, db, draw, e, out);
      CommitFirst(b.checks, db, MetaOf(b, e), RequestOf(e, out), o, draw, e, out);
    }
  }

  lemma CommitAnswered(b: Bench, db: Db, o: Oracle, draw: Draw, e: Impact.Recycled, out: Acknowledgement)
    requires StoreSound(b, db, e, out) && Canonical(b, e, out)
    ensures var (after, answer) := Call(b.checks, db, MetaOf(b, e), RequestOf(e, out), o, draw);
            StoreSound(b, after, e, out) && GoodReply(after, answer, o, e, out)
  {
    SourceAwaits(db, e, out);
    CommitReplied(b, db, o, draw, e, out);
    CallKeepsStore(b, db, MetaOf(b, e), RequestOf(e, out), o, draw, e, out);
  }

  function Rank(stage: Stage): nat {
    match stage
    case ValidateEvent => 4
    case PrepareStage => 3
    case EvaluateStage => 2
    case CommitStage => 1
    case DoneStage => 0
  }

  // A step whose call, if it makes one, is executed, admitted and answered.
  predicate Served(m: Move) { m.Work? && m.fate.Answered? && m.oracle.requestOk && m.oracle.actorOk }

  // An answer the worker has no reason to doubt.
  predicate Trustworthy(stage: Stage, a: Answer, e: Impact.Recycled, out: Acknowledgement) {
    && (stage == PrepareStage ==> a.Refused? || a == PreparedBody(Some(PreparedFrom(e))))
    && (stage == CommitStage ==> a.Refused? || (a.CompletionBody? && CheckCompletion(a.reply, e, out.result)))
  }

  // What an honest service does with the call of a stage.
  ghost predicate Honest(b: Bench, w: World, m: Move, after: Db, a: Answer, e: Impact.Recycled, out: Acknowledgement) {
    && StoreSound(b, after, e, out) && Trustworthy(w.delivery.stage, a, e, out)
    && (Served(m) ==> !a.Refused?)
    && (w.delivery.stage == CommitStage && !a.Refused? ==> after.cases[e.batchId].status == Completed)
    && (w.delivery.stage == DoneStage ==> after == w.db)
  }

  lemma ExecutedWell(b: Bench, w: World, m: Move, e: Impact.Recycled, out: Acknowledgement)
    requires m.Work? && Sound(b, w, e, out) && Canonical(b, e, out)
    ensures Honest(b, w, m, Executed(b, w, m).0, Executed(b, w, m).1, e, out)
  {
    if w.delivery.stage == PrepareStage {
      assert CaseSound(w.db.cases[e.batchId]);
      PrepareAnswered(w.db, e);
    } else if w.delivery.stage == CommitStage {
      CommitAnswered(b, w.db, m.oracle, m.draw, e, out);
    }
  }

  // The stage is never taken back, and a served step takes it forward.
  predicate Forward(w: World, m: Move, next: World) {
    && Rank(next.delivery.stage) <= Rank(w.delivery.stage)
    && (Served(m) && w.delivery.stage != DoneStage ==> Rank(next.delivery.stage) == Rank(w.delivery.stage) - 1)
  }

  // A delivery is done that was done before, or by the answer to its commit.
  predicate DoneBy(w: World, m: Move, a: Answer, next: Delivery) {
    m.Work? && next.stage == DoneStage ==>
      w.delivery.stage == DoneStage || (w.delivery.stage == CommitStage && m.fate.Answered? && !a.Refused?)
  }

  lemma DeliveryWell(b: Bench, w: World, m: Move, after: Db, a: Answer, e: Impact.Recycled, out: Acknowledgement)
    requires m.Work? && DeliverySound(w.delivery, e, out) && Canonical(b, e, out) && Trustworthy(w.delivery.stage, a, e, out)
    requires Served(m) ==> !a.Refused?
    ensures var next := Received(b, w, m.fate, after, a);
            DeliverySound(next.delivery, e, out) && Forward(w, m, next) && DoneBy(w, m, a, next.delivery)
  {
  }

  lemma ReceivedWell(b: Bench, w: World, m: Move, after: Db, a: Answer, e: Impact.Recycled, out: Acknowledgement)
    requires m.Work? && Sound(b, w, e, out) && Canonical(b, e, out) && Honest(b, w, m, after, a, e, out)
    ensures Sound(b, Received(b, w, m.fate, after, a), e, out)
    ensures Forward(w, m, Received(b, w, m.fate, after, a))
  {
    DeliveryWell(b, w, m, after, a, e, out);
  }

  /** Whatever becomes of its call, a step keeps the invariant and never takes the stage back: the worker
      finds no fault in an honest service. A served step takes it forward. */
  lemma WorkKeeps(b: Bench, w: World, m: Move, e: Impact.Recycled, out: Acknowledgement)
    requires m.Work? && Sound(b, w, e, out) && Canonical(b, e, out)
    ensures Sound(b, Worked(b, w, m), e, out) && Forward(w, m, Worked(b, w, m))
  {
    ExecutedWell(b, w, m, e, out);
    ReceivedWell(b, w, m, Executed(b, w, m).0, Executed(b, w, m).1, e, out);
  }

  // ---------------------------------------------------------------- runs

  ghost predicate Chain<S(!new), A(!new)>(step: (S, A, S) -> bool, states: seq<S>, acts: seq<A>) {
    |states| == |acts| + 1 && forall i {:trigger Position(i)} :: 0 <= i < |acts| ==> step(states[i], acts[i], states[i + 1])
  }

  function Total<A>(weight: A -> nat, acts: seq<A>): nat {
    if acts == [] then 0 else Total(weight, acts[..|acts| - 1]) + weight(acts[|acts| - 1])
  }

  ghost predicate Kept<S(!new), A(!new)>(step: (S, A, S) -> bool, weight: A -> nat, keeps: (S, nat) -> bool) {
    forall s, a, t, n: nat :: keeps(s, n) && step(s, a, t) ==> keeps(t, n + weight(a))
  }

  // What one step keeps, counting its weight, holds at every point of a chain.
  lemma {:induction false} ChainHolds<S(!new), A(!new)>(
    step: (S, A, S) -> bool, weight: A -> nat, keeps: (S, nat) -> bool, states: seq<S>, acts: seq<A>, k: nat)
    requires Chain(step, states, acts) && k <= |acts| && keeps(states[0], 0)
    requires Kept(step, weight, keeps)
    ensures keeps(states[k], Total(weight, acts[..k]))
    decreases k
  {
    if k > 0 {
      ChainHolds(step, weight, keeps, states, acts, k - 1);
      assert Position(k - 1);
      assert acts[..k][..k - 1] == acts[..k - 1];
    }
  }

  // One move of a run: others act fairly.
  predicate Steps(b: Bench, e: Impact.Recycled, out: Acknowledgement, w: World, m: Move, next: World) {
    Consistent(w.delivery) && next == Moved(b, w, m) && (m.Other? ==> Fair(b, e, out, m.action))
  }

  ghost predicate Run(b: Bench, e: Impact.Recycled, out: Acknowledgement, ws: seq<World>, moves: seq<Move>) {
    Chain((w, m, next) => Steps(b, e, out, w, m, next), ws, moves)
  }

  // A batch awaiting analytics and a fresh delivery of its event.
  ghost predicate Started(b: Bench, w: World, e: Impact.Recycled) {
    && Inv(b.checks, w.db) && SourceHeld(w.db, e) && w.db.cases[e.batchId].status == Recycled
    && KeyFor(b, e) !in w.db.commands && w.delivery == Fresh(Processing(e))
  }

  function ServedWeight(m: Move): nat { if Served(m) then 1 else 0 }

  lemma StartSound(b: Bench, w: World, e: Impact.Recycled, out: Acknowledgement)
    requires Started(b, w, e)
    ensures Sound(b, w, e, out)
  {
    assert CaseSound(w.db.cases[e.batchId]);
  }

  // The invariant, and how far the worker has come: at worst each served step was one stage.
  ghost predicate Progressed(b: Bench, e: Impact.Recycled, out: Acknowledgement, w: World, served: nat) {
    Sound(b, w, e, out) && (Rank(w.delivery.stage) + served <= 4 || w.delivery.stage == DoneStage)
  }

  lemma OtherKeeps(b: Bench, w: World, a: Action, e: Impact.Recycled, out: Acknowledgement)
    requires Sound(b, w, e, out) && Fair(b, e, out, a)
    ensures Sound(b, World(Apply(b.checks, w.db, a), w.delivery), e, out)
  {
    OtherKeepsStore(b, w.db, a, e, out);
  }

  lemma WorkProgresses(b: Bench, w: World, m: Move, served: nat, e: Impact.Recycled, out: Acknowledgement)
    requires m.Work? && Progressed(b, e, out, w, served) && Canonical(b, e, out)
    ensures Progressed(b, e, out, Worked(b, w, m), served + ServedWeight(m))
  {
    WorkKeeps(b, w, m, e, out);
  }

  lemma MoveKeeps(b: Bench, w: World, m: Move, next: World, served: nat, e: Impact.Recycled, out: Acknowledgement)
    requires Progressed(b, e, out, w, served) && Canonical(b, e, out) && Steps(b, e, out, w, m, next)
    ensures Progressed(b, e, out, next, served + ServedWeight(m))
  {
    match m
    case Other(a) => OtherKeeps(b, w, a, e, out);
    case Work(_, _, _) => WorkProgresses(b, w, m, served, e, out);
  }

  lemma MovesKeep(b: Bench, e: Impact.Recycled, out: Acknowledgement)
    requires Canonical(b, e, out)
    ensures Kept((w, m, next) => Steps(b, e, out, w, m, next), ServedWeight, (w: World, n: nat) => Progressed(b, e, out, w, n))
  {
    forall w, m, next, n: nat | Progressed(b, e, out, w, n) && Steps(b, e, out, w, m, next)
      ensures Progressed(b, e, out, next, n + ServedWeight(m))
    {
      MoveKeeps(b, w, m, next, n, e, out);
    }
  }

  lemma RunHolds(b: Bench, ws: seq<World>, moves: seq<Move>, k: nat, e: Impact.Recycled, out: Acknowledgement)
    requires Run(b, e, out, ws, moves) && Started(b, ws[0], e) && Canonical(b, e, out) && k <= |moves|
    ensures Progressed(b, e, out, ws[k], Total(ServedWeight, moves[..k]))
  {
    MovesKeep(b, e, out);
    StartSound(b, ws[0], e, out);
    ChainHolds((w, m, next) => Steps(b, e, out, w, m, next), ServedWeight,
               (w: World, n: nat) => Progressed(b, e, out, w, n), ws, moves, k);
  }

  // What a finished delivery says of its batch.
  predicate CompletedWith(db: Db, e: Impact.Recycled, out: Acknowledgement) {
    e.batchId in db.cases &&
      var c := db.cases[e.batchId];
      c.status == Completed && c.version == e.aggregateVersion + 1 && |c.results| == 1 && c.results[0].ack == out
  }

  // No fault found; done means completed; and four served steps are enough.
  predicate Finishing(w: World, served: nat, e: Impact.Recycled, out: Acknowledgement) {
    && w.delivery.failure != Some(ContractViolated)
    && (w.delivery.stage == DoneStage ==> CompletedWith(w.db, e, out))
    && (served >= 4 ==> w.delivery.stage == DoneStage)
  }

  lemma ProgressMeans(b: Bench, w: World, served: nat, e: Impact.Recycled, out: Acknowledgement)
    requires Progressed(b, e, out, w, served)
    ensures Finishing(w, served, e, out)
  {
    assert CaseSound(w.db.cases[e.batchId]);
  }

  /** A worker on an honest service: it never reports a contract violation, whatever is lost; when it is
      done the batch is completed with its own result; and four served steps suffice, with any number
      of failed ones and of other instances' steps in between. */
  lemma WorkerCompletes(b: Bench, ws: seq<World>, moves: seq<Move>, k: nat, e: Impact.Recycled, out: Acknowledgement)
    requires Run(b, e, out, ws, moves) && Started(b, ws[0], e) && Canonical(b, e, out) && k <= |moves|
    ensures Finishing(ws[k], Total(ServedWeight, moves[..k]), e, out)
  {
    RunHolds(b, ws, moves, k, e, out);
    ProgressMeans(b, ws[k], Total(ServedWeight, moves[..k]), e, out);
  }

  lemma AckIsCanonical(b: Bench, next: Case)
    requires b.settings.acknowledge == WorkerAck && CaseSound(next) && next.status == Recycled
    requires next.version < MAX_UINT32 && next.source.value.data.ruleVersion == Impact.RULE_VERSION
    requires Impact.Acknowledgement(next.source.value.data).Ok?
    requires OnlyAccepts(next, b.checks.accepts, Impact.Acknowledgement(next.source.value.data).value)
    ensures var e := next.source.value;
            WorkerAck(PreparedFrom(e), e).Ok? && Canonical(b, e, WorkerAck(PreparedFrom(e), e).value)
  {
    var out := WorkerAck(PreparedFrom(next.source.value), next.source.value).value;
    assert AckGuard(next, next.version, out, b.checks.accepts).None?;
  }

  /** A batch that any history of the real system has taken to RECYCLED under the d3-v1 rule meets the
      hypothesis of the run: the worker's output for its event exists and the service accepts it. */
  lemma TreatmentIsCanonical(b: Bench, dbs: seq<Db>, actions: seq<Action>, k: nat, id: string)
    requires RealChecks(b.checks) && b.settings.acknowledge == WorkerAck && b.checks.ruleVersion == Impact.RULE_VERSION
    requires History(b.checks, dbs, actions) && k < |dbs| && id in dbs[k].cases
    requires dbs[k].cases[id].status == Recycled && dbs[k].cases[id].version < MAX_UINT32
    ensures dbs[k].cases[id].source.Some?
    ensures var e := dbs[k].cases[id].source.value;
            e.batchId == id && WorkerAck(PreparedFrom(e), e).Ok? && Canonical(b, e, WorkerAck(PreparedFrom(e), e).value)
  {
    TreatmentCompletes(b.checks, dbs, actions, k, id);
    InvHolds(b.checks, dbs, actions, k);
    assert CaseSound(dbs[k].cases[id]);
    AckIsCanonical(b, dbs[k].cases[id]);
  }
}
