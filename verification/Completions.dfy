/** Completion: the prepared input, the acknowledgement a worker makes of it, and the check the worker
    makes of the reply. */
module Completions {
  import opened Wrappers
  import opened Vocabulary
  import opened BatchCase
  import opened CaseInvariant
  import opened Workflow
  import opened WorkflowRuns
  import opened WorkflowHistories
  import opened WorkflowFigures
  import Impact
  import Intake

  // ---------------------------------------------------------------- prepare

  datatype Preparation = Preparation(
    batchId: string, sourceEventId: string, sourceVersion: int, ruleVersion: string, correlationId: string,
    input: Impact.Frozen)

  function PreparedFrom(e: Impact.Recycled): Preparation {
    Preparation(e.batchId, e.eventId, e.aggregateVersion, e.data.ruleVersion, e.correlationId, Impact.CanonicalInput(e))
  }

  // PrepareAnalytics: reads only.
  function Prepare(db: Db, batchId: string, sourceEventId: string): Result<Preparation, Error> {
    if batchId !in db.cases || db.cases[batchId].source.None? || db.cases[batchId].source.value.eventId != sourceEventId
    then Err(NotFound)
    else
      var c, e := db.cases[batchId], db.cases[batchId].source.value;
      if e.data.ruleVersion == "" then Err(ValidationFailed)
      else if c.status == Recycled && c.version != e.aggregateVersion then Err(StaleVersion)
      else if c.status == Completed && c.version != e.aggregateVersion + 1 then Err(StaleVersion)
      else if c.status != Recycled && c.status != Completed then Err(InvalidState)
      else Ok(Preparation(batchId, sourceEventId, e.aggregateVersion, e.data.ruleVersion, e.correlationId, Impact.CanonicalInput(e)))
  }

  lemma {:induction false} SourceStays(p: Checks, dbs: seq<Db>, actions: seq<Action>, i: nat, j: nat, id: string)
    requires History(p, dbs, actions) && i <= j < |dbs| && id in dbs[i].cases && dbs[i].cases[id].source.Some?
    ensures id in dbs[j].cases && dbs[j].cases[id].source == dbs[i].cases[id].source
    decreases j
  {
    if i < j {
      SourceStays(p, dbs, actions, i, j - 1, id);
      AdvanceAt(p, dbs, actions, j - 1, id);
    }
  }

  lemma PreparedFromSource(p: Checks, dbs: seq<Db>, actions: seq<Action>, k: nat, id: string)
    requires History(p, dbs, actions) && k < |dbs| && id in dbs[k].cases && dbs[k].cases[id].source.Some?
    ensures var e := dbs[k].cases[id].source.value;
            Prepare(dbs[k], id, e.eventId) ==
            if e.data.ruleVersion == "" then Err(ValidationFailed)
            else Ok(Preparation(id, e.eventId, e.aggregateVersion, e.data.ruleVersion, e.correlationId, Impact.CanonicalInput(e)))
  {
    InvHolds(p, dbs, actions, k);
    assert CaseSound(dbs[k].cases[id]);
  }

  /** The prepared input is the same before and after completion, at every later moment. */
  lemma PreparedInputNeverChanges(p: Checks, dbs: seq<Db>, actions: seq<Action>, i: nat, j: nat, id: string)
    requires History(p, dbs, actions) && i <= j < |dbs| && id in dbs[i].cases && dbs[i].cases[id].source.Some?
    ensures Prepare(dbs[j], id, dbs[i].cases[id].source.value.eventId) == Prepare(dbs[i], id, dbs[i].cases[id].source.value.eventId)
  {
    SourceStays(p, dbs, actions, i, j, id);
    PreparedFromSource(p, dbs, actions, i, id);
    PreparedFromSource(p, dbs, actions, j, id);
  }

  // ---------------------------------------------------------------- the worker's acknowledgement

  datatype AckError = IdentityMismatch | InputMismatch | EvaluationRejected(cause: Impact.ImpactError)

  // analytics.acknowledgement: identity, frozen input, evaluation, run id.
  function WorkerAck(prepared: Preparation, e: Impact.Recycled): Result<Acknowledgement, AckError> {
    if prepared.batchId != e.batchId || prepared.sourceEventId != e.eventId || prepared.sourceVersion != e.aggregateVersion ||
      prepared.ruleVersion != e.data.ruleVersion || prepared.correlationId != e.correlationId then Err(IdentityMismatch)
    else if prepared.input != Impact.CanonicalInput(e) then Err(InputMismatch)
    else
      match Impact.Acknowledgement(e.data)
      case Err(cause) => Err(EvaluationRejected(cause))
      case Ok(result) =>
        Ok(BatchCase.Acknowledgement(e.eventId, e.aggregateVersion,
                                     RunId(e.eventId, Impact.RULE_VERSION, prepared.input), prepared.input, result))
  }

  // The preparation is the event's own: batch, event, version, rule, correlation id and frozen input.
  predicate PreparedOf(prepared: Preparation, e: Impact.Recycled) {
    && prepared.batchId == e.batchId && prepared.sourceEventId == e.eventId && prepared.sourceVersion == e.aggregateVersion
    && prepared.ruleVersion == e.data.ruleVersion && prepared.correlationId == e.correlationId
    && prepared.input.data == e.data && prepared.input.sourceEventId == e.eventId
    && prepared.input.aggregateVersion == e.aggregateVersion && prepared.input.correlationId == e.correlationId
  }

  // The acknowledgement of the event with this result: its run is named by event, rule and input.
  predicate AckOf(ack: Acknowledgement, e: Impact.Recycled, result: Impact.ImpactResult) {
    && ack.sourceEventId == e.eventId && ack.sourceVersion == e.aggregateVersion && ack.result == result
    && ack.input.data == e.data && ack.input.sourceEventId == e.eventId
    && ack.input.aggregateVersion == e.aggregateVersion && ack.input.correlationId == e.correlationId
    && ack.runId.eventId == e.eventId && ack.runId.ruleVersion == "d3-v1" && ack.runId.input == ack.input
  }

  /** The worker acknowledges only the event's own preparation, with the evaluation of the event. */
  lemma WorkerAckMeans(prepared: Preparation, e: Impact.Recycled)
    ensures WorkerAck(prepared, e).Ok? <==> PreparedOf(prepared, e) && Impact.Acknowledgement(e.data).Ok?
    ensures WorkerAck(prepared, e).Ok? ==> AckOf(WorkerAck(prepared, e).value, e, Impact.Acknowledgement(e.data).value)
  {
  }

  // The batch stands where its event left it, or where its completion did.
  predicate StandsAt(c: Case, e: Impact.Recycled) {
    if c.status == Recycled then c.version == e.aggregateVersion
    else c.status == Completed && c.version == e.aggregateVersion + 1
  }

  // The first reason against preparing the event of the batch.
  function PrepareRefusal(db: Db, batchId: string, sourceEventId: string): Error {
    if batchId !in db.cases || db.cases[batchId].source.None? || db.cases[batchId].source.value.eventId != sourceEventId then NotFound
    else if db.cases[batchId].source.value.data.ruleVersion == "" then ValidationFailed
    else if db.cases[batchId].status in {Recycled, Completed} then StaleVersion
    else InvalidState
  }

  /** When a batch can be prepared, and what is refused otherwise. */
  lemma PrepareExactly(db: Db, batchId: string, sourceEventId: string)
    ensures match Prepare(db, batchId, sourceEventId)
            case Ok(prepared) =>
              && batchId in db.cases && db.cases[batchId].source.Some? && db.cases[batchId].source.value.eventId == sourceEventId
              && prepared.ruleVersion != "" && prepared.batchId == batchId
              && PreparedOf(prepared.(batchId := db.cases[batchId].source.value.batchId), db.cases[batchId].source.value)
              && StandsAt(db.cases[batchId], db.cases[batchId].source.value)
            case Err(e) =>
              && e == PrepareRefusal(db, batchId, sourceEventId)
              && (e == StaleVersion ==> !StandsAt(db.cases[batchId], db.cases[batchId].source.value))
  {
  }

  // check_completion, apart from the shape of the identifiers.
  predicate CheckCompletion(reply: Reply, e: Impact.Recycled, output: Impact.ImpactResult) {
    && reply.CompletionReply? && reply.batchId == e.batchId && reply.status == Completed
    && reply.version == e.aggregateVersion + 1 && reply.correlationId == e.correlationId
    && reply.result.metrics == output.metrics && reply.result.quality == output.quality
    && reply.result.anomalies == output.anomalies
  }

  // ---------------------------------------------------------------- every reply answers its request

  predicate AnswersAck(reply: Reply, r: Request) {
    r.Acknowledge? ==>
      && reply.CompletionReply? && reply.batchId == r.batchId && reply.status == Completed
      && reply.version as int == r.ack.sourceVersion + 1 && reply.result == r.ack.result
  }

  ghost predicate RepliesSound(db: Db) {
    forall x :: x in db.commands ==> AnswersAck(db.commands[x].reply, db.commands[x].request)
  }

  lemma AcknowledgeAnswers(p: Checks, db: Db, m: Meta, batchId: string, expected: int, ack: Acknowledgement, draw: Draw)
    requires (batchId in db.cases ==> CaseSound(db.cases[batchId])) && AcknowledgeStep(p, db, m, batchId, expected, ack, draw).Ok?
    ensures var effect := AcknowledgeStep(p, db, m, batchId, expected, ack, draw).value;
            && AnswersAck(effect.reply, Acknowledge(batchId, expected, ack))
            && effect.reply.correlationId == m.correlationId
  {
  }

  lemma CallAnswers(p: Checks, db: Db, m: Meta, r: Request, o: Oracle, draw: Draw)
    requires Inv(p, db) && RepliesSound(db)
    ensures var (after, answer) := Call(p, db, m, r, o, draw);
            && RepliesSound(after)
            && (answer.Ok? && r.Acknowledge? ==>
                  && AnswersAck(answer.value.reply, r)
                  && (KeyOf(m, r) !in db.commands ==> answer.value.reply.correlationId == m.correlationId))
  {
    var (after, answer) := Call(p, db, m, r, o, draw);
    CallCommands(p, db, m, r, o, draw);
    if KeyOf(m, r) !in db.commands && answer.Ok? && r.Acknowledge? {
      AcknowledgeAnswers(p, db, m, r.batchId, r.expected, r.ack, draw);
    }
    if after != db {
      forall x | x in after.commands ensures AnswersAck(after.commands[x].reply, after.commands[x].request) {
        if x != KeyOf(m, r) { OtherCommandsKept(p, db, m, r, o, draw, x); }
      }
    }
  }

  lemma OtherCommandsKept(p: Checks, db: Db, m: Meta, r: Request, o: Oracle, draw: Draw, x: CommandKey)
    requires Inv(p, db) && x != KeyOf(m, r) && x in Call(p, db, m, r, o, draw).0.commands
    ensures x in db.commands && Call(p, db, m, r, o, draw).0.commands[x] == db.commands[x]
  {
    if Call(p, db, m, r, o, draw).0 != db { ExecuteKeeps(p, db, m, r, o, draw); }
  }

  lemma {:induction false} RepliesHold(p: Checks, dbs: seq<Db>, actions: seq<Action>, k: nat)
    requires History(p, dbs, actions) && k < |dbs|
    ensures RepliesSound(dbs[k])
  {
    if k > 0 {
      RepliesHold(p, dbs, actions, k - 1);
      InvHolds(p, dbs, actions, k - 1);
      StepAt(p, dbs, actions, k - 1);
      match actions[k - 1]
      case Invoke(m, r, o, draw) => CallAnswers(p, dbs[k - 1], m, r, o, draw);
      case Match(batchId, decisionId, matched, rows) => MatchKeeps(p, dbs[k - 1], batchId, decisionId, matched, rows);
    }
  }

  // The position of the call that stored the key's command, or this one's while the key is unused.
  function Origin(dbs: seq<Db>, x: CommandKey, i: nat): (n: nat)
    requires i < |dbs|
    ensures n <= i
  {
    if i == 0 || x !in dbs[i].commands then i else Origin(dbs, x, i - 1)
  }

  // A stored acknowledgement carries the correlation id of the call that stored it.
  lemma {:induction false} StoredCorrelation(p: Checks, dbs: seq<Db>, actions: seq<Action>, k: nat, x: CommandKey)
    requires History(p, dbs, actions) && k < |dbs| && x in dbs[k].commands && dbs[k].commands[x].request.Acknowledge?
    ensures Origin(dbs, x, k) < k && Uses(actions, Origin(dbs, x, k), x)
    ensures dbs[k].commands[x].reply.CompletionReply?
    ensures dbs[k].commands[x].reply.correlationId == actions[Origin(dbs, x, k)].meta.correlationId
  {
    RepliesHold(p, dbs, actions, k);
    assert AnswersAck(dbs[k].commands[x].reply, dbs[k].commands[x].request);
    if x in dbs[k - 1].commands {
      CommandAt(p, dbs, actions, k - 1, x);
      StoredCorrelation(p, dbs, actions, k - 1, x);
    } else {
      StoredNow(p, dbs, actions, k - 1, x);
    }
  }

  lemma StoredNow(p: Checks, dbs: seq<Db>, actions: seq<Action>, k: nat, x: CommandKey)
    requires History(p, dbs, actions) && k < |actions| && x !in dbs[k].commands && x in dbs[k + 1].commands
    requires dbs[k + 1].commands[x].request.Acknowledge?
    ensures Uses(actions, k, x) && dbs[k + 1].commands[x].reply.CompletionReply?
    ensures dbs[k + 1].commands[x].reply.correlationId == actions[k].meta.correlationId
  {
    InvHolds(p, dbs, actions, k);
    RepliesHold(p, dbs, actions, k);
    StepAt(p, dbs, actions, k);
    match actions[k]
    case Match(batchId, decisionId, matched, rows) => MatchKeeps(p, dbs[k], batchId, decisionId, matched, rows);
    case Invoke(m, r, o, draw) =>
      if x != KeyOf(m, r) { OtherCommandsKept(p, dbs[k], m, r, o, draw, x); }
      CallCommands(p, dbs[k], m, r, o, draw);
      CallAnswers(p, dbs[k], m, r, o, draw);
  }

  /** Whatever is retried, duplicated or keyed anew: the worker's check accepts the reply to a successful
      acknowledgement exactly when the call that stored the command of its key, or this call while the
      key is unused, sent the event's correlation id. */
  lemma CompletionReplyPasses(p: Checks, dbs: seq<Db>, actions: seq<Action>, i: nat, e: Impact.Recycled)
    requires History(p, dbs, actions) && i < |actions| && actions[i].Invoke? && actions[i].request.Acknowledge?
    requires actions[i].request.batchId == e.batchId && actions[i].request.ack.sourceVersion == e.aggregateVersion
    requires AnswerAt(p, dbs, actions, i).Ok?
    ensures var n := Origin(dbs, KeyOf(actions[i].meta, actions[i].request), i);
            && Uses(actions, n, KeyOf(actions[i].meta, actions[i].request))
            && (CheckCompletion(AnswerAt(p, dbs, actions, i).value.reply, e, actions[i].request.ack.result) <==>
                actions[n].meta.correlationId == e.correlationId)
  {
    var x := KeyOf(actions[i].meta, actions[i].request);
    InvHolds(p, dbs, actions, i);
    RepliesHold(p, dbs, actions, i);
    CallAnswers(p, dbs[i], actions[i].meta, actions[i].request, actions[i].oracle, actions[i].draw);
    if x in dbs[i].commands { StoredCorrelation(p, dbs, actions, i, x); }
  }

  lemma {:induction false} OriginStays(p: Checks, dbs: seq<Db>, actions: seq<Action>, i: nat, j: nat, x: CommandKey)
    requires History(p, dbs, actions) && i < j < |dbs| && x !in dbs[i].commands && x in dbs[i + 1].commands
    ensures Origin(dbs, x, j) == i
    decreases j
  {
    CommandsStay(p, dbs, actions, i + 1, j, x);
    if i + 1 < j { OriginStays(p, dbs, actions, i, j - 1, x); }
  }

  /** Every admitted repetition of the acknowledgement that completed the batch gets a reply that passes
      the worker's check, exactly when that first call sent the event's correlation id. */
  lemma RepeatedReplyPasses(p: Checks, dbs: seq<Db>, actions: seq<Action>, i: nat, j: nat, x: CommandKey, e: Impact.Recycled)
    requires History(p, dbs, actions) && i < j && Uses(actions, i, x) && Uses(actions, j, x) && dbs[i + 1] != dbs[i]
    requires actions[i].request.Acknowledge? && actions[j].request == actions[i].request
    requires actions[i].request.batchId == e.batchId && actions[i].request.ack.sourceVersion == e.aggregateVersion
    requires Admitted(p, actions[j].request, actions[j].oracle)
    ensures AnswerAt(p, dbs, actions, j).Ok?
    ensures CheckCompletion(AnswerAt(p, dbs, actions, j).value.reply, e, actions[j].request.ack.result) <==>
            actions[i].meta.correlationId == e.correlationId
  {
    InvHolds(p, dbs, actions, i);
    StepAt(p, dbs, actions, i);
    CallCommands(p, dbs[i], actions[i].meta, actions[i].request, actions[i].oracle, actions[i].draw);
    KeptCommandReplays(p, dbs, actions, i + 1, j, x);
    OriginStays(p, dbs, actions, i, j, x);
    CompletionReplyPasses(p, dbs, actions, j, e);
  }

  // ---------------------------------------------------------------- every treatment completes

  // The validations of the real system.
  ghost predicate RealChecks(p: Checks) {
    && p.submittable == Intake.StoredValid && p.receivable == Intake.Receivable
    && p.normalize == Impact.NormalizedTreatment && p.accepts == Impact.GoAccepts
  }

  // Against the event it names, an acknowledgement passes exactly when its result is accepted.
  lemma GuardIsAcceptance(c: Case, ack: Acknowledgement, accepts: (Impact.EventData, Impact.ImpactResult) -> bool)
    requires CaseSound(c) && c.status == Recycled
    requires ack.sourceEventId == c.source.value.eventId && ack.sourceVersion == c.version
    requires ack.input == Impact.CanonicalInput(c.source.value)
    ensures AckGuard(c, c.version, ack, accepts).None? <==>
            ack.result.ruleVersion == c.source.value.data.ruleVersion && accepts(c.source.value.data, ack.result)
  {
  }

  // The one acknowledgement a treated batch accepts.
  ghost predicate OnlyAccepts(next: Case, accepts: (Impact.EventData, Impact.ImpactResult) -> bool, result: Impact.ImpactResult) {
    next.source.Some? &&
      forall ack: Acknowledgement ::
        ack.sourceEventId == next.source.value.eventId && ack.sourceVersion == next.version &&
        ack.input == Impact.CanonicalInput(next.source.value) ==>
          (AckGuard(next, next.version, ack, accepts).None? <==> ack.result == result)
  }

  // The figures of a treated batch are those of one of its own valid treatments.
  lemma EventAcknowledged(p: Checks, id: string, c: Case)
    requires RealChecks(p) && Figured(p, id, c) && c.source.Some?
    ensures var data := c.source.value.data;
            && (Impact.Acknowledgement(data).Ok? <==> data.ruleVersion == Impact.RULE_VERSION)
            && (data.ruleVersion == Impact.RULE_VERSION ==>
                  forall result :: Impact.GoAccepts(data, result) <==> result == Impact.Acknowledgement(data).value)
  {
    var request :| Treats(p, c, request);
    Impact.TreatmentEventAcknowledged(DeclaredOf(c), c.receipt.value.figures, request, c.source.value.data);
  }

  /** A batch that any history of the real system has taken to RECYCLED is evaluated by the worker exactly
      when its event froze the d3-v1 rule, and that acknowledgement, and no other result, then completes
      the batch. */
  lemma TreatmentCompletes(p: Checks, dbs: seq<Db>, actions: seq<Action>, k: nat, id: string)
    requires RealChecks(p) && History(p, dbs, actions) && k < |dbs| && id in dbs[k].cases
    requires dbs[k].cases[id].status == Recycled
    ensures var c := dbs[k].cases[id];
            && c.source.Some? && c.source.value.batchId == id && c.source.value.aggregateVersion == c.version
            && c.source.value.data.ruleVersion == p.ruleVersion
            && (Impact.Acknowledgement(c.source.value.data).Ok? <==> p.ruleVersion == Impact.RULE_VERSION)
            && (p.ruleVersion == Impact.RULE_VERSION ==>
                  OnlyAccepts(c, p.accepts, Impact.Acknowledgement(c.source.value.data).value))
  {
    var c := dbs[k].cases[id];
    InvHolds(p, dbs, actions, k);
    FiguresHold(p, dbs, actions, k);
    assert CaseSound(c) && Figured(p, id, c);
    EventAcknowledged(p, id, c);
    if p.ruleVersion == Impact.RULE_VERSION { AcceptsOnly(p, c); }
  }

  lemma AcceptsOnly(p: Checks, c: Case)
    requires CaseSound(c) && c.status == Recycled && p.accepts == Impact.GoAccepts
    requires c.source.value.data.ruleVersion == Impact.RULE_VERSION && Impact.Acknowledgement(c.source.value.data).Ok?
    requires forall result ::
               Impact.GoAccepts(c.source.value.data, result) <==> result == Impact.Acknowledgement(c.source.value.data).value
    ensures OnlyAccepts(c, p.accepts, Impact.Acknowledgement(c.source.value.data).value)
  {
    var e := c.source.value;
    forall ack: Acknowledgement |
      ack.sourceEventId == e.eventId && ack.sourceVersion == c.version && ack.input == Impact.CanonicalInput(e)
      ensures AckGuard(c, c.version, ack, p.accepts).None? <==> ack.result == Impact.Acknowledgement(e.data).value
    {
      GuardIsAcceptance(c, ack, p.accepts);
      assert Impact.GoAccepts(e.data, ack.result) <==> ack.result == Impact.Acknowledgement(e.data).value;
    }
  }
}
