/** The matching run protocol's store: freeze a snapshot, accept only its own recomputation. */
module MatchingStore {
  import opened Wrappers
  import opened Vocabulary
  import opened Snapshots
  import opened Evaluators

  // details is None while any matched column is still null.
  datatype BatchRow = BatchRow(status: BatchStatus, version: int, epoch: int, details: Option<Details>)

  datatype Event = Event(
    id: string, batchId: string, version: int, epoch: int, correlationId: string, occurredAt: int, details: Details)

  datatype OrgRow = OrgRow(id: string, isFacility: bool, isActive: bool)

  datatype RuleRow = RuleRow(rule: RuleSet, effectiveFrom: int, retiredAt: Option<int>)

  // The configuration tables in scan order; each row names its organisation.
  datatype Config = Config(
    organisations: seq<OrgRow>, rules: seq<RuleRow>, profiles: seq<(string, Profile)>,
    pools: seq<(string, Pool)>, capabilities: seq<(string, Capability)>, zones: seq<(string, Zone)>)

  datatype Request = Request(
    trigger: Trigger, batchId: string, batchVersion: int, epoch: int, correlationId: string, event: Option<Event>)

  datatype Disposition =
    | Committed(decisionId: string, epoch: int, outcome: Outcome, evaluatedCount: int, eligibleCount: int,
                batchStatus: BatchStatus, batchVersion: int)
    | Skipped

  datatype RunResult = RunResult(disposition: Disposition, runId: string, batchId: string, correlationId: string)

  // One command row with its document; digests are the digested values.
  datatype Run =
    | InProgress(key: string, request: Request, context: Snapshot, staleHash: Option<Canon>)
    | Finished(key: string, request: Request, lastContext: Option<Snapshot>, accepted: Option<Output>, result: RunResult)

  datatype Decision = Decision(
    id: string, runId: string, batchId: string, trigger: Trigger, batchVersion: int, epoch: int,
    snapshot: Snapshot, output: Output)

  datatype Db = Db(
    batches: map<string, BatchRow>, events: map<string, Event>, config: Config,
    runs: map<string, Run>, keys: map<string, string>, decisions: seq<Decision>)

  datatype Code =
    | InvalidContract | IdempotencyConflict | StaleContext | StateConflict | InvalidResult
    | UnsupportedRuleSet | Unavailable | NotFound
    | DataIntegrityError | LimitExceeded | Unauthenticated | Forbidden

  datatype Reply =
    | Prepared(runId: string, context: Snapshot)
    | Done(runId: string, result: RunResult, replay: bool)

  // Observation, validation and recomputation are parameters, so that the protocol is proved for
  // any three of them.
  datatype Rules = Rules(
    observe: (Config, BatchRow, string, int) -> Result<Canon, Code>,
    valid: Snapshot -> bool,
    recompute: Snapshot -> Option<Output>)

  // ---------------------------------------------------------------- snapshot

  predicate Effective(r: RuleRow, at: int) {
    r.effectiveFrom <= at && (r.retiredAt.None? || r.retiredAt.value > at)
  }

  function EffectiveRules(rows: seq<RuleRow>, at: int): seq<RuleSet> {
    if rows == [] then []
    else EffectiveRules(rows[..|rows| - 1], at) + if Effective(rows[|rows| - 1], at) then [rows[|rows| - 1].rule] else []
  }

  function Owned<T>(rows: seq<(string, T)>, id: string): seq<T> {
    if rows == [] then []
    else Owned(rows[..|rows| - 1], id) + if rows[|rows| - 1].0 == id then [rows[|rows| - 1].1] else []
  }

  function Assemble(c: Config, id: string): Organisation {
    var profiles := Owned(c.profiles, id);
    Organisation(id, if profiles == [] then None else Some(profiles[|profiles| - 1]),
                 Owned(c.capabilities, id), Owned(c.pools, id), Owned(c.zones, id))
  }

  predicate Approved?(r: OrgRow) { r.isFacility && r.isActive }

  function ActiveOrganisations(c: Config, rows: seq<OrgRow>): seq<Organisation> {
    if rows == [] then []
    else ActiveOrganisations(c, rows[..|rows| - 1]) +
         if Approved?(rows[|rows| - 1]) then [Assemble(c, rows[|rows| - 1].id)] else []
  }

  // Everything the snapshot freezes about the world, before validation.
  function Observed(c: Config, b: BatchRow, batchId: string, at: int): Result<Canon, Code> {
    if b.details.None? then Err(Unavailable)
    else if |EffectiveRules(c.rules, at)| != 1 then Err(UnsupportedRuleSet)
    else Ok(NormalContent(Canon(BatchInput(batchId, b.version, b.epoch, b.details.value),
                                EffectiveRules(c.rules, at)[0], at, ActiveOrganisations(c, c.organisations))))
  }

  const GO_RULES := Rules(Observed, GoValid, GoOutput)

  function Framed(content: Canon, req: Request, runId: string, decisionId: string, generation: int): Snapshot {
    Snapshot(runId, decisionId, generation, req.trigger, req.correlationId, content, content.organisations, content)
  }

  function Validated(rules: Rules, s: Snapshot): Result<Snapshot, Code> {
    if rules.valid(s) then Ok(s) else Err(Unavailable)
  }

  function Freeze(rules: Rules, c: Config, b: BatchRow, req: Request, runId: string, decisionId: string,
                  generation: int, at: int): Result<Snapshot, Code>
  {
    match rules.observe(c, b, req.batchId, at)
    case Err(e) => Err(e)
    case Ok(content) => Validated(rules, Framed(content, req, runId, decisionId, generation))
  }

  // ---------------------------------------------------------------- request checks

  // RequestSubmitted.v1 data; unlike a snapshot it lets an organisation id hold spaces.
  predicate EventDetails(d: Details) {
    && 1 <= |d.organizationId| <= 32 && (forall i :: 0 <= i < |d.organizationId| ==> ' ' <= d.organizationId[i] <= '~')
    && IsInstant(d.submittedAt) && IsInstant(d.deadline)
    && d.category in CATEGORIES && d.condition in CONDITIONS && d.zone in ZONES
    && 1 <= d.quantity <= 100000 && MoneyField(d.weightKg, 6) && GoWeight(d)
  }

  predicate ValidEvent(e: Event) {
    && 1 <= e.version <= MAX_UINT32 && 1 <= e.epoch <= MAX_UINT64 && 1 <= |e.correlationId| <= 128
    && EventDetails(e.details)
    && e.occurredAt == e.details.submittedAt && GoWindow(e.details)
  }

  function KeyOf(t: Trigger): string {
    (match t.kind case RequestSubmitted => "REQUEST_SUBMITTED:" case ExplicitRun => "EXPLICIT_RUN:") + t.id
  }

  predicate RestatesEvent(req: Request, e: Event) {
    && e.id == req.trigger.id && e.batchId == req.batchId && e.version == req.batchVersion
    && e.epoch == req.epoch && e.correlationId == req.correlationId
  }

  // validatePrepare.
  predicate ValidPrepare(req: Request, key: string) {
    && 1 <= req.batchVersion <= MAX_UINT32 && 1 <= req.epoch <= MAX_UINT64 && 1 <= |req.correlationId| <= 128
    && key == KeyOf(req.trigger)
    && match req.trigger.kind
       case RequestSubmitted => req.event.Some? && ValidEvent(req.event.value) && RestatesEvent(req, req.event.value)
       case ExplicitRun => req.event.None?
  }

  predicate StateMatches(b: BatchRow, req: Request) {
    b.status == Submitted && b.version == req.batchVersion && b.epoch == req.epoch
  }

  // The stored outbox row of the submission, byte for byte what the caller presents.
  predicate EventKnown(db: Db, req: Request) {
    req.trigger.id in db.events && req.event == Some(db.events[req.trigger.id]) &&
    db.events[req.trigger.id].batchId == req.batchId
  }

  // ---------------------------------------------------------------- the four calls

  function RunReply(id: string, run: Run, replay: bool): Reply {
    match run
    case InProgress(_, _, context, _) => Prepared(id, context)
    case Finished(_, _, _, _, result) => Done(id, result, replay)
  }

  function SkippedResult(id: string, req: Request): RunResult { RunResult(Skipped, id, req.batchId, req.correlationId) }

  function Store(db: Db, id: string, run: Run): Db {
    db.(runs := db.runs[id := run], keys := db.keys[run.key := id])
  }

  function Skip(db: Db, id: string, key: string, req: Request, context: Option<Snapshot>): Db {
    Store(db, id, Finished(key, req, context, None, SkippedResult(id, req)))
  }

  // A fresh run on a found batch. runId and decisionId are the identifiers drawn by the transaction.
  function CreateRun(rules: Rules, db: Db, req: Request, key: string, runId: string, decisionId: string, now: int)
    : (Db, Result<(Reply, bool), Code>)
    requires req.batchId in db.batches
  {
    var b := db.batches[req.batchId];
    if runId in db.runs then (db, Err(Unavailable))
    else if !StateMatches(b, req) then
      var after := Skip(db, runId, key, req, None);
      (after, Ok((RunReply(runId, after.runs[runId], false), true)))
    else
      match Freeze(rules, db.config, b, req, runId, decisionId, 1, now)
      case Err(e) => (db, Err(e))
      case Ok(s) =>
        if req.trigger.kind == RequestSubmitted && req.event.Some? && req.event.value.details != s.content.batch.details
        then (db, Err(InvalidContract))
        else (Store(db, runId, InProgress(key, req, s, None)), Ok((Prepared(runId, s), true)))
  }

  function PrepareStep(rules: Rules, db: Db, req: Request, key: string, runId: string, decisionId: string, now: int)
    : (Db, Result<(Reply, bool), Code>)
  {
    if !ValidPrepare(req, key) then (db, Err(InvalidContract))
    else if key in db.keys && db.keys[key] in db.runs then
      var id := db.keys[key];
      if db.runs[id].request != req then (db, Err(IdempotencyConflict))
      else (db, Ok((RunReply(id, db.runs[id], true), false)))
    else if req.batchId !in db.batches then
      (db, Err(if req.trigger.kind == RequestSubmitted then InvalidContract else NotFound))
    else if req.trigger.kind == RequestSubmitted && !EventKnown(db, req) then (db, Err(InvalidContract))
    else CreateRun(rules, db, req, key, runId, decisionId, now)
  }

  function GetStep(db: Db, id: string): Result<Reply, Code> {
    if id !in db.runs then Err(NotFound) else Ok(RunReply(id, db.runs[id], true))
  }

  // The stale mark is set for the expected context: freeze the next generation.
  function Refreeze(rules: Rules, db: Db, id: string, run: Run, now: int): (Db, Result<Reply, Code>)
    requires run.InProgress? && run.request.batchId in db.batches
  {
    match Freeze(rules, db.config, db.batches[run.request.batchId], run.request, id, run.context.decisionId,
                 run.context.generation + 1, now)
    case Err(e) => (db, Err(e))
    case Ok(s) => (Store(db, id, InProgress(run.key, run.request, s, None)), Ok(Prepared(id, s)))
  }

  function RefreshStep(rules: Rules, db: Db, id: string, expected: Canon, now: int): (Db, Result<Reply, Code>) {
    if id !in db.runs then (db, Err(NotFound))
    else match db.runs[id]
      case Finished(_, _, _, _, _) => (db, Ok(RunReply(id, db.runs[id], true)))
      case InProgress(key, req, context, staleHash) =>
        if context.inputHash != expected then (db, Err(StaleContext))
        else if req.batchId !in db.batches then (db, Err(NotFound))
        else if !StateMatches(db.batches[req.batchId], req) then
          (Skip(db, id, key, req, Some(context)), Ok(Done(id, SkippedResult(id, req), false)))
        else if staleHash != Some(expected) then (db, Err(StateConflict))
        else Refreeze(rules, db, id, db.runs[id], now)
  }

  predicate SchemaOutput(o: Output) {
    1 <= o.generation <= MAX_UINT32 && 0 <= o.evaluatedCount <= MAX_UINT32 && 0 <= o.eligibleCount <= MAX_UINT32
  }

  predicate DecisionTaken(db: Db, d: Decision) {
    exists i :: 0 <= i < |db.decisions| && (db.decisions[i].id == d.id || db.decisions[i].trigger == d.trigger)
  }

  // persistResult: the decision row, then the batch when the outcome is MATCHED.
  function Persist(db: Db, d: Decision): Result<Db, Code>
    requires d.batchId in db.batches
  {
    var b := db.batches[d.batchId];
    if DecisionTaken(db, d) then Err(Unavailable)
    else if d.output.outcome == NoMatch then Ok(db.(decisions := db.decisions + [d]))
    else if b.version == MAX_UINT32 then Err(InvalidResult)
    else Ok(db.(decisions := db.decisions + [d],
                batches := db.batches[d.batchId := b.(status := MatchedBatch, version := b.version + 1)]))
  }

  function CommittedResult(id: string, req: Request, s: Snapshot, o: Output, b: BatchRow): RunResult {
    RunResult(Committed(s.decisionId, req.epoch, o.outcome, o.evaluatedCount, o.eligibleCount, b.status, b.version),
              id, req.batchId, req.correlationId)
  }

  function DecisionOf(id: string, req: Request, b: BatchRow, context: Snapshot, output: Output): Decision {
    Decision(context.decisionId, id, req.batchId, req.trigger, b.version, b.epoch, context, output)
  }

  // The context is current and the output is the recomputation: persist and complete the run.
  function Conclude(db: Db, id: string, key: string, req: Request, context: Snapshot, output: Output)
    : (Db, Result<(RunResult, bool), Code>)
    requires req.batchId in db.batches
  {
    match Persist(db, DecisionOf(id, req, db.batches[req.batchId], context, output))
    case Err(e) => (db, Err(e))
    case Ok(after) =>
      var result := CommittedResult(id, req, context, output, after.batches[req.batchId]);
      (Store(after, id, Finished(key, req, Some(context), Some(output), result)), Ok((result, false)))
  }

  // The recheck against a fresh snapshot. The stale mark is kept although the call fails.
  function Recheck(rules: Rules, db: Db, id: string, run: Run, output: Output): (Db, Result<(RunResult, bool), Code>)
    requires run.InProgress? && run.request.batchId in db.batches
  {
    match Freeze(rules, db.config, db.batches[run.request.batchId], run.request, id, run.context.decisionId,
                 run.context.generation, run.context.content.evaluationAt)
    case Err(e) => (db, Err(e))
    case Ok(current) =>
      if current.inputHash != run.context.inputHash then
        (Store(db, id, run.(staleHash := Some(run.context.inputHash))), Err(StaleContext))
      else Conclude(db, id, run.key, run.request, run.context, output)
  }

  function CommitStep(rules: Rules, db: Db, id: string, output: Output): (Db, Result<(RunResult, bool), Code>) {
    if output.runId != id || !SchemaOutput(output) then (db, Err(InvalidResult))
    else if id !in db.runs then (db, Err(NotFound))
    else match db.runs[id]
      case Finished(_, _, _, accepted, result) =>
        if result.disposition.Committed? && accepted != Some(output) then (db, Err(IdempotencyConflict))
        else (db, Ok((result, true)))
      case InProgress(key, req, context, _) =>
        if output.inputHash != context.inputHash || output.generation != context.generation then (db, Err(StaleContext))
        else if rules.recompute(context).None? then (db, Err(InvalidContract))
        else if output != rules.recompute(context).value then (db, Err(InvalidResult))
        else if req.batchId !in db.batches then (db, Err(NotFound))
        else if !StateMatches(db.batches[req.batchId], req) then
          (Skip(db, id, key, req, Some(context)), Ok((SkippedResult(id, req), false)))
        else Recheck(rules, db, id, db.runs[id], output)
  }
}
