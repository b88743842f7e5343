/** Once calls succeed and the configuration is stable and valid, one worker with a refresh left ends
    its delivery. */
module WorkerProgress {
  import opened Wrappers
  import opened Vocabulary
  import opened Evaluators
  import opened MatchingStore
  import opened StoreRuns
  import opened MatchingWorker
  import opened WorkerRuns

  // While the batch is still the requested one, a snapshot can be frozen at each of these instants.
  ghost predicate Steady(rules: Rules, db: Db, req: Request, instants: iset<int>) {
    forall runId, decisionId, generation, at ::
      at in instants && 1 <= generation <= MAX_UINT32 && req.batchId in db.batches && StateMatches(db.batches[req.batchId], req) ==>
        Freeze(rules, db.config, db.batches[req.batchId], req, runId, decisionId, generation, at).Ok?
  }

  predicate DecisionIdFree(db: Db, id: string) { forall i :: 0 <= i < |db.decisions| ==> db.decisions[i].id != id }

  // The event's run, if it is in progress, was frozen at such an instant and can still commit.
  ghost predicate CalmRun(db: Db, e: Event, instants: iset<int>) {
    KeyOfEvent(e) in db.keys && db.keys[KeyOfEvent(e)] in db.runs && db.runs[db.keys[KeyOfEvent(e)]].InProgress? ==>
      var c := db.runs[db.keys[KeyOfEvent(e)]].context;
      c.content.evaluationAt in instants && DecisionIdFree(db, c.decisionId)
  }

  // The event's run, if it is in progress, has a generation left.
  predicate Room(db: Db, d: Delivery) {
    d.record.Submission? && KeyOfEvent(d.record.event) in db.keys && db.keys[KeyOfEvent(d.record.event)] in db.runs &&
    db.runs[db.keys[KeyOfEvent(d.record.event)]].InProgress? ==>
      db.runs[db.keys[KeyOfEvent(d.record.event)]].context.generation < MAX_UINT32
  }

  ghost predicate Calm(rules: Rules, s: Settings, db: Db, d: Delivery, instants: iset<int>) {
    && Fit(rules, s) && Joint(rules, s, db, d)
    && (d.record.Submission? ==>
          Steady(rules, db, RequestOf(d.record.event), instants) && CalmRun(db, d.record.event, instants))
  }

  // Identifiers are drawn fresh, the clock reads one of the instants.
  ghost predicate GoodDraw(db: Db, draw: Draw, instants: iset<int>) {
    draw.runId !in db.runs && DecisionIdFree(db, draw.decisionId) && draw.now in instants
  }

  // The held context is the run's own and is what the store would freeze now.
  predicate Settled(rules: Rules, db: Db, d: Delivery) {
    && d.runId.Some? && d.runId.value in db.runs && d.context.Some? && !d.refreshAllowed
    && (db.runs[d.runId.value].InProgress? && db.runs[d.runId.value].request.batchId in db.batches &&
        StateMatches(db.batches[db.runs[d.runId.value].request.batchId], db.runs[d.runId.value].request) ==>
          var c := d.context.value;
          Refrozen(rules, db, d.runId.value, c.generation, c.content.evaluationAt) == Ok(c))
  }

  // A refresh whose reply was lost has already moved the run on.
  predicate Ahead(db: Db, d: Delivery) {
    d.refreshAllowed && d.runId.Some? && d.runId.value in db.runs && db.runs[d.runId.value].InProgress? &&
    Some(db.runs[d.runId.value].context) != d.context
  }

  predicate RefreshLeft(rules: Rules, s: Settings, db: Db, d: Delivery) {
    (d.refreshes + (if Ahead(db, d) then 1 else 0) < s.maxRefreshes && Room(db, d)) || Settled(rules, db, d)
  }

  function Rank(d: Delivery): nat {
    match d.stage
    case ValidateEvent => 8
    case PrepareStage => 7
    case ResolveStage => if d.pendingRejection.Some? then 2 else 6
    case EvaluateStage => 5
    case CommitStage => 4
    case RefreshStage => 3
    case QuarantineStage => 1
    case DoneStage => 0
  }

  // One refresh may still be needed until the context is settled.
  function Measure(rules: Rules, db: Db, d: Delivery): nat { Rank(d) + if Settled(rules, db, d) then 0 else 9 }

  ghost predicate Progress(rules: Rules, s: Settings, d: Delivery, before: nat, db: Db, out: MatchingWorker.Outcome,
                           instants: iset<int>)
  {
    && Calm(rules, s, db, out.delivery, instants) && RefreshLeft(rules, s, db, out.delivery)
    && Measure(rules, db, out.delivery) < before
  }

  // ---------------------------------------------------------------- stages without the store

  lemma LocalProgress(rules: Rules, s: Settings, db: Db, d: Delivery, instants: iset<int>)
    requires Calm(rules, s, db, d, instants) && RefreshLeft(rules, s, db, d)
    requires d.stage in {ValidateEvent, EvaluateStage, QuarantineStage}
    ensures Progress(rules, s, d, Measure(rules, db, d), db, Step(s, d, Published), instants)
  {
    LocalHolds(rules, s, db, d, Published);
    SameHold(rules, s, db, d, Step(s, d, Published).delivery);
  }

  // A delivery that still holds the same is as far from settled as before.
  lemma SameHold(rules: Rules, s: Settings, db: Db, d: Delivery, after: Delivery)
    requires after.runId == d.runId && after.context == d.context && after.refreshAllowed == d.refreshAllowed
    requires after.refreshes == d.refreshes && after.record == d.record
    ensures Settled(rules, db, after) == Settled(rules, db, d) && Ahead(db, after) == Ahead(db, d)
    ensures RefreshLeft(rules, s, db, after) == RefreshLeft(rules, s, db, d)
  {
  }

  // ---------------------------------------------------------------- resolve

  // How a resolving delivery takes its run, as the store has it.
  predicate Resolved(d: Delivery, run: Run, next: Delivery) {
    && next.runId == d.runId && next.record == d.record
    && (run.Finished? ==> next.stage == DoneStage)
    && (run.Finished? || d.pendingRejection.Some? || (d.refreshAllowed && d.context == Some(run.context)) ==>
          && next.context == d.context && next.refreshAllowed == d.refreshAllowed && next.refreshes == d.refreshes
          && next.stage in {QuarantineStage, DoneStage, if d.pendingRejection.None? then RefreshStage else DoneStage})
    && (run.InProgress? && d.pendingRejection.None? && !(d.refreshAllowed && d.context == Some(run.context)) ==>
          && next.stage in {EvaluateStage, CommitStage} && next.context == Some(run.context) && !next.refreshAllowed
          && next.refreshes == d.refreshes + if d.refreshAllowed then 1 else 0)
  }

  lemma ResolveMoves(rules: Rules, s: Settings, id: string, run: Run, d: Delivery)
    requires Fit(rules, s) && RunSound(rules, id, run) && Ready(s.python, id, run, d) && PySubmission(d.event.value)
    requires Consistent(d) && d.stage == ResolveStage && d.runId == Some(id)
    ensures Resolved(d, run, Step(s, d, Run(RunReply(id, run, true))).delivery)
  {
    var output := if d.refreshAllowed then None else d.output;
    if RunCommitted(run) && d.output.Some? { OutputNamesContext(s, id, run, d); }
    ReplyPasses(rules, s, id, run, d.event.value, d.runId, output, true);
  }

  lemma ResolvedProgress(rules: Rules, s: Settings, db: Db, d: Delivery, next: Delivery, instants: iset<int>)
    requires Calm(rules, s, db, d, instants) && RefreshLeft(rules, s, db, d) && d.stage == ResolveStage
    requires Joint(rules, s, db, next) && Resolved(d, db.runs[d.runId.value], next)
    ensures Calm(rules, s, db, next, instants) && RefreshLeft(rules, s, db, next)
    ensures Measure(rules, db, next) < Measure(rules, db, d)
  {
    if next.context == d.context && next.refreshAllowed == d.refreshAllowed { SameHold(rules, s, db, d, next); }
  }

  lemma ResolveProgress(rules: Rules, s: Settings, db: Db, d: Delivery, draw: Draw, instants: iset<int>)
    requires Calm(rules, s, db, d, instants) && RefreshLeft(rules, s, db, d) && d.stage == ResolveStage
    ensures var (after, answer) := Serve(rules, db, d, draw);
            Progress(rules, s, d, Measure(rules, db, d), after, Step(s, d, answer), instants)
  {
    var id := d.runId.value;
    ResolveHolds(rules, s, db, d, draw, None);
    assert RunSound(rules, id, db.runs[id]);
    ResolveMoves(rules, s, id, db.runs[id], d);
    ResolvedProgress(rules, s, db, d, Step(s, d, Run(RunReply(id, db.runs[id], true))).delivery, instants);
  }

  // ---------------------------------------------------------------- prepare

  // A run created now.
  lemma CreateServed(rules: Rules, db: Db, e: Event, draw: Draw, instants: iset<int>)
    requires Faithful(rules) && e.batchId in db.batches && KeyOfEvent(e) !in db.keys
    requires Steady(rules, db, RequestOf(e), instants) && GoodDraw(db, draw, instants)
    ensures var (after, r) := CreateRun(rules, db, RequestOf(e), KeyOfEvent(e), draw.runId, draw.decisionId, draw.now);
            && after.config == db.config && after.batches == db.batches && after.decisions == db.decisions
            && CalmRun(after, e, instants)
            && (KeyOfEvent(e) in after.keys && after.keys[KeyOfEvent(e)] in after.runs &&
                after.runs[after.keys[KeyOfEvent(e)]].InProgress? ==>
                  after.runs[after.keys[KeyOfEvent(e)]].context.generation == 1)
            && (r.Err? ==> r.error == InvalidContract)
  {
    if StateMatches(db.batches[e.batchId], RequestOf(e)) {
      assert Freeze(rules, db.config, db.batches[e.batchId], RequestOf(e), draw.runId, draw.decisionId, 1, draw.now).Ok?;
    }
  }

  lemma PrepareServed(rules: Rules, s: Settings, db: Db, d: Delivery, draw: Draw, instants: iset<int>)
    requires Calm(rules, s, db, d, instants) && d.stage == PrepareStage && GoodDraw(db, draw, instants)
    ensures var e := d.event.value;
            var (after, r) := PrepareStep(rules, db, RequestOf(e), KeyOfEvent(e), draw.runId, draw.decisionId, draw.now);
            && after.config == db.config && after.batches == db.batches && after.decisions == db.decisions
            && CalmRun(after, e, instants) && (Room(db, d) ==> Room(after, d))
            && (r.Err? ==> r.error in {InvalidContract, IdempotencyConflict})
  {
    var e := d.event.value;
    if KeyOfEvent(e) in db.keys {
      assert db.runs[db.keys[KeyOfEvent(e)]].key == KeyOfEvent(e);
    } else if e.batchId in db.batches {
      CreateServed(rules, db, e, draw, instants);
    }
  }

  // A prepared delivery either knows its run, or is on its way to quarantine.
  lemma PrepareMoves(rules: Rules, s: Settings, db: Db, d: Delivery, answer: Answer, id: string)
    requires Fit(rules, s) && Ignorant(d) && Consistent(d) && d.stage == PrepareStage && d.runId.None?
    requires answer.Run? || (answer.Refused? && answer.durable.None? && Terminal(answer.status, answer.code))
    requires answer.Run? ==>
               && id in db.runs && answer.reply.runId == id && PySubmission(d.event.value)
               && RunSound(rules, id, db.runs[id]) && db.runs[id].request == RequestOf(d.event.value)
               && exists replay :: answer.reply == RunReply(id, db.runs[id], replay)
    ensures var after := Step(s, d, answer).delivery;
            && after.stage in {EvaluateStage, QuarantineStage, DoneStage} && !after.refreshAllowed
            && after.refreshes == d.refreshes && after.record == d.record
  {
    if answer.Run? {
      var replay :| answer.reply == RunReply(id, db.runs[id], replay);
      ReplyPasses(rules, s, id, db.runs[id], d.event.value, None, None, replay);
    }
  }

  lemma PreparedProgress(rules: Rules, s: Settings, db: Db, d: Delivery, after: Db, next: Delivery, instants: iset<int>)
    requires Calm(rules, s, db, d, instants) && RefreshLeft(rules, s, db, d) && d.stage == PrepareStage
    requires Joint(rules, s, after, next) && after.config == db.config && after.batches == db.batches
    requires CalmRun(after, d.event.value, instants) && (Room(db, d) ==> Room(after, d))
    requires next.stage in {EvaluateStage, QuarantineStage, DoneStage} && !next.refreshAllowed
    requires next.refreshes == d.refreshes && next.record == d.record
    ensures Calm(rules, s, after, next, instants) && RefreshLeft(rules, s, after, next)
    ensures Measure(rules, after, next) < Measure(rules, db, d)
  {
  }

  lemma PrepareProgress(rules: Rules, s: Settings, db: Db, d: Delivery, draw: Draw, instants: iset<int>)
    requires Calm(rules, s, db, d, instants) && RefreshLeft(rules, s, db, d) && d.stage == PrepareStage
    requires GoodDraw(db, draw, instants)
    ensures var (after, answer) := Serve(rules, db, d, draw);
            Progress(rules, s, d, Measure(rules, db, d), after, Step(s, d, answer), instants)
  {
    var e := d.event.value;
    var (after, answer) := Serve(rules, db, d, draw);
    PrepareHolds(rules, s, db, d, draw, None);
    PrepareServed(rules, s, db, d, draw, instants);
    PrepareAnswers(rules, db, e, draw);
    assert Inv(rules, after);
    var id := if answer.Run? then answer.reply.runId else "";
    if answer.Run? { assert RunSound(rules, id, after.runs[id]); }
    PrepareMoves(rules, s, after, d, answer, id);
    PreparedProgress(rules, s, db, d, after, Step(s, d, answer).delivery, instants);
  }

  // ---------------------------------------------------------------- commit

  // The trigger and the decision id of a run in progress are still free.
  lemma DecisionFree(rules: Rules, db: Db, id: string, d: Decision)
    requires Inv(rules, db) && id in db.runs && db.runs[id].InProgress?
    requires d.trigger == db.runs[id].request.trigger && DecisionIdFree(db, d.id)
    ensures !DecisionTaken(db, d)
  {
    forall i | 0 <= i < |db.decisions| ensures db.decisions[i].trigger != d.trigger {
      var c := db.decisions[i];
      assert DecisionSound(db, c);
      assert RunSound(rules, c.runId, db.runs[c.runId]) && RunPlaced(db, c.runId, db.runs[c.runId]);
      assert RunSound(rules, id, db.runs[id]) && RunPlaced(db, id, db.runs[id]);
    }
  }

  lemma RecheckServed(rules: Rules, s: Settings, db: Db, d: Delivery, instants: iset<int>)
    requires Calm(rules, s, db, d, instants) && d.stage == CommitStage && db.runs[d.runId.value].InProgress?
    requires var run := db.runs[d.runId.value];
             && run.request.batchId in db.batches && StateMatches(db.batches[run.request.batchId], run.request)
             && run.context.generation <= MAX_UINT32
    ensures var id := d.runId.value;
            var run := db.runs[id];
            var (after, r) := Recheck(rules, db, id, run, d.output.value);
            match r
            case Ok(_) => after.runs[id].Finished?
            case Err(StaleContext) => !Settled(rules, db, d) && after == Store(db, id, run.(staleHash := Some(run.context.inputHash)))
            case Err(code) => after == db && code == InvalidResult
  {
    var id := d.runId.value;
    var run := db.runs[id];
    assert RunSound(rules, id, run) && RunPlaced(db, id, run);
    var frozen := Refrozen(rules, db, id, run.context.generation, run.context.content.evaluationAt);
    assert frozen.Ok?;
    DecisionFree(rules, db, id, DecisionOf(id, run.request, db.batches[run.request.batchId], run.context, d.output.value));
  }

  // What a commit leaves in calm times: a finished run, a stale mark on a context that was not
  // settled, or a refusal that will not be retried.
  predicate CommitCalm(rules: Rules, db: Db, d: Delivery, id: string, after: Db, r: Result<(RunResult, bool), Code>)
    requires id in db.runs && id in after.runs
  {
    && after.config == db.config && after.keys == db.keys
    && match r
       case Ok(_) => after.runs[id].Finished?
       case Err(StaleContext) =>
         && !Settled(rules, db, d) && after.batches == db.batches && after.decisions == db.decisions
         && db.runs[id].InProgress? && after.runs[id] == db.runs[id].(staleHash := Some(db.runs[id].context.inputHash))
       case Err(code) => after == db && code in {InvalidContract, InvalidResult, IdempotencyConflict}
  }

  lemma StoredKeys(rules: Rules, db: Db, id: string, run: Run)
    requires Inv(rules, db) && id in db.runs && run.key == db.runs[id].key
    ensures Store(db, id, run).keys == db.keys
  {
    assert RunPlaced(db, id, db.runs[id]);
  }

  lemma CommitServed(rules: Rules, s: Settings, db: Db, d: Delivery, instants: iset<int>)
    requires Calm(rules, s, db, d, instants) && d.stage == CommitStage
    ensures var id := d.runId.value;
            var (after, r) := CommitStep(rules, db, id, d.output.value);
            id in after.runs && CommitCalm(rules, db, d, id, after, r)
  {
    var id := d.runId.value;
    var run := db.runs[id];
    assert RunSound(rules, id, run) && RunPlaced(db, id, run);
    if run.InProgress? {
      assert s.python.evaluate(d.context.value) == d.output;
      CommitBranches(rules, db, id, d.output.value);
      StoredKeys(rules, db, id, Finished(run.key, run.request, Some(run.context), None, SkippedResult(id, run.request)));
      if SchemaOutput(d.output.value) && StateMatches(db.batches[run.request.batchId], run.request) {
        RecheckServed(rules, s, db, d, instants);
        RecheckKeeps(rules, db, id, run, d.output.value);
      }
    }
  }

  lemma RecheckKeeps(rules: Rules, db: Db, id: string, run: Run, output: Output)
    requires Inv(rules, db) && id in db.runs && run == db.runs[id] && run.InProgress? && run.request.batchId in db.batches
    ensures var after := Recheck(rules, db, id, run, output).0; after.config == db.config && after.keys == db.keys
  {
    assert RunPlaced(db, id, run);
    assert db.keys == db.keys[run.key := id];
  }

  // The run a delivery knows is the run of its event's key.
  lemma KnownRun(rules: Rules, s: Settings, db: Db, d: Delivery)
    requires Joint(rules, s, db, d) && d.runId.Some?
    ensures d.record == Submission(d.event.value) && KeyOfEvent(d.event.value) in db.keys
    ensures db.keys[KeyOfEvent(d.event.value)] == d.runId.value
  {
    assert RunPlaced(db, d.runId.value, db.runs[d.runId.value]);
  }

  // A batch a commit has moved on no longer fits the request.
  lemma SteadyAfterCommit(rules: Rules, db: Db, d: Delivery, id: string, output: Output, instants: iset<int>)
    requires Inv(rules, db) && id in db.runs && Steady(rules, db, db.runs[id].request, instants)
    ensures Steady(rules, CommitStep(rules, db, id, output).0, db.runs[id].request, instants)
  {
    var after := CommitStep(rules, db, id, output).0;
    CommitEffect(rules, db, id, output);
    if Decided(rules, db, id, output, after) {
      DecidedEffect(rules, db, id, output, after);
      assert after.config == db.config;
      if output.outcome == NoMatch { assert after.batches == db.batches; }
    }
  }

  // Settledness looks only at the run, its batch row and the configuration.
  lemma SettledSame(rules: Rules, db: Db, d: Delivery, after: Db, next: Delivery)
    requires d.runId.Some? && d.runId == next.runId && d.context == next.context && d.refreshAllowed == next.refreshAllowed
    requires d.runId.value in db.runs && d.runId.value in after.runs
    requires Settled(rules, db, d) && (after == db || after.runs[d.runId.value].Finished?)
    ensures Settled(rules, after, next)
  {
  }

  // How a committing delivery takes its answer.
  predicate Committed(d: Delivery, r: Result<(RunResult, bool), Code>, next: Delivery) {
    && next.runId == d.runId && next.context == d.context && next.refreshes == d.refreshes && next.record == d.record
    && (r.Ok? ==> next.stage == DoneStage && next.refreshAllowed == d.refreshAllowed)
    && (r == Err(StaleContext) ==> next.stage == RefreshStage && next.refreshAllowed)
    && (r.Err? && r.error != StaleContext ==>
          next.stage == ResolveStage && next.pendingRejection.Some? && next.refreshAllowed == d.refreshAllowed)
  }

  // The delivery after a commit in calm times.
  lemma CommitNext(rules: Rules, s: Settings, db: Db, d: Delivery, id: string, after: Db,
                   r: Result<(RunResult, bool), Code>, answer: Answer)
    requires Consistent(d) && d.stage == CommitStage && d.runId == Some(id) && id in db.runs && id in after.runs
    requires CommitCalm(rules, db, d, id, after, r)
    requires answer == match r case Ok((result, replay)) => Result(result, replay) case Err(code) => Refusal(code)
    requires r.Ok? ==> CheckResult(r.value.0, d.event.value, id, d.output).Some?
    ensures Committed(d, r, Step(s, d, answer).delivery)
  {
  }

  lemma CommittedProgress(rules: Rules, s: Settings, db: Db, d: Delivery, id: string, after: Db, next: Delivery,
                          r: Result<(RunResult, bool), Code>, instants: iset<int>)
    requires Calm(rules, s, db, d, instants) && RefreshLeft(rules, s, db, d) && d.stage == CommitStage && d.runId == Some(id)
    requires Joint(rules, s, after, next) && id in after.runs && CommitCalm(rules, db, d, id, after, r)
    requires Steady(rules, after, db.runs[id].request, instants) && Committed(d, r, next)
    ensures Calm(rules, s, after, next, instants) && RefreshLeft(rules, s, after, next)
    ensures Measure(rules, after, next) < Measure(rules, db, d)
  {
    KnownRun(rules, s, db, d);
    if Settled(rules, db, d) && (after == db || after.runs[id].Finished?) { SettledSame(rules, db, d, after, next); }
  }

  lemma CommitProgress(rules: Rules, s: Settings, db: Db, d: Delivery, draw: Draw, instants: iset<int>)
    requires Calm(rules, s, db, d, instants) && RefreshLeft(rules, s, db, d) && d.stage == CommitStage
    ensures var (after, answer) := Serve(rules, db, d, draw);
            Progress(rules, s, d, Measure(rules, db, d), after, Step(s, d, answer), instants)
  {
    var id := d.runId.value;
    var (after, r) := CommitStep(rules, db, id, d.output.value);
    var answer := Serve(rules, db, d, draw).1;
    CommitHolds(rules, s, db, d, draw, None);
    CommitServed(rules, s, db, d, instants);
    KnownRun(rules, s, db, d);
    SteadyAfterCommit(rules, db, d, id, d.output.value, instants);
    CommitNext(rules, s, db, d, id, after, r, answer);
    CommittedProgress(rules, s, db, d, id, after, Step(s, d, answer).delivery, r, instants);
  }

  // ---------------------------------------------------------------- refresh

  // What a refresh of the current context leaves in calm times.
  predicate RefreshCalm(rules: Rules, db: Db, id: string, after: Db, r: Result<Reply, Code>, instants: iset<int>)
    requires id in db.runs && id in after.runs
  {
    && after.config == db.config && after.batches == db.batches && after.decisions == db.decisions && after.keys == db.keys
    && r.Ok?
    && (after.runs[id].Finished? ||
        (&& db.runs[id].InProgress? && after.runs[id].InProgress? && after.runs[id].request == db.runs[id].request
         && after.runs[id].context.content.evaluationAt in instants
         && after.runs[id].context.decisionId == db.runs[id].context.decisionId
         && after.runs[id].context.generation == db.runs[id].context.generation + 1
         && after.runs[id].request.batchId in after.batches
         && Refrozen(rules, after, id, after.runs[id].context.generation, after.runs[id].context.content.evaluationAt) ==
              Ok(after.runs[id].context)))
  }

  lemma RefreezeServed(rules: Rules, s: Settings, db: Db, d: Delivery, draw: Draw, instants: iset<int>)
    requires Calm(rules, s, db, d, instants) && d.stage == RefreshStage && draw.now in instants
    requires db.runs[d.runId.value].InProgress? && db.runs[d.runId.value].context.generation < MAX_UINT32
    requires var run := db.runs[d.runId.value];
             run.request.batchId in db.batches && StateMatches(db.batches[run.request.batchId], run.request)
    ensures var id := d.runId.value;
            var (after, r) := Refreeze(rules, db, id, db.runs[id], draw.now);
            id in after.runs && RefreshCalm(rules, db, id, after, r, instants)
  {
    var id := d.runId.value;
    var run := db.runs[id];
    assert RunSound(rules, id, run) && RunPlaced(db, id, run);
    var frozen := Refrozen(rules, db, id, run.context.generation + 1, draw.now);
    assert frozen.Ok?;
    RefrozenContext(rules, db, id, run.context.generation + 1, draw.now);
    StoredKeys(rules, db, id, InProgress(run.key, run.request, frozen.value, None));
  }

  lemma RefreshServed(rules: Rules, s: Settings, db: Db, d: Delivery, draw: Draw, instants: iset<int>)
    requires Calm(rules, s, db, d, instants) && d.stage == RefreshStage && draw.now in instants && Room(db, d)
    ensures var id := d.runId.value;
            var (after, r) := RefreshStep(rules, db, id, d.context.value.inputHash, draw.now);
            id in after.runs && RefreshCalm(rules, db, id, after, r, instants)
  {
    var id := d.runId.value;
    var run := db.runs[id];
    KnownRun(rules, s, db, d);
    assert RunPlaced(db, id, run);
    if run.InProgress? {
      if StateMatches(db.batches[run.request.batchId], run.request) {
        RefreezeServed(rules, s, db, d, draw, instants);
      } else {
        StoredKeys(rules, db, id, Finished(run.key, run.request, Some(run.context), None, SkippedResult(id, run.request)));
      }
    }
  }

  // How a refreshing delivery takes a newer context or a finished run.
  predicate Taken(d: Delivery, id: string, run: Run, next: Delivery) {
    && next.runId == Some(id) && next.record == d.record
    && (run.Finished? ==> next.stage == DoneStage && next.refreshes == d.refreshes)
    && (run.InProgress? ==> next.stage == EvaluateStage && next.context == Some(run.context) && !next.refreshAllowed)
  }

  lemma RefreshNext(rules: Rules, s: Settings, d: Delivery, id: string, run: Run, reply: Reply)
    requires Fit(rules, s) && RunSound(rules, id, run) && d.stage == ResolveStage && d.refreshAllowed && d.runId == Some(id)
    requires Ready(s.python, id, run, d) && PySubmission(d.event.value) && exists replay :: reply == RunReply(id, run, replay)
    requires run.InProgress? ==> run.context.generation > d.context.value.generation
    ensures Taken(d, id, run, OnRun(s, d, RefreshStage, Run(reply), false).delivery)
  {
    var replay :| reply == RunReply(id, run, replay);
    ReplyPasses(rules, s, id, run, d.event.value, d.runId, None, replay);
  }

  lemma RefreshedProgress(rules: Rules, s: Settings, db: Db, d: Delivery, id: string, after: Db, next: Delivery,
                          r: Result<Reply, Code>, instants: iset<int>)
    requires Calm(rules, s, db, d, instants) && d.stage == RefreshStage && d.runId == Some(id)
    requires Joint(rules, s, after, next) && id in after.runs && RefreshCalm(rules, db, id, after, r, instants)
    requires RefreshLeft(rules, s, db, d) && Taken(d, id, after.runs[id], next)
    ensures Calm(rules, s, after, next, instants) && RefreshLeft(rules, s, after, next)
    ensures Measure(rules, after, next) < Measure(rules, db, d)
  {
    assert !Settled(rules, db, d);
    KnownRun(rules, s, db, d);
  }

  lemma RefreshProgress(rules: Rules, s: Settings, db: Db, d: Delivery, draw: Draw, instants: iset<int>)
    requires Calm(rules, s, db, d, instants) && RefreshLeft(rules, s, db, d) && d.stage == RefreshStage
    requires draw.now in instants
    ensures var (after, answer) := Serve(rules, db, d, draw);
            && MakesCall(s, d) && Progress(rules, s, d, Measure(rules, db, d), after, Step(s, d, answer), instants)
  {
    var id := d.runId.value;
    var (after, r) := RefreshStep(rules, db, id, d.context.value.inputHash, draw.now);
    assert !Settled(rules, db, d);
    RefreshHolds(rules, s, db, d, draw, None);
    RefreshServed(rules, s, db, d, draw, instants);
    RefreshAnswers(rules, s, db, d, draw.now);
    assert Inv(rules, after);
    assert RunSound(rules, id, after.runs[id]);
    RefreshNext(rules, s, d.(stage := ResolveStage), id, after.runs[id], r.value);
    var next := OnRun(s, d.(stage := ResolveStage), RefreshStage, Run(r.value), false).delivery;
    RefreshedProgress(rules, s, db, d, id, after, next, r, instants);
  }

  // ---------------------------------------------------------------- termination

  /** In calm times every answered step of an unfinished delivery keeps the calm and lowers the
      measure, which is at most seventeen. */
  lemma StepProgress(rules: Rules, s: Settings, db: Db, d: Delivery, draw: Draw, instants: iset<int>)
    requires Calm(rules, s, db, d, instants) && RefreshLeft(rules, s, db, d) && d.stage != DoneStage
    requires GoodDraw(db, draw, instants)
    ensures var (after, answer) := Attempt(rules, s, db, d, Answered, draw);
            Progress(rules, s, d, Measure(rules, db, d), after, Step(s, d, answer), instants)
    ensures Measure(rules, db, d) <= 17
  {
    match d.stage
    case PrepareStage => PrepareProgress(rules, s, db, d, draw, instants);
    case CommitStage => CommitProgress(rules, s, db, d, draw, instants);
    case ResolveStage => ResolveProgress(rules, s, db, d, draw, instants);
    case RefreshStage => RefreshProgress(rules, s, db, d, draw, instants);
    case _ => LocalProgress(rules, s, db, d, instants);
  }

  // Only the worker acts, and every call is answered.
  ghost predicate AnsweredRun(rules: Rules, s: Settings, ws: seq<World>, draws: seq<Draw>, instants: iset<int>) {
    && |ws| == |draws| + 1
    && forall i {:trigger Position(i)} :: 0 <= i < |draws| ==>
         GoodDraw(ws[i].db, draws[i], instants) && Next(rules, s, ws[i], Worker(Answered, draws[i]), ws[i + 1])
  }

  ghost predicate CalmExecution(rules: Rules, s: Settings, ws: seq<World>, draws: seq<Draw>, instants: iset<int>) {
    && AnsweredRun(rules, s, ws, draws, instants)
    && Calm(rules, s, ws[0].db, ws[0].delivery, instants) && RefreshLeft(rules, s, ws[0].db, ws[0].delivery)
  }

  lemma AnsweredStep(rules: Rules, s: Settings, ws: seq<World>, draws: seq<Draw>, instants: iset<int>, i: nat)
    requires AnsweredRun(rules, s, ws, draws, instants) && i < |draws|
    ensures Consistent(ws[i].delivery) && GoodDraw(ws[i].db, draws[i], instants)
    ensures var (after, answer) := Attempt(rules, s, ws[i].db, ws[i].delivery, Answered, draws[i]);
            ws[i + 1].db == after && ws[i + 1].delivery == Step(s, ws[i].delivery, answer).delivery
  {
    assert Position(i);
    assert Next(rules, s, ws[i], Worker(Answered, draws[i]), ws[i + 1]);
  }

  lemma CalmStep(rules: Rules, s: Settings, ws: seq<World>, draws: seq<Draw>, instants: iset<int>, i: nat)
    requires AnsweredRun(rules, s, ws, draws, instants) && i < |draws| && ws[i].delivery.stage != DoneStage
    requires Calm(rules, s, ws[i].db, ws[i].delivery, instants) && RefreshLeft(rules, s, ws[i].db, ws[i].delivery)
    ensures Calm(rules, s, ws[i + 1].db, ws[i + 1].delivery, instants)
    ensures RefreshLeft(rules, s, ws[i + 1].db, ws[i + 1].delivery)
    ensures Measure(rules, ws[i + 1].db, ws[i + 1].delivery) < Measure(rules, ws[i].db, ws[i].delivery)
  {
    AnsweredStep(rules, s, ws, draws, instants, i);
    StepProgress(rules, s, ws[i].db, ws[i].delivery, draws[i], instants);
  }

  lemma DoneStays(rules: Rules, s: Settings, ws: seq<World>, draws: seq<Draw>, instants: iset<int>, i: nat)
    requires AnsweredRun(rules, s, ws, draws, instants) && i < |draws| && ws[i].delivery.stage == DoneStage
    ensures ws[i + 1].delivery.stage == DoneStage
  {
    AnsweredStep(rules, s, ws, draws, instants, i);
  }

  lemma {:induction false} MeasureFalls(rules: Rules, s: Settings, ws: seq<World>, draws: seq<Draw>, instants: iset<int>, k: nat)
    requires CalmExecution(rules, s, ws, draws, instants) && k < |ws|
    ensures ws[k].delivery.stage == DoneStage ||
            (&& Calm(rules, s, ws[k].db, ws[k].delivery, instants) && RefreshLeft(rules, s, ws[k].db, ws[k].delivery)
             && Measure(rules, ws[k].db, ws[k].delivery) + k <= Measure(rules, ws[0].db, ws[0].delivery))
  {
    if k > 0 {
      MeasureFalls(rules, s, ws, draws, instants, k - 1);
      if ws[k - 1].delivery.stage == DoneStage {
        DoneStays(rules, s, ws, draws, instants, k - 1);
      } else {
        CalmStep(rules, s, ws, draws, instants, k - 1);
      }
    }
  }

  /** Once calls succeed and the configuration is stable and valid, one worker with a refresh left
      ends its delivery within the measure's number of steps, whatever stage it was in. */
  lemma WorkerTerminates(rules: Rules, s: Settings, ws: seq<World>, draws: seq<Draw>, instants: iset<int>, k: nat)
    requires CalmExecution(rules, s, ws, draws, instants) && Measure(rules, ws[0].db, ws[0].delivery) <= k < |ws|
    ensures ws[k].delivery.stage == DoneStage
  {
    MeasureFalls(rules, s, ws, draws, instants, k);
  }

  // ---------------------------------------------------------------- where it does not end

  // With no refresh left, one happening leaves REFRESH as it is.
  lemma ChurnStays(rules: Rules, s: Settings, w: World, e: Happening, v: World)
    requires Acts(rules, s, w, e, v) && w.delivery.stage == RefreshStage && w.delivery.refreshes >= s.maxRefreshes
    ensures v.delivery.stage == RefreshStage && v.delivery.refreshes == w.delivery.refreshes
    ensures v.delivery.context == w.delivery.context
    ensures e.Worker? ==> v.db == w.db && v.incident == ContextChurn
  {
  }

  ghost predicate Happens(rules: Rules, s: Settings, ws: seq<World>, es: seq<Happening>) {
    && |ws| == |es| + 1
    && forall i {:trigger Position(i)} :: 0 <= i < |es| ==> Acts(rules, s, ws[i], es[i], ws[i + 1])
  }

  /** Context churn: with no refresh left, REFRESH is never left again over any run, whatever becomes
      of the worker's calls and whatever others do to the store. */
  lemma {:induction false} ChurnNeverEnds(rules: Rules, s: Settings, ws: seq<World>, es: seq<Happening>, k: nat)
    requires Happens(rules, s, ws, es) && k < |ws|
    requires ws[0].delivery.stage == RefreshStage && ws[0].delivery.refreshes >= s.maxRefreshes
    ensures ws[k].delivery.stage == RefreshStage && ws[k].delivery.refreshes == ws[0].delivery.refreshes
    ensures ws[k].delivery.context == ws[0].delivery.context
    ensures 0 < k && es[k - 1].Worker? ==> ws[k].db == ws[k - 1].db && ws[k].incident == ContextChurn
  {
    if k > 0 {
      ChurnNeverEnds(rules, s, ws, es, k - 1);
      assert Position(k - 1);
      ChurnStays(rules, s, ws[k - 1], es[k - 1], ws[k]);
    }
  }

  lemma AnsweredHappens(rules: Rules, s: Settings, ws: seq<World>, draws: seq<Draw>, instants: iset<int>)
    returns (es: seq<Happening>)
    requires AnsweredRun(rules, s, ws, draws, instants)
    ensures Happens(rules, s, ws, es) && |es| == |draws|
    ensures forall i :: 0 <= i < |es| ==> es[i].Worker? && es[i].fate == Answered
  {
    es := seq(|draws|, i requires 0 <= i < |draws| => Worker(Answered, draws[i]));
    forall i | 0 <= i < |es| ensures Acts(rules, s, ws[i], es[i], ws[i + 1]) {
      assert Position(i) && es[i] == Worker(Answered, draws[i]);
      assert Next(rules, s, ws[i], Worker(Answered, draws[i]), ws[i + 1]);
    }
  }

  // Another worker, or a late duplicate of this worker's own refresh, has advanced the held run.
  predicate Overtaken(s: Settings, w: World) {
    && w.delivery.stage == RefreshStage && w.delivery.refreshes < s.maxRefreshes
    && w.delivery.runId.Some? && w.delivery.runId.value in w.db.runs && w.db.runs[w.delivery.runId.value].InProgress?
    && w.delivery.context.Some? && w.delivery.refreshAllowed
    && w.db.runs[w.delivery.runId.value].context.inputHash != w.delivery.context.value.inputHash
  }

  lemma OvertakenStays(rules: Rules, s: Settings, w: World, draw: Draw, v: World)
    requires Overtaken(s, w) && Acts(rules, s, w, Worker(Answered, draw), v)
    ensures v == World(w.db, w.delivery, Clear)
  {
  }

  /** An overtaken worker asks for the same refresh for ever: the store answers STALE_CONTEXT, the
      worker keeps its old context without a GET, and after any number of answered steps neither the
      tables nor the delivery have changed, however many refreshes are left. */
  lemma {:induction false} LateRefreshLivelock(rules: Rules, s: Settings, ws: seq<World>, es: seq<Happening>, k: nat)
    requires Happens(rules, s, ws, es) && (forall i :: 0 <= i < |es| ==> es[i].Worker? && es[i].fate == Answered)
    requires k < |ws| && Overtaken(s, ws[0])
    ensures ws[k].db == ws[0].db && ws[k].delivery == ws[0].delivery
  {
    if k > 0 {
      LateRefreshLivelock(rules, s, ws, es, k - 1);
      assert Position(k - 1);
      OvertakenStays(rules, s, ws[k - 1], es[k - 1].draw, ws[k]);
    }
  }

  /** From a REFRESH that is calm or overtaken, with every call answered, the delivery is done within
      the measure's number of steps exactly if it has a refresh left and nobody has overtaken it. */
  lemma RefreshEnds(rules: Rules, s: Settings, ws: seq<World>, draws: seq<Draw>, instants: iset<int>, k: nat)
    requires AnsweredRun(rules, s, ws, draws, instants) && 12 <= k < |ws| && ws[0].delivery.stage == RefreshStage
    requires Overtaken(s, ws[0]) ||
             (Calm(rules, s, ws[0].db, ws[0].delivery, instants) && Room(ws[0].db, ws[0].delivery))
    ensures ws[k].delivery.stage == DoneStage <==> ws[0].delivery.refreshes < s.maxRefreshes && !Overtaken(s, ws[0])
  {
    if ws[0].delivery.refreshes < s.maxRefreshes && !Overtaken(s, ws[0]) {
      assert !Ahead(ws[0].db, ws[0].delivery);
      WorkerTerminates(rules, s, ws, draws, instants, k);
    } else {
      var es := AnsweredHappens(rules, s, ws, draws, instants);
      if Overtaken(s, ws[0]) {
        LateRefreshLivelock(rules, s, ws, es, k);
      } else {
        ChurnNeverEnds(rules, s, ws, es, k);
      }
    }
  }

  /** A calm worker with a refresh left is overtaken as soon as another client refreshes the same run
      at another instant. */
  lemma OthersOvertake(rules: Rules, s: Settings, w: World, draw: Draw, instants: iset<int>, v: World)
    requires Calm(rules, s, w.db, w.delivery, instants) && Room(w.db, w.delivery) && draw.now in instants
    requires w.delivery.stage == RefreshStage && w.delivery.refreshes < s.maxRefreshes
    requires var run := w.db.runs[w.delivery.runId.value];
             && run.InProgress? && run.request.batchId in w.db.batches
             && StateMatches(w.db.batches[run.request.batchId], run.request)
             && draw.now != run.context.content.evaluationAt
    requires Acts(rules, s, w, Other(Refresh(w.delivery.runId.value, w.delivery.context.value.inputHash, draw.now)), v)
    ensures Overtaken(s, v)
  {
    var id := w.delivery.runId.value;
    assert RunSound(rules, id, w.db.runs[id]);
    RefreshServed(rules, s, w.db, w.delivery, draw, instants);
    RefrozenContext(rules, w.db, id, w.db.runs[id].context.generation + 1, draw.now);
  }
}
