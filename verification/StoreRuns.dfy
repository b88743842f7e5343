/** What every run of the store keeps, under any interleaving of calls, configuration edits and
    batch changes. */
module StoreRuns {
  import opened Wrappers
  import opened Vocabulary
  import opened Snapshots
  import opened Evaluators
  import opened MatchingStore

  datatype Action =
    | Prepare(req: Request, key: string, runId: string, decisionId: string, now: int)
    | Get(id: string)
    | Refresh(id: string, expected: Canon, now: int)
    | Commit(id: string, output: Output)
    | Environment(next: Db)

  // A batch row changes only together with a higher version.
  predicate RowEvolves(b: BatchRow, c: BatchRow) { c == b || c.version > b.version }

  ghost predicate RowsEvolve(db: Db, next: Db) {
    forall id :: id in db.batches ==> id in next.batches && RowEvolves(db.batches[id], next.batches[id])
  }

  // The rest of the platform: configuration is edited freely, batches move on, events are added.
  ghost predicate EnvironmentMay(db: Db, next: Db) {
    && next.runs == db.runs && next.keys == db.keys && next.decisions == db.decisions
    && RowsEvolve(db, next)
    && forall id :: id in db.events ==> id in next.events && next.events[id] == db.events[id]
  }

  ghost function Apply(rules: Rules, db: Db, a: Action): Db {
    match a
    case Prepare(req, key, runId, decisionId, now) => PrepareStep(rules, db, req, key, runId, decisionId, now).0
    case Get(_) => db
    case Refresh(id, expected, now) => RefreshStep(rules, db, id, expected, now).0
    case Commit(id, output) => CommitStep(rules, db, id, output).0
    case Environment(next) => if EnvironmentMay(db, next) then next else db
  }

  predicate Initial(db: Db) { db.runs == map[] && db.keys == map[] && db.decisions == [] }

  // ---------------------------------------------------------------- the invariant

  predicate OutputSane(o: Output) {
    0 <= o.eligibleCount <= o.evaluatedCount <= MAX_UINT32 && (o.outcome == Matched <==> o.eligibleCount > 0)
  }

  ghost predicate Sane(rules: Rules) {
    forall s :: rules.recompute(s).Some? ==> OutputSane(rules.recompute(s).value)
  }

  // An observation records the batch row it was given and the evaluation time, or is refused as
  // unavailable.
  ghost predicate Faithful(rules: Rules) {
    forall c, b, id, at ::
      match rules.observe(c, b, id, at)
      case Ok(content) =>
        && content.evaluationAt == at && b.details.Some?
        && content.batch == BatchInput(id, b.version, b.epoch, b.details.value)
      case Err(code) => code == Unavailable || code == UnsupportedRuleSet
  }

  // The context was frozen for this run and this request.
  predicate ContextOf(rules: Rules, id: string, req: Request, s: Snapshot) {
    && s.runId == id && s.trigger == req.trigger && s.correlationId == req.correlationId && s.generation >= 1
    && s.content.batch.id == req.batchId && s.content.batch.version == req.batchVersion
    && s.content.batch.epoch == req.epoch
    && s.inputHash == s.content && s.profileHash == s.content.organisations && rules.valid(s)
    && (req.trigger.kind == RequestSubmitted ==>
          req.event.Some? && s.content.batch.details == req.event.value.details)
  }

  // While the batch keeps the requested version, its details are the frozen ones.
  predicate RowAgrees(b: BatchRow, req: Request, s: Snapshot) {
    b.version >= req.batchVersion &&
    (b.version == req.batchVersion ==> b.details == Some(s.content.batch.details))
  }

  predicate CommittedOf(rules: Rules, id: string, req: Request, s: Snapshot, o: Output, d: Disposition) {
    && ContextOf(rules, id, req, s) && rules.recompute(s) == Some(o)
    && d == Committed(s.decisionId, req.epoch, o.outcome, o.evaluatedCount, o.eligibleCount,
                      if o.outcome == Matched then MatchedBatch else Submitted,
                      if o.outcome == Matched then req.batchVersion + 1 else req.batchVersion)
    && (o.outcome == Matched ==> req.batchVersion < MAX_UINT32)
  }

  predicate RunSound(rules: Rules, id: string, run: Run) {
    && ValidPrepare(run.request, run.key)
    && match run
       case InProgress(_, req, s, staleHash) =>
         ContextOf(rules, id, req, s) && (staleHash.Some? ==> staleHash.value == s.inputHash)
       case Finished(_, req, s, o, result) =>
         && result.runId == id && result.batchId == req.batchId && result.correlationId == req.correlationId
         && (result.disposition.Committed? ==>
               s.Some? && o.Some? && CommittedOf(rules, id, req, s.value, o.value, result.disposition))
  }

  ghost predicate RunPlaced(db: Db, id: string, run: Run) {
    && run.key in db.keys && db.keys[run.key] == id
    && run.request.batchId in db.batches
    && (run.InProgress? ==> RowAgrees(db.batches[run.request.batchId], run.request, run.context))
    && (run.Finished? && run.result.disposition.Committed? ==> exists i :: 0 <= i < |db.decisions| && db.decisions[i].runId == id)
  }

  ghost predicate DecisionSound(db: Db, d: Decision) {
    && d.runId in db.runs && db.runs[d.runId].Finished? && db.runs[d.runId].result.disposition.Committed?
    && db.runs[d.runId].accepted == Some(d.output) && db.runs[d.runId].lastContext == Some(d.snapshot)
    && d.id == d.snapshot.decisionId && d.trigger == db.runs[d.runId].request.trigger
    && d.batchId == db.runs[d.runId].request.batchId
    && d.batchVersion == db.runs[d.runId].request.batchVersion && d.epoch == db.runs[d.runId].request.epoch
    && d.batchId in db.batches && db.batches[d.batchId].version >= d.batchVersion
    && (d.output.outcome == Matched ==> db.batches[d.batchId].version > d.batchVersion)
  }

  predicate Apart(c: Decision, d: Decision) {
    && c.id != d.id && c.trigger != d.trigger && c.runId != d.runId
    && !(c.output.outcome == Matched && c.batchId == d.batchId && c.batchVersion == d.batchVersion)
  }

  ghost predicate KeysSound(db: Db) { forall k :: k in db.keys ==> db.keys[k] in db.runs && db.runs[db.keys[k]].key == k }

  ghost predicate RunsSound(rules: Rules, db: Db) {
    && (forall id {:trigger RunSound(rules, id, db.runs[id])} :: id in db.runs ==> RunSound(rules, id, db.runs[id]))
    && (forall id {:trigger RunPlaced(db, id, db.runs[id])} :: id in db.runs ==> RunPlaced(db, id, db.runs[id]))
  }

  ghost predicate DecisionsSound(db: Db) {
    && (forall i {:trigger DecisionSound(db, db.decisions[i])} :: 0 <= i < |db.decisions| ==> DecisionSound(db, db.decisions[i]))
    && (forall i, j :: 0 <= i < j < |db.decisions| ==> Apart(db.decisions[i], db.decisions[j]))
  }

  ghost predicate Inv(rules: Rules, db: Db) {
    Faithful(rules) && KeysSound(db) && RunsSound(rules, db) && DecisionsSound(db)
  }

  // The states of the store along an arbitrary interleaving of actions.
  ghost predicate Execution(rules: Rules, dbs: seq<Db>, actions: seq<Action>) {
    && Faithful(rules) && |dbs| == |actions| + 1 && Initial(dbs[0])
    && forall i {:trigger Position(i)} :: 0 <= i < |actions| ==> dbs[i + 1] == Apply(rules, dbs[i], actions[i])
  }

  // ---------------------------------------------------------------- effects of the calls

  // A run that a call has just opened.
  ghost predicate Opened(rules: Rules, db: Db, id: string, run: Run) {
    && id !in db.runs && run.key !in db.keys && ValidPrepare(run.request, run.key)
    && run.request.batchId in db.batches
    && match run
       case InProgress(_, req, s, staleHash) =>
         && ContextOf(rules, id, req, s) && s.generation == 1 && staleHash.None?
         && RowAgrees(db.batches[req.batchId], req, s)
       case Finished(_, req, _, _, result) =>
         result == SkippedResult(id, req) && !StateMatches(db.batches[req.batchId], req)
  }

  // A run that a call has moved on, without a decision.
  ghost predicate Moved(rules: Rules, db: Db, id: string, run: Run) {
    && id in db.runs && db.runs[id].InProgress?
    && run.key == db.runs[id].key && run.request == db.runs[id].request && run.request.batchId in db.batches
    && match run
       case InProgress(_, req, s, staleHash) =>
         && ContextOf(rules, id, req, s) && (staleHash.Some? ==> staleHash.value == s.inputHash)
         && RowAgrees(db.batches[req.batchId], req, s)
         && s.decisionId == db.runs[id].context.decisionId
         && (s == db.runs[id].context || s.generation == db.runs[id].context.generation + 1)
       case Finished(_, req, s, _, result) =>
         result == SkippedResult(id, req) && !StateMatches(db.batches[req.batchId], req) && s == Some(db.runs[id].context)
  }

  lemma PrepareEffect(rules: Rules, db: Db, req: Request, key: string, runId: string, decisionId: string, now: int)
    requires Inv(rules, db)
    ensures var after := PrepareStep(rules, db, req, key, runId, decisionId, now).0;
            after == db ||
            exists run :: Opened(rules, db, runId, run) && run.key == key && run.request == req && after == Store(db, runId, run)
  {
  }

  // A snapshot refrozen for a run in progress is a context of the same request.
  lemma RefrozenContext(rules: Rules, db: Db, id: string, generation: int, at: int)
    requires Inv(rules, db) && id in db.runs && db.runs[id].InProgress? && generation >= 1
    requires var req := db.runs[id].request; req.batchId in db.batches && StateMatches(db.batches[req.batchId], req)
    requires Refrozen(rules, db, id, generation, at).Ok?
    ensures var req, s := db.runs[id].request, Refrozen(rules, db, id, generation, at).value;
            && ContextOf(rules, id, req, s) && RowAgrees(db.batches[req.batchId], req, s)
            && s.decisionId == db.runs[id].context.decisionId && s.generation == generation
            && s.content.evaluationAt == at
            && s == Framed(s.content, req, id, s.decisionId, generation)
  {
    var run := db.runs[id];
    assert RunSound(rules, id, run) && RunPlaced(db, id, run);
  }

  // What the store would freeze now for this run.
  function Refrozen(rules: Rules, db: Db, id: string, generation: int, at: int): Result<Snapshot, Code>
    requires id in db.runs && db.runs[id].InProgress? && db.runs[id].request.batchId in db.batches
  {
    var run := db.runs[id];
    Freeze(rules, db.config, db.batches[run.request.batchId], run.request, id, run.context.decisionId, generation, at)
  }

  lemma RefreezeEffect(rules: Rules, db: Db, id: string, now: int)
    requires Inv(rules, db) && id in db.runs && db.runs[id].InProgress?
    requires var req := db.runs[id].request; req.batchId in db.batches && StateMatches(db.batches[req.batchId], req)
    ensures var after := Refreeze(rules, db, id, db.runs[id], now).0;
            after == db || exists run :: Moved(rules, db, id, run) && after == Store(db, id, run)
  {
    var held := db.runs[id];
    assert RunSound(rules, id, held);
    var frozen := Refrozen(rules, db, id, held.context.generation + 1, now);
    if frozen.Ok? {
      RefrozenContext(rules, db, id, held.context.generation + 1, now);
      var run := InProgress(held.key, held.request, frozen.value, None);
      assert Refreeze(rules, db, id, held, now).0 == Store(db, id, run);
    }
  }

  lemma RefreshEffect(rules: Rules, db: Db, id: string, expected: Canon, now: int)
    requires Inv(rules, db)
    ensures var after := RefreshStep(rules, db, id, expected, now).0;
            after == db || exists run :: Moved(rules, db, id, run) && after == Store(db, id, run)
  {
    if id in db.runs && db.runs[id].InProgress? && db.runs[id].context.inputHash == expected &&
      db.runs[id].request.batchId in db.batches
    {
      var held := db.runs[id];
      if !StateMatches(db.batches[held.request.batchId], held.request) {
        var run := Finished(held.key, held.request, Some(held.context), None, SkippedResult(id, held.request));
        assert Moved(rules, db, id, run);
      } else {
        RefreezeEffect(rules, db, id, now);
      }
    }
  }

  // A commit that wrote a decision: the frozen context is what the committing transaction itself
  // would freeze at the frozen evaluation time, and the output is the recomputation over it.
  ghost predicate Decided(rules: Rules, db: Db, id: string, output: Output, after: Db) {
    && id in db.runs && db.runs[id].InProgress? && db.runs[id].request.batchId in db.batches
    && var run, b := db.runs[id], db.batches[db.runs[id].request.batchId];
       var s, d := run.context, DecisionOf(id, run.request, b, run.context, output);
       && StateMatches(b, run.request) && rules.recompute(s) == Some(output)
       && Refrozen(rules, db, id, s.generation, s.content.evaluationAt) == Ok(s)
       && Persist(db, d).Ok?
       && after == Store(Persist(db, d).value, id,
                         Finished(run.key, run.request, Some(s), Some(output),
                                  CommittedResult(id, run.request, s, output,
                                                  Persist(db, d).value.batches[run.request.batchId])))
  }

  // Equal digests of two contexts of one run and generation make the contexts equal.
  lemma CurrentIsContext(rules: Rules, db: Db, id: string)
    requires Inv(rules, db) && id in db.runs && db.runs[id].InProgress?
    requires var req := db.runs[id].request; req.batchId in db.batches && StateMatches(db.batches[req.batchId], req)
    requires var s := db.runs[id].context;
             var current := Refrozen(rules, db, id, s.generation, s.content.evaluationAt);
             current.Ok? && current.value.inputHash == s.inputHash
    ensures var s := db.runs[id].context; Refrozen(rules, db, id, s.generation, s.content.evaluationAt) == Ok(s)
  {
    var run := db.runs[id];
    assert RunSound(rules, id, run);
    RefrozenContext(rules, db, id, run.context.generation, run.context.content.evaluationAt);
  }

  lemma CommitEffect(rules: Rules, db: Db, id: string, output: Output)
    requires Inv(rules, db)
    ensures var after := CommitStep(rules, db, id, output).0;
            after == db || Decided(rules, db, id, output, after) ||
            exists run :: Moved(rules, db, id, run) && after == Store(db, id, run)
  {
    var after := CommitStep(rules, db, id, output).0;
    if after != db {
      var held := db.runs[id];
      var req, b, s := held.request, db.batches[held.request.batchId], held.context;
      assert RunSound(rules, id, held) && RunPlaced(db, id, held);
      if !StateMatches(b, req) {
        var run := Finished(held.key, req, Some(s), None, SkippedResult(id, req));
        assert Moved(rules, db, id, run) && after == Store(db, id, run);
      } else if Refrozen(rules, db, id, s.generation, s.content.evaluationAt).value.inputHash != s.inputHash {
        var run := InProgress(held.key, req, s, Some(s.inputHash));
        assert Moved(rules, db, id, run) && after == Store(db, id, run);
      } else {
        CurrentIsContext(rules, db, id);
      }
    }
  }

  // ---------------------------------------------------------------- the invariant is kept

  // A stored run keeps its place when rows evolve and keys stay.
  lemma PlacedKept(db: Db, after: Db, id: string, run: Run)
    requires RunPlaced(db, id, run) && RowsEvolve(db, after)
    requires run.key in after.keys && after.keys[run.key] == id
    requires db.decisions <= after.decisions
    ensures RunPlaced(after, id, run)
  {
    if run.Finished? && run.result.disposition.Committed? {
      var i :| 0 <= i < |db.decisions| && db.decisions[i].runId == id;
      assert after.decisions[i].runId == id;
    }
  }

  lemma DecisionKept(db: Db, after: Db, d: Decision)
    requires DecisionSound(db, d) && RowsEvolve(db, after)
    requires d.runId in after.runs && after.runs[d.runId] == db.runs[d.runId]
    ensures DecisionSound(after, d)
  {
  }

  // Storing one run that is new or was in progress disturbs nothing else.
  lemma StoreKeeps(rules: Rules, db: Db, id: string, run: Run)
    requires Inv(rules, db)
    requires RunSound(rules, id, run) && run.request.batchId in db.batches
    requires run.InProgress? ==> RowAgrees(db.batches[run.request.batchId], run.request, run.context)
    requires run.Finished? ==> run.result.disposition.Skipped?
    requires if id in db.runs then db.runs[id].InProgress? && db.runs[id].key == run.key else run.key !in db.keys
    ensures Inv(rules, Store(db, id, run))
  {
    var after := Store(db, id, run);
    assert id in db.runs ==> RunPlaced(db, id, db.runs[id]);
    forall x | x in after.runs ensures RunSound(rules, x, after.runs[x]) && RunPlaced(after, x, after.runs[x]) {
      if x != id {
        assert RunSound(rules, x, db.runs[x]) && RunPlaced(db, x, db.runs[x]);
        PlacedKept(db, after, x, db.runs[x]);
      }
    }
    forall i | 0 <= i < |after.decisions| ensures DecisionSound(after, after.decisions[i]) {
      DecisionKept(db, after, db.decisions[i]);
    }
  }

  lemma OpenedKeeps(rules: Rules, db: Db, id: string, run: Run)
    requires Inv(rules, db) && Opened(rules, db, id, run)
    ensures Inv(rules, Store(db, id, run))
  {
    StoreKeeps(rules, db, id, run);
  }

  lemma MovedKeeps(rules: Rules, db: Db, id: string, run: Run)
    requires Inv(rules, db) && Moved(rules, db, id, run)
    ensures Inv(rules, Store(db, id, run))
  {
    assert RunSound(rules, id, db.runs[id]);
    StoreKeeps(rules, db, id, run);
  }

  lemma EnvironmentKeeps(rules: Rules, db: Db, next: Db)
    requires Inv(rules, db) && EnvironmentMay(db, next)
    ensures Inv(rules, next)
  {
    forall x | x in next.runs ensures RunSound(rules, x, next.runs[x]) && RunPlaced(next, x, next.runs[x]) {
      assert RunPlaced(db, x, db.runs[x]);
      PlacedKept(db, next, x, db.runs[x]);
    }
    forall i | 0 <= i < |next.decisions| ensures DecisionSound(next, next.decisions[i]) {
      DecisionKept(db, next, db.decisions[i]);
    }
  }

  // The new decision stands apart from every earlier one.
  lemma DecisionApart(rules: Rules, db: Db, id: string, c: Decision, d: Decision)
    requires Inv(rules, db) && c in db.decisions && !DecisionTaken(db, d)
    requires id in db.runs && db.runs[id].InProgress? && d.runId == id
    requires d.batchId in db.batches && db.batches[d.batchId].version == d.batchVersion
    ensures Apart(c, d)
  {
    var i :| 0 <= i < |db.decisions| && db.decisions[i] == c;
    assert DecisionSound(db, c);
  }

  lemma DecidedEffect(rules: Rules, db: Db, id: string, output: Output, after: Db)
    requires Inv(rules, db) && Decided(rules, db, id, output, after)
    ensures var run := db.runs[id];
            var b := db.batches[run.request.batchId];
            var d := DecisionOf(id, run.request, b, run.context, output);
            && after.decisions == db.decisions + [d] && !DecisionTaken(db, d)
            && after.keys == db.keys && after.runs == db.runs[id := after.runs[id]]
            && after.batches == db.batches[run.request.batchId := after.batches[run.request.batchId]]
            && after.batches[run.request.batchId] ==
                 (if output.outcome == Matched then b.(status := MatchedBatch, version := b.version + 1) else b)
            && (output.outcome == Matched ==> b.version != MAX_UINT32)
  {
    var run := db.runs[id];
    assert RunPlaced(db, id, run);
    assert db.keys == db.keys[run.key := id];
  }

  lemma DecidedRows(rules: Rules, db: Db, id: string, output: Output, after: Db)
    requires Inv(rules, db) && Decided(rules, db, id, output, after)
    ensures RowsEvolve(db, after)
  {
    DecidedEffect(rules, db, id, output, after);
  }

  lemma DecidedRunSound(rules: Rules, db: Db, id: string, output: Output, after: Db)
    requires Inv(rules, db) && Decided(rules, db, id, output, after)
    ensures RunSound(rules, id, after.runs[id]) && RunPlaced(after, id, after.runs[id])
    ensures DecisionSound(after, after.decisions[|after.decisions| - 1])
  {
    DecidedEffect(rules, db, id, output, after);
    assert RunSound(rules, id, db.runs[id]) && RunPlaced(db, id, db.runs[id]);
    assert after.decisions[|db.decisions|].runId == id;
  }

  lemma DecidedKeepsRuns(rules: Rules, db: Db, id: string, output: Output, after: Db)
    requires Inv(rules, db) && Decided(rules, db, id, output, after)
    ensures KeysSound(after) && RunsSound(rules, after)
  {
    DecidedEffect(rules, db, id, output, after);
    DecidedRows(rules, db, id, output, after);
    DecidedRunSound(rules, db, id, output, after);
    forall x | x in after.runs ensures RunSound(rules, x, after.runs[x]) && RunPlaced(after, x, after.runs[x]) {
      if x != id {
        assert RunSound(rules, x, db.runs[x]) && RunPlaced(db, x, db.runs[x]);
        PlacedKept(db, after, x, db.runs[x]);
      }
    }
  }

  lemma DecidedKeepsDecisions(rules: Rules, db: Db, id: string, output: Output, after: Db)
    requires Inv(rules, db) && Decided(rules, db, id, output, after)
    ensures DecisionsSound(after)
  {
    DecidedEffect(rules, db, id, output, after);
    DecidedRows(rules, db, id, output, after);
    DecidedRunSound(rules, db, id, output, after);
    var n := |db.decisions|;
    forall i | 0 <= i < n ensures DecisionSound(after, after.decisions[i]) && Apart(after.decisions[i], after.decisions[n]) {
      assert after.decisions[i] == db.decisions[i];
      assert DecisionSound(db, db.decisions[i]);
      DecisionKept(db, after, db.decisions[i]);
      DecisionApart(rules, db, id, db.decisions[i], after.decisions[n]);
    }
  }

  lemma DecidedKeeps(rules: Rules, db: Db, id: string, output: Output, after: Db)
    requires Inv(rules, db) && Decided(rules, db, id, output, after)
    ensures Inv(rules, after)
  {
    DecidedKeepsRuns(rules, db, id, output, after);
    DecidedKeepsDecisions(rules, db, id, output, after);
  }

  lemma StepKeeps(rules: Rules, db: Db, a: Action)
    requires Inv(rules, db)
    ensures Inv(rules, Apply(rules, db, a))
  {
    match a
    case Prepare(req, key, runId, decisionId, now) =>
      PrepareEffect(rules, db, req, key, runId, decisionId, now);
      if run :| Opened(rules, db, runId, run) && Apply(rules, db, a) == Store(db, runId, run) {
        OpenedKeeps(rules, db, runId, run);
      }
    case Get(_) =>
    case Refresh(id, expected, now) =>
      RefreshEffect(rules, db, id, expected, now);
      if run :| Moved(rules, db, id, run) && Apply(rules, db, a) == Store(db, id, run) { MovedKeeps(rules, db, id, run); }
    case Commit(id, output) =>
      CommitEffect(rules, db, id, output);
      if Decided(rules, db, id, output, Apply(rules, db, a)) {
        DecidedKeeps(rules, db, id, output, Apply(rules, db, a));
      } else if run :| Moved(rules, db, id, run) && Apply(rules, db, a) == Store(db, id, run) {
        MovedKeeps(rules, db, id, run);
      }
    case Environment(next) => if EnvironmentMay(db, next) { EnvironmentKeeps(rules, db, next); }
  }

  lemma StepAt(rules: Rules, dbs: seq<Db>, actions: seq<Action>, i: nat)
    requires Execution(rules, dbs, actions) && i < |actions|
    ensures dbs[i + 1] == Apply(rules, dbs[i], actions[i])
  {
    assert Position(i);
  }

  lemma InvStep(rules: Rules, dbs: seq<Db>, actions: seq<Action>, i: nat)
    requires Execution(rules, dbs, actions) && i < |actions| && Inv(rules, dbs[i])
    ensures Inv(rules, dbs[i + 1])
  {
    StepAt(rules, dbs, actions, i);
    StepKeeps(rules, dbs[i], actions[i]);
  }

  lemma {:induction false} InvHolds(rules: Rules, dbs: seq<Db>, actions: seq<Action>, k: nat)
    requires Execution(rules, dbs, actions) && k < |dbs|
    ensures Inv(rules, dbs[k])
  {
    if k > 0 {
      InvHolds(rules, dbs, actions, k - 1);
      InvStep(rules, dbs, actions, k - 1);
    }
  }

  // ---------------------------------------------------------------- committed decisions are current

  // The step that wrote this decision: the committing transaction itself would have frozen the
  // decision's snapshot, and the decision is the recomputation over it.
  ghost predicate WritesDecision(rules: Rules, db: Db, a: Action, d: Decision) {
    && a.Commit? && a.id == d.runId && a.output == d.output
    && d.runId in db.runs && db.runs[d.runId].InProgress? && db.runs[d.runId].request.batchId == d.batchId
    && d.batchId in db.batches && StateMatches(db.batches[d.batchId], db.runs[d.runId].request)
    && db.batches[d.batchId].version == d.batchVersion && db.batches[d.batchId].epoch == d.epoch
    && Refrozen(rules, db, d.runId, d.snapshot.generation, d.snapshot.content.evaluationAt) == Ok(d.snapshot)
    && rules.recompute(d.snapshot) == Some(d.output)
  }

  lemma StepDecides(rules: Rules, db: Db, a: Action)
    requires Inv(rules, db)
    ensures var after := Apply(rules, db, a);
            after.decisions == db.decisions ||
            exists d :: after.decisions == db.decisions + [d] && WritesDecision(rules, db, a, d)
  {
    match a
    case Prepare(req, key, runId, decisionId, now) => PrepareEffect(rules, db, req, key, runId, decisionId, now);
    case Get(_) =>
    case Refresh(id, expected, now) => RefreshEffect(rules, db, id, expected, now);
    case Commit(id, output) =>
      CommitEffect(rules, db, id, output);
      if Decided(rules, db, id, output, Apply(rules, db, a)) {
        DecidedEffect(rules, db, id, output, Apply(rules, db, a));
        var run := db.runs[id];
        var d := DecisionOf(id, run.request, db.batches[run.request.batchId], run.context, output);
        assert WritesDecision(rules, db, a, d);
      }
    case Environment(_) =>
  }

  lemma DecidesAt(rules: Rules, dbs: seq<Db>, actions: seq<Action>, i: nat, d: Decision)
    requires Execution(rules, dbs, actions) && i < |actions| && d in dbs[i + 1].decisions
    ensures d in dbs[i].decisions || WritesDecision(rules, dbs[i], actions[i], d)
  {
    InvHolds(rules, dbs, actions, i);
    StepAt(rules, dbs, actions, i);
    StepDecides(rules, dbs[i], actions[i]);
  }

  /** Under any interleaving, every recorded decision is the evaluation of the snapshot that the
      transaction which committed it would itself have built at the frozen evaluation time. */
  lemma {:induction false} DecisionsAreCurrent(rules: Rules, dbs: seq<Db>, actions: seq<Action>, k: nat, d: Decision)
    requires Execution(rules, dbs, actions) && k < |dbs| && d in dbs[k].decisions
    ensures exists i :: 0 <= i < k && WritesDecision(rules, dbs[i], actions[i], d)
  {
    if k > 0 {
      DecidesAt(rules, dbs, actions, k - 1, d);
      if d in dbs[k - 1].decisions { DecisionsAreCurrent(rules, dbs, actions, k - 1, d); }
    }
  }

  // ---------------------------------------------------------------- one match per version

  /** Across all runs and reruns a batch version is matched at most once. */
  lemma OneMatchPerVersion(rules: Rules, dbs: seq<Db>, actions: seq<Action>, k: nat, i: nat, j: nat)
    requires Execution(rules, dbs, actions) && k < |dbs|
    requires i < |dbs[k].decisions| && dbs[k].decisions[i].output.outcome == Matched
    requires j < |dbs[k].decisions| && dbs[k].decisions[j].output.outcome == Matched
    requires dbs[k].decisions[i].batchId == dbs[k].decisions[j].batchId
    requires dbs[k].decisions[i].batchVersion == dbs[k].decisions[j].batchVersion
    ensures i == j
  {
    InvHolds(rules, dbs, actions, k);
    var ds := dbs[k].decisions;
    assert i < j ==> Apart(ds[i], ds[j]);
    assert j < i ==> Apart(ds[j], ds[i]);
  }

  // Once matched, the version never fits a request again.
  lemma MatchedVersionSpent(rules: Rules, db: Db, d: Decision, req: Request)
    requires Inv(rules, db) && d in db.decisions && d.output.outcome == Matched
    requires req.batchId == d.batchId && req.batchVersion == d.batchVersion
    ensures req.batchId in db.batches && !StateMatches(db.batches[req.batchId], req)
  {
    var i :| 0 <= i < |db.decisions| && db.decisions[i] == d;
    assert DecisionSound(db, d);
  }

  /** Later runs on a matched version end SKIPPED: whatever a caller presents, a call that
      completes such a run completes it so, and none writes a decision. */
  lemma LaterRunsSkipped(rules: Rules, db: Db, d: Decision, id: string, output: Output)
    requires Inv(rules, db) && d in db.decisions && d.output.outcome == Matched
    requires id in db.runs && db.runs[id].InProgress?
    requires db.runs[id].request.batchId == d.batchId && db.runs[id].request.batchVersion == d.batchVersion
    ensures var (after, reply) := CommitStep(rules, db, id, output);
            && after.decisions == db.decisions
            && (reply.Ok? ==> reply.value == (SkippedResult(id, db.runs[id].request), false))
            && (after.runs != db.runs ==> after.runs[id].Finished? && after.runs[id].result.disposition.Skipped?)
  {
    MatchedVersionSpent(rules, db, d, db.runs[id].request);
  }

  lemma LaterRunsOpenSkipped(rules: Rules, db: Db, d: Decision, req: Request, key: string, runId: string,
                             decisionId: string, now: int)
    requires Inv(rules, db) && d in db.decisions && d.output.outcome == Matched && key !in db.keys
    requires req.batchId == d.batchId && req.batchVersion == d.batchVersion
    ensures var reply := PrepareStep(rules, db, req, key, runId, decisionId, now).1;
            reply.Ok? ==> reply.value == (Done(runId, SkippedResult(runId, req), false), true)
  {
    MatchedVersionSpent(rules, db, d, req);
  }

  // The decision a step wrote, if any.
  function Written(db: Db, after: Db): Option<Decision> {
    if |after.decisions| > |db.decisions| then Some(after.decisions[|db.decisions|]) else None
  }

  // A row before and after a step that wrote this decision, if any.
  ghost predicate RaisedByMatch(batchId: string, b: BatchRow, c: BatchRow, d: Option<Decision>) {
    if d.Some? && d.value.output.outcome == Matched && d.value.batchId == batchId
    then b.status == Submitted && c == b.(status := MatchedBatch, version := b.version + 1)
    else c == b
  }

  /** The calls change a batch only by matching it: its version rises, by one, exactly with a new
      MATCHED decision on it. */
  lemma VersionRisesWithMatch(rules: Rules, db: Db, a: Action, batchId: string)
    requires Inv(rules, db) && !a.Environment? && batchId in db.batches
    ensures batchId in Apply(rules, db, a).batches
    ensures RaisedByMatch(batchId, db.batches[batchId], Apply(rules, db, a).batches[batchId],
                          Written(db, Apply(rules, db, a)))
  {
    match a
    case Prepare(req, key, runId, decisionId, now) => PrepareEffect(rules, db, req, key, runId, decisionId, now);
    case Get(_) =>
    case Refresh(id, expected, now) => RefreshEffect(rules, db, id, expected, now);
    case Commit(id, output) =>
      CommitEffect(rules, db, id, output);
      if Decided(rules, db, id, output, Apply(rules, db, a)) {
        DecidedEffect(rules, db, id, output, Apply(rules, db, a));
      }
  }

  // What else the step that writes a decision finds in the batch row.
  lemma DecisionWritten(rules: Rules, db: Db, a: Action, d: Decision)
    requires Inv(rules, db) && WritesDecision(rules, db, a, d) && Apply(rules, db, a).decisions == db.decisions + [d]
    ensures db.batches[d.batchId].details == Some(d.snapshot.content.batch.details)
    ensures d.output.outcome == Matched ==> db.batches[d.batchId].version != MAX_UINT32
  {
    CommitEffect(rules, db, a.id, a.output);
    if Decided(rules, db, a.id, a.output, Apply(rules, db, a)) {
      DecidedEffect(rules, db, a.id, a.output, Apply(rules, db, a));
    }
  }

  // The calls add no batch.
  lemma CallsKeepBatches(rules: Rules, db: Db, a: Action)
    requires Inv(rules, db) && !a.Environment?
    ensures Apply(rules, db, a).batches.Keys == db.batches.Keys
  {
    match a
    case Prepare(req, key, runId, decisionId, now) => PrepareEffect(rules, db, req, key, runId, decisionId, now);
    case Get(_) =>
    case Refresh(id, expected, now) => RefreshEffect(rules, db, id, expected, now);
    case Commit(id, output) =>
      CommitEffect(rules, db, id, output);
      if Decided(rules, db, id, output, Apply(rules, db, a)) {
        DecidedEffect(rules, db, id, output, Apply(rules, db, a));
      }
  }

  // ---------------------------------------------------------------- a run's life

  predicate RunEvolves(r: Run, s: Run) {
    && s.request == r.request && s.key == r.key
    && (r.Finished? ==> s == r)
    && (r.InProgress? && s.InProgress? ==>
          && s.context.decisionId == r.context.decisionId && s.context.generation >= r.context.generation
          && (s.context.generation == r.context.generation ==> s.context == r.context))
    && (r.InProgress? && s.Finished? ==>
          && s.lastContext.Some? && s.lastContext.value.decisionId == r.context.decisionId
          && s.lastContext.value.generation >= r.context.generation
          && (s.lastContext.value.generation == r.context.generation ==> s.lastContext.value == r.context))
  }

  lemma StepEvolves(rules: Rules, db: Db, a: Action, id: string)
    requires Inv(rules, db) && id in db.runs
    ensures id in Apply(rules, db, a).runs && RunEvolves(db.runs[id], Apply(rules, db, a).runs[id])
  {
    match a
    case Prepare(req, key, runId, decisionId, now) => PrepareEffect(rules, db, req, key, runId, decisionId, now);
    case Get(_) =>
    case Refresh(x, expected, now) => RefreshEffect(rules, db, x, expected, now);
    case Commit(x, output) =>
      CommitEffect(rules, db, x, output);
      if Decided(rules, db, x, output, Apply(rules, db, a)) {
        DecidedEffect(rules, db, x, output, Apply(rules, db, a));
      }
    case Environment(_) =>
  }

  lemma EvolvesAt(rules: Rules, dbs: seq<Db>, actions: seq<Action>, i: nat, id: string)
    requires Execution(rules, dbs, actions) && i < |actions| && id in dbs[i].runs
    ensures id in dbs[i + 1].runs && RunEvolves(dbs[i].runs[id], dbs[i + 1].runs[id])
  {
    InvHolds(rules, dbs, actions, i);
    StepAt(rules, dbs, actions, i);
    StepEvolves(rules, dbs[i], actions[i], id);
  }

  /** A run keeps its request and decision id, its generation never falls and fixes the context, and
      COMPLETED is absorbing. */
  lemma {:induction false} RunsEvolve(rules: Rules, dbs: seq<Db>, actions: seq<Action>, i: nat, j: nat, id: string)
    requires Execution(rules, dbs, actions) && i <= j < |dbs| && id in dbs[i].runs
    ensures id in dbs[j].runs && RunEvolves(dbs[i].runs[id], dbs[j].runs[id])
    decreases j
  {
    if i < j {
      RunsEvolve(rules, dbs, actions, i, j - 1, id);
      EvolvesAt(rules, dbs, actions, j - 1, id);
    }
  }

  function ContextGeneration(run: Run): Option<int> {
    match run
    case InProgress(_, _, s, _) => Some(s.generation)
    case Finished(_, _, s, _, _) => if s.Some? then Some(s.value.generation) else None
  }

  // A refresh that answers with a prepared context has frozen a new generation.
  predicate EffectiveRefresh(rules: Rules, db: Db, a: Action, id: string) {
    a.Refresh? && a.id == id && RefreshStep(rules, db, id, a.expected, a.now).1.Ok? &&
    RefreshStep(rules, db, id, a.expected, a.now).1.value.Prepared?
  }

  ghost function Refreshes(rules: Rules, dbs: seq<Db>, actions: seq<Action>, k: nat, id: string): nat
    requires |dbs| == |actions| + 1 && k < |dbs|
  {
    if k == 0 then 0
    else Refreshes(rules, dbs, actions, k - 1, id) + if EffectiveRefresh(rules, dbs[k - 1], actions[k - 1], id) then 1 else 0
  }

  lemma IneffectiveKeeps(rules: Rules, db: Db, x: string, expected: Canon, now: int, id: string)
    requires id in db.runs && !EffectiveRefresh(rules, db, Refresh(x, expected, now), id)
    ensures var after := RefreshStep(rules, db, x, expected, now).0;
            id in after.runs && ContextGeneration(after.runs[id]) == ContextGeneration(db.runs[id])
  {
  }

  lemma StepCounts(rules: Rules, db: Db, a: Action, id: string)
    requires Inv(rules, db)
    ensures id in db.runs && !EffectiveRefresh(rules, db, a, id) ==>
              id in Apply(rules, db, a).runs && ContextGeneration(Apply(rules, db, a).runs[id]) == ContextGeneration(db.runs[id])
    ensures id !in db.runs && id in Apply(rules, db, a).runs ==>
              && !EffectiveRefresh(rules, db, a, id)
              && (ContextGeneration(Apply(rules, db, a).runs[id]).None? || ContextGeneration(Apply(rules, db, a).runs[id]) == Some(1))
    ensures id in db.runs && EffectiveRefresh(rules, db, a, id) ==>
              && db.runs[id].InProgress? && id in Apply(rules, db, a).runs
              && ContextGeneration(Apply(rules, db, a).runs[id]) == Some(db.runs[id].context.generation + 1)
  {
    if id in db.runs { StepEvolves(rules, db, a, id); }
    match a
    case Prepare(req, key, runId, decisionId, now) => PrepareEffect(rules, db, req, key, runId, decisionId, now);
    case Get(_) =>
    case Refresh(x, expected, now) =>
      if id in db.runs {
        if !EffectiveRefresh(rules, db, a, id) { IneffectiveKeeps(rules, db, x, expected, now, id); }
      }
    case Commit(x, output) =>
      CommitEffect(rules, db, x, output);
      if Decided(rules, db, x, output, Apply(rules, db, a)) {
        DecidedEffect(rules, db, x, output, Apply(rules, db, a));
      }
    case Environment(_) =>
  }

  // What one step does to the generation of a run's context, if it has one.
  lemma CountsAt(rules: Rules, dbs: seq<Db>, actions: seq<Action>, i: nat, id: string)
    requires Execution(rules, dbs, actions) && i < |actions|
    ensures id in dbs[i].runs ==> id in dbs[i + 1].runs
    ensures id in dbs[i].runs && ContextGeneration(dbs[i].runs[id]).None? ==> ContextGeneration(dbs[i + 1].runs[id]).None?
    ensures id in dbs[i].runs && ContextGeneration(dbs[i].runs[id]).Some? ==>
              ContextGeneration(dbs[i + 1].runs[id]) ==
              Some(ContextGeneration(dbs[i].runs[id]).value + if EffectiveRefresh(rules, dbs[i], actions[i], id) then 1 else 0)
    ensures id !in dbs[i].runs ==> !EffectiveRefresh(rules, dbs[i], actions[i], id)
    ensures id !in dbs[i].runs && id in dbs[i + 1].runs && ContextGeneration(dbs[i + 1].runs[id]).Some? ==>
              ContextGeneration(dbs[i + 1].runs[id]) == Some(1)
  {
    InvHolds(rules, dbs, actions, i);
    StepAt(rules, dbs, actions, i);
    StepCounts(rules, dbs[i], actions[i], id);
  }

  lemma {:induction false} NoRunNoRefresh(rules: Rules, dbs: seq<Db>, actions: seq<Action>, k: nat, id: string)
    requires Execution(rules, dbs, actions) && k < |dbs| && id !in dbs[k].runs
    ensures Refreshes(rules, dbs, actions, k, id) == 0
  {
    if k > 0 {
      CountsAt(rules, dbs, actions, k - 1, id);
      NoRunNoRefresh(rules, dbs, actions, k - 1, id);
    }
  }

  /** The generation of a run's context is one more than the number of its effective refreshes. */
  lemma {:induction false} GenerationCountsRefreshes(rules: Rules, dbs: seq<Db>, actions: seq<Action>, k: nat, id: string)
    requires Execution(rules, dbs, actions) && k < |dbs|
    requires id in dbs[k].runs && ContextGeneration(dbs[k].runs[id]).Some?
    ensures ContextGeneration(dbs[k].runs[id]) == Some(1 + Refreshes(rules, dbs, actions, k, id))
  {
    if k > 0 {
      CountsAt(rules, dbs, actions, k - 1, id);
      if id in dbs[k - 1].runs {
        GenerationCountsRefreshes(rules, dbs, actions, k - 1, id);
      } else {
        NoRunNoRefresh(rules, dbs, actions, k - 1, id);
      }
    }
  }

  lemma FinishedAnswers(rules: Rules, db: Db, id: string, expected: Canon, output: Output, runId: string,
                        decisionId: string, now: int)
    requires Inv(rules, db) && id in db.runs && db.runs[id].Finished?
    ensures var run, done := db.runs[id], Done(id, db.runs[id].result, true);
            && GetStep(db, id) == Ok(done)
            && PrepareStep(rules, db, run.request, run.key, runId, decisionId, now) == (db, Ok((done, false)))
            && RefreshStep(rules, db, id, expected, now) == (db, Ok(done))
            && CommitStep(rules, db, id, output).0 == db
            && CommitStep(rules, db, id, output).1 in
                 {Ok((done.result, true)), Err(IdempotencyConflict), Err(InvalidResult)}
  {
    assert RunSound(rules, id, db.runs[id]) && RunPlaced(db, id, db.runs[id]);
  }

  /** Once completed, every later call answers with the stored result as a replay, or refuses. */
  lemma CompletedAnswers(rules: Rules, dbs: seq<Db>, actions: seq<Action>, i: nat, j: nat, id: string,
                         expected: Canon, output: Output, runId: string, decisionId: string, now: int)
    requires Execution(rules, dbs, actions) && i <= j < |dbs| && id in dbs[i].runs && dbs[i].runs[id].Finished?
    ensures var run, later, done := dbs[i].runs[id], dbs[j], Done(id, dbs[i].runs[id].result, true);
            && GetStep(later, id) == Ok(done)
            && PrepareStep(rules, later, run.request, run.key, runId, decisionId, now) == (later, Ok((done, false)))
            && RefreshStep(rules, later, id, expected, now) == (later, Ok(done))
            && CommitStep(rules, later, id, output).0 == later
            && CommitStep(rules, later, id, output).1 in
                 {Ok((done.result, true)), Err(IdempotencyConflict), Err(InvalidResult)}
  {
    RunsEvolve(rules, dbs, actions, i, j, id);
    InvHolds(rules, dbs, actions, j);
    FinishedAnswers(rules, dbs[j], id, expected, output, runId, decisionId, now);
  }

  // ---------------------------------------------------------------- the real validator and evaluators

  /** With the real evaluators: a committed decision is Go's recomputation, and Python's evaluation
      whenever Python evaluates at all. Its candidates are matched exactly for the organisations that
      the policy makes eligible in the committing transaction's own snapshot, and MATCHED means that
      there is one. */
  lemma CommittedDecisionsMean(dbs: seq<Db>, actions: seq<Action>, k: nat, d: Decision)
    requires Execution(GO_RULES, dbs, actions) && k < |dbs| && d in dbs[k].decisions
    ensures GoOutput(d.snapshot) == Some(d.output)
    ensures PyEvaluate(d.snapshot).Some? ==> PyEvaluate(d.snapshot) == Some(d.output)
    ensures AllMean(d.snapshot, d.output.candidates)
    ensures d.output.outcome == Matched <==> SomeEligible(d.snapshot)
  {
    DecisionsAreCurrent(GO_RULES, dbs, actions, k, d);
    assert GO_RULES.recompute(d.snapshot) == Some(d.output);
    EvaluatorsReturn(d.snapshot);
    RankedMeans(d.snapshot);
    OutcomeMeans(d.snapshot);
  }
}
