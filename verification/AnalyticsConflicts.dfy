/** What the processing worker gets when its batch already holds a result: exactly when its commit is
    accepted, and why a result of another run refuses it for ever. */
module AnalyticsConflicts {
  import opened Wrappers
  import opened Vocabulary
  import opened BatchCase
  import opened CaseInvariant
  import opened Workflow
  import opened WorkflowRuns
  import opened WorkflowHistories
  import opened Completions
  import opened AnalyticsWorker
  import Impact

  // ---------------------------------------------------------------- results stay, and were accepted

  // The result the batch holds, if it holds one, was accepted for the batch's source event.
  predicate ResultAccepted(p: Checks, c: Case) {
    c.results != [] ==> c.source.Some? && p.accepts(c.source.value.data, c.results[0].ack.result)
  }

  // One command leaves the result of a batch alone, or is the acknowledgement that gave it its first.
  lemma ExecuteResults(p: Checks, db: Db, m: Meta, r: Request, o: Oracle, draw: Draw, id: string)
    requires id in db.cases && Execute(p, db, m, r, o, draw).Ok? && Execute(p, db, m, r, o, draw).value.Recorded?
    ensures var after := Execute(p, db, m, r, o, draw).value.db;
            SameResults(db, after, id) ||
            (r.Acknowledge? && r.batchId == id && db.cases[id].results == [] && id in after.cases &&
             db.cases[id].source.Some? && after.cases[id].source == db.cases[id].source &&
             |after.cases[id].results| == 1 && after.cases[id].results[0].ack == r.ack &&
             p.accepts(db.cases[id].source.value.data, r.ack.result))
  {
    if !(r.Acknowledge? && r.batchId == id) { ResultsOnlyByAcknowledge(p, db, m, r, o, draw, id); }
  }

  lemma StepResults(p: Checks, db: Db, a: Action, id: string)
    requires Inv(p, db) && id in db.cases && ResultAccepted(p, db.cases[id])
    ensures var after := Apply(p, db, a);
            && id in after.cases && ResultAccepted(p, after.cases[id])
            && (db.cases[id].results != [] ==> after.cases[id].results == db.cases[id].results)
            && (db.cases[id].source.Some? ==> after.cases[id].source == db.cases[id].source)
  {
    var after := Apply(p, db, a);
    StepKeeps(p, db, a);
    match a
    case Match(batchId, decisionId, matched, rows) => MatchResults(db, batchId, decisionId, matched, rows, id);
    case Invoke(m, r, o, draw) =>
      if after != db {
        CallWrites(p, db, m, r, o, draw);
        ExecuteResults(p, db, m, r, o, draw, id);
      }
    if db.cases[id].source.Some? { SourceStaysHeld(db.cases[id], after.cases[id], db.cases[id].source.value); }
  }

  lemma Creation(p: Checks, db: Db, m: Meta, columns: Columns, o: Oracle, draw: Draw, id: string)
    requires Execute(p, db, m, CreateDraft(columns), o, draw).Ok? && id !in db.cases
    requires id in Execute(p, db, m, CreateDraft(columns), o, draw).value.db.cases
    ensures Execute(p, db, m, CreateDraft(columns), o, draw).value.db.cases[id].results == []
  {
  }

  lemma NewBatch(p: Checks, db: Db, a: Action, id: string)
    requires id !in db.cases && id in Apply(p, db, a).cases
    ensures Apply(p, db, a).cases[id].results == []
  {
    match a
    case Match(_, _, _, _) =>
    case Invoke(m, r, o, draw) =>
      CallWrites(p, db, m, r, o, draw);
      OnlyCreationAdds(p, db, m, r, o, draw, id);
      Creation(p, db, m, r.columns, o, draw, id);
  }

  lemma {:induction false} AcceptedHolds(p: Checks, dbs: seq<Db>, actions: seq<Action>, k: nat, id: string)
    requires History(p, dbs, actions) && k < |dbs| && id in dbs[k].cases
    ensures ResultAccepted(p, dbs[k].cases[id])
  {
    if k > 0 {
      InvHolds(p, dbs, actions, k - 1);
      StepAt(p, dbs, actions, k - 1);
      if id in dbs[k - 1].cases {
        AcceptedHolds(p, dbs, actions, k - 1, id);
        StepResults(p, dbs[k - 1], actions[k - 1], id);
      } else {
        NewBatch(p, dbs[k - 1], actions[k - 1], id);
      }
    }
  }

  // ---------------------------------------------------------------- exactly when a commit is accepted

  // The worker's request for this event, with a result the service accepts.
  predicate Commits(p: Checks, r: Request, e: Impact.Recycled) {
    && r.Acknowledge? && r.batchId == e.batchId && r.expected == e.aggregateVersion && AckFits(e, r.ack)
    && e.aggregateVersion < MAX_UINT32 && p.accepts(e.data, r.ack.result)
  }

  // The batch as the acknowledgement finds it.
  predicate Answerable(p: Checks, c: Case, e: Impact.Recycled) {
    && c.source == Some(e)
    && if c.results == [] then c.status == Recycled && c.version == e.aggregateVersion
       else
         && c.status == Completed && c.results[0].ack.sourceEventId == e.eventId
         && c.results[0].ack.sourceVersion == e.aggregateVersion && c.results[0].ack.input == Impact.CanonicalInput(e)
         && p.accepts(e.data, c.results[0].ack.result)
  }

  lemma SourceAnswerable(p: Checks, c: Case, e: Impact.Recycled)
    requires CaseSound(c) && c.source == Some(e)
    requires c.results != [] ==> p.accepts(e.data, c.results[0].ack.result)
    ensures Answerable(p, c, e)
  {
  }

  lemma AcknowledgeJudged(p: Checks, db: Db, m: Meta, r: Request, draw: Draw, e: Impact.Recycled)
    requires Commits(p, r, e) && e.batchId in db.cases && Answerable(p, db.cases[e.batchId], e)
    requires db.cases[e.batchId].results != [] ==> db.cases[e.batchId].results[0].ack.result == r.ack.result
    ensures var c, done := db.cases[e.batchId], AcknowledgeStep(p, db, m, r.batchId, r.expected, r.ack, draw);
            && (done.Ok? <==> c.results == [] || c.results[0].ack.runId == r.ack.runId)
            && (done.Err? ==> done == Err(IdempotencyConflict))
  {
    var c := db.cases[e.batchId];
    if c.results == [] { assert AckGuard(c, r.expected, r.ack, p.accepts).None?; }
  }

  // The real service accepts one result for an event.
  lemma OneResult(p: Checks, c: Case, r: Request, e: Impact.Recycled)
    requires RealChecks(p) && Commits(p, r, e) && Answerable(p, c, e) && c.results != []
    ensures c.results[0].ack.result == r.ack.result
  {
    Impact.AcceptedResultUnique(e.data, c.results[0].ack.result, r.ack.result);
  }

  // An admitted first acknowledgement is answered by its transaction.
  lemma AcknowledgeAnswered(p: Checks, db: Db, m: Meta, r: Request, o: Oracle, draw: Draw)
    requires r.Acknowledge? && KeyOf(m, r) !in db.commands && o.requestOk && o.actorOk
    ensures var done, answer := AcknowledgeStep(p, db, m, r.batchId, r.expected, r.ack, draw), Call(p, db, m, r, o, draw).1;
            (answer.Ok? <==> done.Ok?) && (done.Err? ==> answer == Err(done.error))
  {
  }

  /** In every history under the real validations: an admitted commit of the worker, under its unused
      key, succeeds if and only if the batch holds no result yet, or holds the result of the same run;
      any other commit is a conflict. */
  lemma CommitAccepted(p: Checks, dbs: seq<Db>, actions: seq<Action>, i: nat, e: Impact.Recycled)
    requires RealChecks(p) && History(p, dbs, actions) && i < |actions| && actions[i].Invoke? && Commits(p, actions[i].request, e)
    requires e.batchId in dbs[i].cases && dbs[i].cases[e.batchId].source == Some(e)
    requires KeyOf(actions[i].meta, actions[i].request) !in dbs[i].commands
    requires actions[i].oracle.requestOk && actions[i].oracle.actorOk
    ensures var results := dbs[i].cases[e.batchId].results;
            && (AnswerAt(p, dbs, actions, i).Ok? <==> results == [] || results[0].ack.runId == actions[i].request.ack.runId)
            && (AnswerAt(p, dbs, actions, i).Err? ==> AnswerAt(p, dbs, actions, i) == Err(IdempotencyConflict))
  {
    var a := actions[i];
    InvHolds(p, dbs, actions, i);
    AcceptedHolds(p, dbs, actions, i, e.batchId);
    assert CaseSound(dbs[i].cases[e.batchId]);
    SourceAnswerable(p, dbs[i].cases[e.batchId], e);
    if dbs[i].cases[e.batchId].results != [] { OneResult(p, dbs[i].cases[e.batchId], a.request, e); }
    AcknowledgeJudged(p, dbs[i], a.meta, a.request, a.draw, e);
    AcknowledgeAnswered(p, dbs[i], a.meta, a.request, a.oracle, a.draw);
  }

  // ---------------------------------------------------------------- a result of another run

  // The batch holds a result of another run than this request's, and its key is not taken by it.
  predicate Refuses(db: Db, m: Meta, r: Request) {
    && r.Acknowledge? && r.batchId in db.cases && db.cases[r.batchId].results != []
    && db.cases[r.batchId].results[0].ack.sourceEventId == r.ack.sourceEventId
    && db.cases[r.batchId].results[0].ack.runId != r.ack.runId
    && (KeyOf(m, r) in db.commands ==> db.commands[KeyOf(m, r)].request != r)
  }

  lemma RefusedCall(p: Checks, db: Db, m: Meta, r: Request, o: Oracle, draw: Draw)
    requires Refuses(db, m, r)
    ensures Call(p, db, m, r, o, draw).0 == db && Call(p, db, m, r, o, draw).1.Err?
    ensures o.requestOk && o.actorOk ==> Call(p, db, m, r, o, draw).1 == Err(IdempotencyConflict)
  {
  }

  lemma RefusalKept(p: Checks, db: Db, m: Meta, r: Request, a: Action)
    requires Inv(p, db) && Refuses(db, m, r) && ResultAccepted(p, db.cases[r.batchId])
    ensures Refuses(Apply(p, db, a), m, r) && ResultAccepted(p, Apply(p, db, a).cases[r.batchId])
  {
    StepResults(p, db, a, r.batchId);
    match a
    case Match(batchId, decisionId, matched, rows) =>
    case Invoke(n, q, o, draw) =>
      if KeyOf(n, q) == KeyOf(m, r) && q == r {
        RefusedCall(p, db, n, q, o, draw);
      } else {
        CallCommands(p, db, n, q, o, draw);
        if KeyOf(n, q) != KeyOf(m, r) && KeyOf(m, r) in Apply(p, db, a).commands { OtherCommandsKept(p, db, n, q, o, draw, KeyOf(m, r)); }
      }
  }

  /** Once a batch holds a result of another run, every later acknowledgement with this run id, under a
      key that did not hold it, is refused and changes nothing; an admitted one is a conflict. */
  lemma {:induction false} ForeignRunRefuses(p: Checks, dbs: seq<Db>, actions: seq<Action>, i: nat, j: nat, m: Meta, r: Request)
    requires History(p, dbs, actions) && i <= j < |dbs| && Refuses(dbs[i], m, r)
    ensures Refuses(dbs[j], m, r)
    ensures j < |actions| && actions[j].Invoke? && actions[j].meta == m && actions[j].request == r ==>
              && dbs[j + 1] == dbs[j] && AnswerAt(p, dbs, actions, j).Err?
              && (actions[j].oracle.requestOk && actions[j].oracle.actorOk ==>
                    AnswerAt(p, dbs, actions, j) == Err(IdempotencyConflict))
    decreases j
  {
    if i < j {
      ForeignRunRefuses(p, dbs, actions, i, j - 1, m, r);
      InvHolds(p, dbs, actions, j - 1);
      AcceptedHolds(p, dbs, actions, j - 1, r.batchId);
      StepAt(p, dbs, actions, j - 1);
      RefusalKept(p, dbs[j - 1], m, r, actions[j - 1]);
    }
    if j < |actions| && actions[j].Invoke? && actions[j].meta == m && actions[j].request == r {
      StepAt(p, dbs, actions, j);
      RefusedCall(p, dbs[j], m, r, actions[j].oracle, actions[j].draw);
    }
  }

  // ---------------------------------------------------------------- the worker then never ends

  // The worker about to commit what the batch will refuse.
  ghost predicate Doomed(b: Bench, w: World, e: Impact.Recycled, out: Acknowledgement) {
    && Inv(b.checks, w.db) && Refuses(w.db, MetaOf(b, e), RequestOf(e, out))
    && ResultAccepted(b.checks, w.db.cases[e.batchId])
    && w.delivery.stage == CommitStage && w.delivery.event == Some(e) && w.delivery.output == Some(out)
  }

  lemma DoomedMove(b: Bench, w: World, m: Move, e: Impact.Recycled, out: Acknowledgement)
    requires Doomed(b, w, e, out)
    ensures Doomed(b, Moved(b, w, m), e, out) && (m.Work? ==> Moved(b, w, m).db == w.db)
  {
    match m
    case Other(a) =>
      StepKeeps(b.checks, w.db, a);
      RefusalKept(b.checks, w.db, MetaOf(b, e), RequestOf(e, out), a);
    case Work(_, o, draw) => RefusedCall(b.checks, w.db, MetaOf(b, e), RequestOf(e, out), o, draw);
  }

  /** Whatever becomes of its calls and whatever others do, a worker that commits against a result of
      another run stays at COMMIT for ever, and its calls change nothing. */
  lemma {:induction false} ForeignRunSticks(b: Bench, ws: seq<World>, moves: seq<Move>, k: nat, e: Impact.Recycled,
                                            out: Acknowledgement)
    requires |ws| == |moves| + 1 && k < |ws| && Doomed(b, ws[0], e, out)
    requires forall i :: 0 <= i < |moves| && Consistent(ws[i].delivery) ==> ws[i + 1] == Moved(b, ws[i], moves[i])
    ensures Doomed(b, ws[k], e, out) && (0 < k && moves[k - 1].Work? ==> ws[k].db == ws[k - 1].db)
  {
    if k > 0 {
      ForeignRunSticks(b, ws, moves, k - 1, e, out);
      DoomedMove(b, ws[k - 1], moves[k - 1], e, out);
    }
  }
}
