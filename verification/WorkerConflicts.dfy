/** A worker whose run another client commits: a step of a job dropped in a rebalance runs on, so two
    workers can hold one run. */
module WorkerConflicts {
  import opened Wrappers
  import opened Vocabulary
  import opened Evaluators
  import opened MatchingStore
  import opened StoreRuns
  import opened MatchingWorker
  import opened WorkerRuns
  import opened WorkerProgress

  // What the worker compares of a committed result with the output it holds.
  predicate SameConclusion(o: Output, p: Output) {
    o.outcome == p.outcome && o.evaluatedCount == p.evaluatedCount && o.eligibleCount == p.eligibleCount
  }

  // The worker holds an output of a run that is committed, with this output or with another.
  predicate Preempted(w: World) {
    && w.delivery.stage in {CommitStage, ResolveStage} && Consistent(w.delivery) && !w.delivery.refreshAllowed
    && w.delivery.output.Some? && w.delivery.runId.value in w.db.runs
    && var run := w.db.runs[w.delivery.runId.value];
       && RunCommitted(run) && run.request == RequestOf(w.delivery.event.value) && run.accepted.Some?
       && run.lastContext.Some? && run.lastContext.value.decisionId == w.delivery.output.value.decisionId
  }

  predicate Agreed(w: World)
    requires Preempted(w)
  {
    SameConclusion(w.db.runs[w.delivery.runId.value].accepted.value, w.delivery.output.value)
  }

  // The check of the committed result against the held output is the comparison of the two conclusions.
  lemma ResultJudged(rules: Rules, id: string, run: Run, e: Event, output: Output)
    requires Sane(rules) && RunSound(rules, id, run) && RunCommitted(run) && run.request == RequestOf(e)
    requires run.lastContext.value.decisionId == output.decisionId
    ensures CheckResult(run.result, e, id, Some(output)) ==
            if SameConclusion(run.accepted.value, output) then Some(CommittedRun) else None
  {
    ResultPasses(rules, id, run, e, None);
  }

  lemma OtherKeepsPreempted(rules: Rules, s: Settings, w: World, a: Action, v: World)
    requires Inv(rules, w.db) && Preempted(w) && Acts(rules, s, w, Other(a), v)
    ensures Inv(rules, v.db) && v.delivery == w.delivery && Preempted(v) && Agreed(v) == Agreed(w)
  {
    StoreRuns.StepKeeps(rules, w.db, a);
    StepEvolves(rules, w.db, a, w.delivery.runId.value);
  }

  // What one step of the worker makes of a preempted world.
  ghost predicate Unmoved(w: World, v: World) {
    && v.db == w.db && v.delivery.runId == w.delivery.runId && v.delivery.output == w.delivery.output
    && v.delivery.event == w.delivery.event && v.delivery.refreshAllowed == w.delivery.refreshAllowed
    && v.delivery.stage == ResolveStage && Consistent(v.delivery)
  }

  lemma CommitWhilePreempted(rules: Rules, s: Settings, w: World, fate: Fate, draw: Draw, v: World)
    requires Preempted(w) && w.delivery.stage == CommitStage && Acts(rules, s, w, Worker(fate, draw), v)
    requires var id := w.delivery.runId.value;
             CheckResult(w.db.runs[id].result, w.delivery.event.value, id, w.delivery.output) ==
             if Agreed(w) then Some(CommittedRun) else None
    ensures Unmoved(w, v) || (v.delivery.stage == DoneStage && Agreed(w) && fate == Answered)
  {
  }

  lemma ResolveWhilePreempted(rules: Rules, s: Settings, w: World, fate: Fate, draw: Draw, v: World)
    requires Preempted(w) && w.delivery.stage == ResolveStage && Acts(rules, s, w, Worker(fate, draw), v)
    requires var id := w.delivery.runId.value;
             CheckResult(w.db.runs[id].result, w.delivery.event.value, id, w.delivery.output) ==
             if Agreed(w) then Some(CommittedRun) else None
    ensures !Agreed(w) || fate != Answered ==> Unmoved(w, v)
    ensures Agreed(w) && fate == Answered ==> v.delivery.stage == DoneStage
    ensures !Agreed(w) && fate == Answered ==> v.incident == InvalidFacadeResponse
  {
  }

  lemma WorkerWhilePreempted(rules: Rules, s: Settings, w: World, fate: Fate, draw: Draw, v: World)
    requires Sane(rules) && Inv(rules, w.db) && Preempted(w) && Acts(rules, s, w, Worker(fate, draw), v)
    ensures Unmoved(w, v) || (v.delivery.stage == DoneStage && Agreed(w))
    ensures fate == Answered && w.delivery.stage == ResolveStage ==>
              if Agreed(w) then v.delivery.stage == DoneStage else v.incident == InvalidFacadeResponse
  {
    var id := w.delivery.runId.value;
    assert RunSound(rules, id, w.db.runs[id]);
    ResultJudged(rules, id, w.db.runs[id], w.delivery.event.value, w.delivery.output.value);
    if w.delivery.stage == CommitStage {
      CommitWhilePreempted(rules, s, w, fate, draw, v);
    } else {
      ResolveWhilePreempted(rules, s, w, fate, draw, v);
    }
  }

  // One happening: a worker that disagrees stays, one that agrees is done after at most two answers.
  lemma PreemptedStep(rules: Rules, s: Settings, w: World, e: Happening, v: World)
    requires Sane(rules) && Inv(rules, w.db) && Preempted(w) && Acts(rules, s, w, e, v)
    ensures Inv(rules, v.db)
    ensures v.delivery.stage != DoneStage ==> Preempted(v) && Agreed(v) == Agreed(w)
    ensures v.delivery.stage == DoneStage ==> Agreed(w)
    ensures e.Worker? && v.delivery.stage != DoneStage ==> v.delivery.stage == ResolveStage
    ensures e.Worker? && e.fate == Answered && w.delivery.stage == ResolveStage ==>
              if Agreed(w) then v.delivery.stage == DoneStage else v.incident == InvalidFacadeResponse
  {
    match e
    case Other(a) => OtherKeepsPreempted(rules, s, w, a, v);
    case Worker(fate, draw) => WorkerWhilePreempted(rules, s, w, fate, draw, v);
  }

  lemma DoneRests(rules: Rules, s: Settings, w: World, e: Happening, v: World)
    requires w.delivery.stage == DoneStage && Acts(rules, s, w, e, v)
    ensures v.delivery.stage == DoneStage
  {
  }

  /** A worker that holds another conclusion than its run was committed with is stuck for ever, whatever
      becomes of its calls and whatever others do: it never leaves RESOLVE once there, and every
      answer it gets there it reports as an invalid reply. */
  lemma {:induction false} ForeignCommitSticks(rules: Rules, s: Settings, ws: seq<World>, es: seq<Happening>, k: nat)
    requires Sane(rules) && Happens(rules, s, ws, es) && k < |ws|
    requires Inv(rules, ws[0].db) && Preempted(ws[0]) && !Agreed(ws[0])
    ensures Inv(rules, ws[k].db) && Preempted(ws[k]) && !Agreed(ws[k])
    ensures 0 < k && es[k - 1].Worker? ==> ws[k].delivery.stage == ResolveStage
    ensures 0 < k && es[k - 1].Worker? && es[k - 1].fate == Answered && ws[k - 1].delivery.stage == ResolveStage ==>
              ws[k].incident == InvalidFacadeResponse
  {
    if k > 0 {
      ForeignCommitSticks(rules, s, ws, es, k - 1);
      assert Position(k - 1);
      PreemptedStep(rules, s, ws[k - 1], es[k - 1], ws[k]);
    }
  }

  // How many answered steps a preempted worker that agrees still needs.
  lemma {:induction false} AgreedEnds(rules: Rules, s: Settings, ws: seq<World>, es: seq<Happening>, k: nat)
    requires Sane(rules) && Happens(rules, s, ws, es) && k < |ws|
    requires forall i :: 0 <= i < |es| ==> es[i].Worker? && es[i].fate == Answered
    requires Inv(rules, ws[0].db) && Preempted(ws[0]) && Agreed(ws[0])
    ensures ws[k].delivery.stage != DoneStage ==>
              && Inv(rules, ws[k].db) && Preempted(ws[k]) && Agreed(ws[k]) && k < 2
              && (k == 1 ==> ws[k].delivery.stage == ResolveStage)
  {
    if k > 0 {
      AgreedEnds(rules, s, ws, es, k - 1);
      assert Position(k - 1);
      if ws[k - 1].delivery.stage == DoneStage {
        DoneRests(rules, s, ws[k - 1], es[k - 1], ws[k]);
      } else {
        PreemptedStep(rules, s, ws[k - 1], es[k - 1], ws[k]);
      }
    }
  }

  /** With its calls answered, a worker whose run is committed is done after two steps exactly if it
      holds the committed conclusion: outcome, evaluated count and eligible count. */
  lemma ForeignCommitEnds(rules: Rules, s: Settings, ws: seq<World>, es: seq<Happening>, k: nat)
    requires Sane(rules) && Happens(rules, s, ws, es) && 2 <= k < |ws|
    requires forall i :: 0 <= i < |es| ==> es[i].Worker? && es[i].fate == Answered
    requires Inv(rules, ws[0].db) && Preempted(ws[0])
    ensures ws[k].delivery.stage == DoneStage <==> Agreed(ws[0])
  {
    if Agreed(ws[0]) {
      AgreedEnds(rules, s, ws, es, k);
    } else {
      ForeignCommitSticks(rules, s, ws, es, k);
    }
  }

  // What others do to the worker's run, whatever they call.
  lemma {:induction false} OthersEvolve(rules: Rules, s: Settings, ws: seq<World>, es: seq<Happening>, k: nat, id: string)
    requires Happens(rules, s, ws, es) && k < |ws| && (forall i :: 0 <= i < |es| ==> es[i].Other?)
    requires Inv(rules, ws[0].db) && id in ws[0].db.runs
    ensures ws[k].delivery == ws[0].delivery && Inv(rules, ws[k].db) && id in ws[k].db.runs
    ensures RunEvolves(ws[0].db.runs[id], ws[k].db.runs[id])
  {
    if k > 0 {
      OthersEvolve(rules, s, ws, es, k - 1, id);
      assert Position(k - 1);
      StoreRuns.StepKeeps(rules, ws[k - 1].db, es[k - 1].action);
      StepEvolves(rules, ws[k - 1].db, es[k - 1].action, id);
    }
  }

  lemma EvolvedPreempts(rules: Rules, s: Settings, db: Db, w: World, id: string)
    requires Fit(rules, s) && Joint(rules, s, db, w.delivery) && w.delivery.stage == CommitStage && w.delivery.runId == Some(id)
    requires db.runs[id].InProgress? && Inv(rules, w.db) && id in w.db.runs && RunEvolves(db.runs[id], w.db.runs[id])
    requires RunCommitted(w.db.runs[id])
    ensures Preempted(w)
  {
    assert RunSound(rules, id, w.db.runs[id]);
  }

  /** A worker about to commit comes to this whenever others, refreshing and committing as they like,
      end its run as committed. */
  lemma OthersPreempt(rules: Rules, s: Settings, ws: seq<World>, es: seq<Happening>, k: nat)
    requires Fit(rules, s) && Happens(rules, s, ws, es) && k < |ws| && (forall i :: 0 <= i < |es| ==> es[i].Other?)
    requires Joint(rules, s, ws[0].db, ws[0].delivery) && ws[0].delivery.stage == CommitStage
    requires ws[0].db.runs[ws[0].delivery.runId.value].InProgress?
    ensures var id := ws[0].delivery.runId.value;
            && ws[k].delivery == ws[0].delivery && Inv(rules, ws[k].db) && id in ws[k].db.runs
            && (RunCommitted(ws[k].db.runs[id]) ==> Preempted(ws[k]))
  {
    var id := ws[0].delivery.runId.value;
    OthersEvolve(rules, s, ws, es, k, id);
    if RunCommitted(ws[k].db.runs[id]) { EvolvedPreempts(rules, s, ws[0].db, ws[k], id); }
  }

  // The refresh of a stale run at this instant, by whoever asks.
  lemma StaleRefreshed(rules: Rules, db: Db, id: string, at: int)
    requires Inv(rules, db) && id in db.runs && db.runs[id].InProgress? && db.runs[id].request.batchId in db.batches
    requires StateMatches(db.batches[db.runs[id].request.batchId], db.runs[id].request)
    requires db.runs[id].staleHash == Some(db.runs[id].context.inputHash)
    requires Refrozen(rules, db, id, db.runs[id].context.generation + 1, at).Ok?
    ensures var run, frozen := db.runs[id], Refrozen(rules, db, id, db.runs[id].context.generation + 1, at).value;
            && RefreshStep(rules, db, id, run.context.inputHash, at).0 == Store(db, id, InProgress(run.key, run.request, frozen, None))
            && frozen.decisionId == run.context.decisionId && frozen.generation == run.context.generation + 1
            && frozen.content.evaluationAt == at
            && Refrozen(rules, Store(db, id, InProgress(run.key, run.request, frozen, None)), id, frozen.generation, at) == Ok(frozen)
  {
    assert RunSound(rules, id, db.runs[id]);
    RefrozenContext(rules, db, id, db.runs[id].context.generation + 1, at);
  }

  // The commit of the store's own recomputation of a current context.
  lemma CurrentCommitted(rules: Rules, db: Db, id: string, o: Output)
    requires Inv(rules, db) && id in db.runs && db.runs[id].InProgress? && DecisionIdFree(db, db.runs[id].context.decisionId)
    requires var run := db.runs[id];
             && run.request.batchId in db.batches && StateMatches(db.batches[run.request.batchId], run.request)
             && Refrozen(rules, db, id, run.context.generation, run.context.content.evaluationAt) == Ok(run.context)
             && rules.recompute(run.context) == Some(o) && SchemaOutput(o) && o.runId == id
             && o.inputHash == run.context.inputHash && o.generation == run.context.generation
             && (o.outcome == Matched ==> db.batches[run.request.batchId].version < MAX_UINT32)
    ensures var run, after := db.runs[id], CommitStep(rules, db, id, o).0;
            && id in after.runs && RunCommitted(after.runs[id]) && after.runs[id].request == run.request
            && after.runs[id].accepted == Some(o) && after.runs[id].lastContext == Some(run.context)
  {
    var run := db.runs[id];
    assert RunSound(rules, id, run) && RunPlaced(db, id, run);
    DecisionFree(rules, db, id, DecisionOf(id, run.request, db.batches[run.request.batchId], run.context, o));
  }

  // A stale run whose refresh at this instant the store itself would evaluate to this output.
  ghost predicate Reconcludes(rules: Rules, db: Db, id: string, at: int, o: Output) {
    && id in db.runs && db.runs[id].InProgress?
    && var run := db.runs[id];
       && run.staleHash == Some(run.context.inputHash) && run.request.batchId in db.batches
       && StateMatches(db.batches[run.request.batchId], run.request) && DecisionIdFree(db, run.context.decisionId)
       && var frozen := Refrozen(rules, db, id, run.context.generation + 1, at);
          && frozen.Ok? && rules.recompute(frozen.value) == Some(o) && SchemaOutput(o) && o.runId == id
          && o.inputHash == frozen.value.inputHash && o.generation == frozen.value.generation
          && (o.outcome == Matched ==> db.batches[run.request.batchId].version < MAX_UINT32)
  }

  // Both calls of the other client.
  lemma RefreshedAndCommitted(rules: Rules, db: Db, id: string, at: int, o: Output, after: Db, last: Db)
    requires Inv(rules, db) && Reconcludes(rules, db, id, at, o)
    requires after == RefreshStep(rules, db, id, db.runs[id].context.inputHash, at).0
    requires last == CommitStep(rules, after, id, o).0
    ensures id in last.runs && RunCommitted(last.runs[id]) && last.runs[id].request == db.runs[id].request
    ensures last.runs[id].accepted == Some(o) && last.runs[id].lastContext.Some?
    ensures last.runs[id].lastContext.value.decisionId == db.runs[id].context.decisionId
  {
    StoreRuns.StepKeeps(rules, db, Refresh(id, db.runs[id].context.inputHash, at));
    StaleRefreshed(rules, db, id, at);
    CurrentCommitted(rules, after, id, o);
  }

  /** How a worker about to commit on a stale run gets there: another client refreshes the run at an
      instant where the store's own evaluation concludes otherwise, and commits that. */
  lemma OthersDisagree(rules: Rules, s: Settings, w: World, at: int, o: Output, v: World, u: World)
    requires Fit(rules, s) && Joint(rules, s, w.db, w.delivery) && w.delivery.stage == CommitStage
    requires Reconcludes(rules, w.db, w.delivery.runId.value, at, o) && !SameConclusion(o, w.delivery.output.value)
    requires Acts(rules, s, w, Other(Refresh(w.delivery.runId.value, w.delivery.context.value.inputHash, at)), v)
    requires Acts(rules, s, v, Other(Commit(w.delivery.runId.value, o)), u)
    ensures Preempted(u) && !Agreed(u)
  {
    RefreshedAndCommitted(rules, w.db, w.delivery.runId.value, at, o, v.db, u.db);
  }
}
