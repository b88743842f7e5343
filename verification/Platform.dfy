/** The matching store and the workflow services over the same batches: what the store decides is what
    the workflow records, so that claims rest on the store's own decisions. */
module Platform {
  import opened Wrappers
  import opened BatchCase
  import opened CaseInvariant
  import opened Workflow
  import opened WorkflowRuns
  import opened WorkflowHistories
  import Evaluators
  import MatchingStore
  import StoreRuns

  // One database: the store's tables, and the workflow's view of the same batch and decision rows.
  datatype World = World(store: MatchingStore.Db, flow: Db)

  datatype Move =
    | Matching(call: StoreRuns.Action)
    | Command(invoke: Action)
    | Outside(config: MatchingStore.Config, events: map<string, MatchingStore.Event>)

  // ---------------------------------------------------------------- the rows the two share

  function RowsOf(cs: seq<Evaluators.Candidate>): (rows: seq<MatchedRow>)
    ensures |rows| == |cs|
    ensures forall n :: 0 <= n < |cs| ==> rows[n] == MatchedRow(cs[n].organisationId, cs[n].poolId, cs[n].isMatched)
  {
    seq(|cs|, n requires 0 <= n < |cs| => MatchedRow(cs[n].organisationId, cs[n].poolId, cs[n].isMatched))
  }

  function DecisionRow(d: MatchingStore.Decision): MatchDecision {
    MatchDecision(d.id, d.batchVersion, d.epoch, d.output.outcome == Evaluators.Matched, RowsOf(d.output.candidates))
  }

  // The decisions of one batch, in the order they were recorded.
  function RowsFor(ds: seq<MatchingStore.Decision>, id: string): seq<MatchDecision> {
    if ds == [] then []
    else
      var last := ds[|ds| - 1];
      RowsFor(ds[..|ds| - 1], id) + if last.batchId == id then [DecisionRow(last)] else []
  }

  lemma RowsForSnoc(ds: seq<MatchingStore.Decision>, d: MatchingStore.Decision, id: string)
    ensures RowsFor(ds + [d], id) == RowsFor(ds, id) + if d.batchId == id then [DecisionRow(d)] else []
  {
    assert (ds + [d])[..|ds|] == ds;
  }

  lemma {:induction false} RowsForFrom(ds: seq<MatchingStore.Decision>, id: string, j: nat) returns (n: nat)
    requires j < |RowsFor(ds, id)|
    ensures n < |ds| && ds[n].batchId == id && RowsFor(ds, id)[j] == DecisionRow(ds[n])
  {
    var init := ds[..|ds| - 1];
    if j < |RowsFor(init, id)| {
      n := RowsForFrom(init, id, j);
      assert init[n] == ds[n];
    } else {
      n := |ds| - 1;
    }
  }

  lemma {:induction false} RowsForAt(ds: seq<MatchingStore.Decision>, id: string, n: nat) returns (j: nat)
    requires n < |ds| && ds[n].batchId == id
    ensures j < |RowsFor(ds, id)| && RowsFor(ds, id)[j] == DecisionRow(ds[n])
    ensures j == |RowsFor(ds[..n], id)|
  {
    var init := ds[..|ds| - 1];
    if n < |ds| - 1 {
      assert init[n] == ds[n] && init[..n] == ds[..n];
      j := RowsForAt(init, id, n);
    } else {
      assert ds[..n] == init;
      j := |RowsFor(init, id)|;
    }
  }

  lemma {:induction false} RowsForGrows(ds: seq<MatchingStore.Decision>, id: string, m: nat, n: nat)
    requires m < n <= |ds| && ds[m].batchId == id
    ensures |RowsFor(ds[..m], id)| < |RowsFor(ds[..n], id)|
    decreases n
  {
    assert ds[..n][..n - 1] == ds[..n - 1];
    if m < n - 1 { RowsForGrows(ds, id, m, n - 1); }
  }

  // ---------------------------------------------------------------- runs

  function BatchRows(cases: map<string, Case>): map<string, MatchingStore.BatchRow> {
    map id | id in cases :: RowOf(cases[id])
  }

  function AfterCall(flow: Db, written: Option<MatchingStore.Decision>): Db {
    match written
    case None => flow
    case Some(d) => MatchStep(flow, d.batchId, d.id, d.output.outcome == Evaluators.Matched, RowsOf(d.output.candidates))
  }

  predicate EventsGrow(before: map<string, MatchingStore.Event>, after: map<string, MatchingStore.Event>) {
    forall id :: id in before ==> id in after && after[id] == before[id]
  }

  // The store's calls write batch and decision rows; commands write the same batch rows; the rest of
  // the platform edits the configuration and adds events.
  ghost function Moved(rules: MatchingStore.Rules, p: Checks, w: World, m: Move): World {
    match m
    case Matching(call) =>
      if call.Environment? then w
      else
        var store := StoreRuns.Apply(rules, w.store, call);
        World(store, AfterCall(w.flow, StoreRuns.Written(w.store, store)))
    case Command(invoke) =>
      if !invoke.Invoke? then w
      else
        var flow := Apply(p, w.flow, invoke);
        World(w.store.(batches := BatchRows(flow.cases)), flow)
    case Outside(config, events) =>
      if EventsGrow(w.store.events, events) then w.(store := w.store.(config := config, events := events)) else w
  }

  ghost predicate Started(w: World) {
    && StoreRuns.Initial(w.store) && w.store.batches == map[] && Initial(w.flow)
  }

  ghost predicate Run(rules: MatchingStore.Rules, p: Checks, ws: seq<World>, moves: seq<Move>) {
    && |ws| == |moves| + 1 && Started(ws[0]) && StoreRuns.Faithful(rules)
    && forall i {:trigger Position(i)} :: 0 <= i < |moves| ==> ws[i + 1] == Moved(rules, p, ws[i], moves[i])
  }

  // ---------------------------------------------------------------- the coupling

  predicate BatchCoupled(store: MatchingStore.Db, id: string, c: Case) {
    id in store.batches && store.batches[id] == RowOf(c) && c.decisions == RowsFor(store.decisions, id)
  }

  // Every decision froze the details its batch was submitted with.
  predicate DecisionCoupled(flow: Db, d: MatchingStore.Decision) {
    && d.batchId in flow.cases && flow.cases[d.batchId].details == Some(d.snapshot.content.batch.details)
  }

  ghost predicate Coupled(w: World) {
    && w.store.batches.Keys == w.flow.cases.Keys
    && (forall id {:trigger BatchCoupled(w.store, id, w.flow.cases[id])} ::
          id in w.flow.cases ==> BatchCoupled(w.store, id, w.flow.cases[id]))
    && (forall n {:trigger DecisionCoupled(w.flow, w.store.decisions[n])} ::
          0 <= n < |w.store.decisions| ==> DecisionCoupled(w.flow, w.store.decisions[n]))
  }

  ghost predicate Sound(rules: MatchingStore.Rules, p: Checks, w: World) {
    StoreRuns.Inv(rules, w.store) && Inv(p, w.flow) && Coupled(w)
  }

  // ---------------------------------------------------------------- a store call that decides

  // persistResult and the workflow's own reading of it make the same row.
  lemma DecisionIsMatch(rules: MatchingStore.Rules, store: MatchingStore.Db, call: StoreRuns.Action, c: Case,
                        d: MatchingStore.Decision)
    requires StoreRuns.Inv(rules, store) && !call.Environment? && CaseSound(c)
    requires StoreRuns.WritesDecision(rules, store, call, d)
    requires StoreRuns.Apply(rules, store, call).decisions == store.decisions + [d]
    requires BatchCoupled(store, d.batchId, c)
    ensures var after := StoreRuns.Apply(rules, store, call);
            var next := Decided(c, d.id, d.output.outcome == Evaluators.Matched, RowsOf(d.output.candidates));
            next.Ok? && BatchCoupled(after, d.batchId, next.value) &&
            next.value.details == c.details == Some(d.snapshot.content.batch.details)
  {
    var after := StoreRuns.Apply(rules, store, call);
    StoreRuns.VersionRisesWithMatch(rules, store, call, d.batchId);
    assert StoreRuns.Written(store, after) == Some(d);
    RowsForSnoc(store.decisions, d, d.batchId);
    StoreRuns.DecisionWritten(rules, store, call, d);
  }

  // A batch the call did not decide on.
  lemma OthersCoupled(rules: MatchingStore.Rules, store: MatchingStore.Db, call: StoreRuns.Action, id: string, c: Case)
    requires StoreRuns.Inv(rules, store) && !call.Environment? && BatchCoupled(store, id, c)
    requires var after := StoreRuns.Apply(rules, store, call);
             after.decisions == store.decisions ||
             (|after.decisions| == |store.decisions| + 1 && store.decisions <= after.decisions &&
              after.decisions[|store.decisions|].batchId != id)
    ensures BatchCoupled(StoreRuns.Apply(rules, store, call), id, c)
  {
    var after := StoreRuns.Apply(rules, store, call);
    StoreRuns.VersionRisesWithMatch(rules, store, call, id);
    if after.decisions != store.decisions {
      assert after.decisions == store.decisions + [after.decisions[|store.decisions|]];
      RowsForSnoc(store.decisions, after.decisions[|store.decisions|], id);
    }
  }

  // ---------------------------------------------------------------- every move keeps the coupling

  ghost predicate Writes(rules: MatchingStore.Rules, store: MatchingStore.Db, call: StoreRuns.Action, d: MatchingStore.Decision) {
    && !call.Environment? && StoreRuns.WritesDecision(rules, store, call, d)
    && StoreRuns.Apply(rules, store, call).decisions == store.decisions + [d]
  }

  // What the workflow makes of a decision on a batch that can take it.
  lemma AfterDecision(flow: Db, d: MatchingStore.Decision)
    requires d.batchId in flow.cases
    requires Decided(flow.cases[d.batchId], d.id, d.output.outcome == Evaluators.Matched, RowsOf(d.output.candidates)).Ok?
    ensures var next := Decided(flow.cases[d.batchId], d.id, d.output.outcome == Evaluators.Matched, RowsOf(d.output.candidates));
            AfterCall(flow, Some(d)).cases == flow.cases[d.batchId := next.value]
  {
  }

  // The batch the call decided on.
  lemma DecidedCoupled(rules: MatchingStore.Rules, p: Checks, w: World, call: StoreRuns.Action, d: MatchingStore.Decision)
    requires Sound(rules, p, w) && Writes(rules, w.store, call, d)
    ensures d.batchId in w.flow.cases
    ensures var c, next := w.flow.cases[d.batchId], AfterCall(w.flow, Some(d));
            && next.cases == w.flow.cases[d.batchId := next.cases[d.batchId]]
            && BatchCoupled(StoreRuns.Apply(rules, w.store, call), d.batchId, next.cases[d.batchId])
            && next.cases[d.batchId].details == c.details == Some(d.snapshot.content.batch.details)
  {
    var c := w.flow.cases[d.batchId];
    assert BatchCoupled(w.store, d.batchId, c) && CaseSound(c);
    DecisionIsMatch(rules, w.store, call, c, d);
    AfterDecision(w.flow, d);
  }

  lemma CallCouples(rules: MatchingStore.Rules, p: Checks, w: World, call: StoreRuns.Action, d: MatchingStore.Decision)
    requires Sound(rules, p, w) && Writes(rules, w.store, call, d)
    ensures Coupled(World(StoreRuns.Apply(rules, w.store, call), AfterCall(w.flow, Some(d))))
  {
    var after, flow, next := StoreRuns.Apply(rules, w.store, call), w.flow, AfterCall(w.flow, Some(d));
    DecidedCoupled(rules, p, w, call, d);
    StoreRuns.CallsKeepBatches(rules, w.store, call);
    forall id | id in next.cases ensures BatchCoupled(after, id, next.cases[id]) {
      if id != d.batchId {
        assert BatchCoupled(w.store, id, flow.cases[id]);
        OthersCoupled(rules, w.store, call, id, flow.cases[id]);
      }
    }
    forall n | 0 <= n < |after.decisions| ensures DecisionCoupled(next, after.decisions[n]) {
      if n < |w.store.decisions| { assert DecisionCoupled(flow, w.store.decisions[n]); }
    }
  }

  lemma CallKeeps(rules: MatchingStore.Rules, p: Checks, w: World, call: StoreRuns.Action, d: MatchingStore.Decision)
    requires Sound(rules, p, w) && Writes(rules, w.store, call, d)
    ensures Sound(rules, p, Moved(rules, p, w, Matching(call)))
  {
    StoreRuns.StepKeeps(rules, w.store, call);
    CallCouples(rules, p, w, call, d);
    MatchKeeps(p, w.flow, d.batchId, d.id, d.output.outcome == Evaluators.Matched, RowsOf(d.output.candidates));
  }

  lemma QuietCallKeeps(rules: MatchingStore.Rules, p: Checks, w: World, call: StoreRuns.Action)
    requires Sound(rules, p, w) && !call.Environment?
    requires StoreRuns.Apply(rules, w.store, call).decisions == w.store.decisions
    ensures Sound(rules, p, Moved(rules, p, w, Matching(call)))
  {
    var after := StoreRuns.Apply(rules, w.store, call);
    StoreRuns.StepKeeps(rules, w.store, call);
    StoreRuns.CallsKeepBatches(rules, w.store, call);
    forall id | id in w.flow.cases ensures BatchCoupled(after, id, w.flow.cases[id]) {
      assert BatchCoupled(w.store, id, w.flow.cases[id]);
      OthersCoupled(rules, w.store, call, id, w.flow.cases[id]);
    }
    forall n | 0 <= n < |after.decisions| ensures DecisionCoupled(w.flow, after.decisions[n]) {
      assert DecisionCoupled(w.flow, w.store.decisions[n]);
    }
  }

  lemma {:induction false} NoRowsFor(ds: seq<MatchingStore.Decision>, id: string)
    requires forall n :: 0 <= n < |ds| ==> ds[n].batchId != id
    ensures RowsFor(ds, id) == []
  {
    if ds != [] { NoRowsFor(ds[..|ds| - 1], id); }
  }

  // The store sees a command as a step of its environment.
  lemma CommandIsEnvironment(rules: MatchingStore.Rules, p: Checks, w: World, a: Action)
    requires Sound(rules, p, w) && a.Invoke?
    ensures StoreRuns.EnvironmentMay(w.store, w.store.(batches := BatchRows(Apply(p, w.flow, a).cases)))
  {
    var after := Apply(p, w.flow, a);
    StepKeeps(p, w.flow, a);
    forall id | id in w.store.batches
      ensures id in after.cases && StoreRuns.RowEvolves(w.store.batches[id], RowOf(after.cases[id]))
    {
      assert BatchCoupled(w.store, id, w.flow.cases[id]);
      if after.cases[id] != w.flow.cases[id] { AdvanceEvolves(w.flow.cases[id], after.cases[id]); }
    }
  }

  lemma CommandCouples(rules: MatchingStore.Rules, p: Checks, w: World, a: Action, id: string)
    requires Sound(rules, p, w) && a.Invoke? && id in Apply(p, w.flow, a).cases
    ensures var after := Apply(p, w.flow, a); BatchCoupled(w.store.(batches := BatchRows(after.cases)), id, after.cases[id])
  {
    CommandsDecideNothing(p, w.flow, a.meta, a.request, a.oracle, a.draw, id);
    if id in w.flow.cases {
      assert BatchCoupled(w.store, id, w.flow.cases[id]);
    } else {
      forall n | 0 <= n < |w.store.decisions| ensures w.store.decisions[n].batchId != id {
        assert DecisionCoupled(w.flow, w.store.decisions[n]);
      }
      NoRowsFor(w.store.decisions, id);
    }
  }

  // Rows that follow the workflow's batches, with the decisions left alone.
  lemma FlowCoupled(w: World, after: Db)
    requires Coupled(w)
    requires forall id :: id in after.cases ==> BatchCoupled(w.store.(batches := BatchRows(after.cases)), id, after.cases[id])
    requires forall id :: id in w.flow.cases ==>
               id in after.cases && (w.flow.cases[id].details.Some? ==> after.cases[id].details == w.flow.cases[id].details)
    ensures Coupled(World(w.store.(batches := BatchRows(after.cases)), after))
  {
    forall n | 0 <= n < |w.store.decisions| ensures DecisionCoupled(after, w.store.decisions[n]) {
      assert DecisionCoupled(w.flow, w.store.decisions[n]);
    }
  }

  lemma CommandCoupling(rules: MatchingStore.Rules, p: Checks, w: World, a: Action)
    requires Sound(rules, p, w) && a.Invoke?
    ensures var after := Apply(p, w.flow, a); Coupled(World(w.store.(batches := BatchRows(after.cases)), after))
  {
    var after := Apply(p, w.flow, a);
    StepKeeps(p, w.flow, a);
    forall id | id in after.cases ensures BatchCoupled(w.store.(batches := BatchRows(after.cases)), id, after.cases[id]) {
      CommandCouples(rules, p, w, a, id);
    }
    FlowCoupled(w, after);
  }

  lemma StoreFollows(rules: MatchingStore.Rules, p: Checks, w: World, a: Action)
    requires Sound(rules, p, w) && a.Invoke?
    ensures StoreRuns.Inv(rules, w.store.(batches := BatchRows(Apply(p, w.flow, a).cases)))
  {
    CommandIsEnvironment(rules, p, w, a);
    StoreRuns.StepKeeps(rules, w.store, StoreRuns.Environment(w.store.(batches := BatchRows(Apply(p, w.flow, a).cases))));
  }

  lemma CommandKeeps(rules: MatchingStore.Rules, p: Checks, w: World, a: Action)
    requires Sound(rules, p, w) && a.Invoke?
    ensures Sound(rules, p, Moved(rules, p, w, Move.Command(a)))
  {
    var after := Apply(p, w.flow, a);
    assert Moved(rules, p, w, Move.Command(a)) == World(w.store.(batches := BatchRows(after.cases)), after);
    StoreFollows(rules, p, w, a);
    StepKeeps(p, w.flow, a);
    CommandCoupling(rules, p, w, a);
  }

  lemma OutsideKeeps(rules: MatchingStore.Rules, p: Checks, w: World, config: MatchingStore.Config,
                     events: map<string, MatchingStore.Event>)
    requires Sound(rules, p, w) && EventsGrow(w.store.events, events)
    ensures Sound(rules, p, w.(store := w.store.(config := config, events := events)))
  {
    var store := w.store.(config := config, events := events);
    assert StoreRuns.EnvironmentMay(w.store, store);
    StoreRuns.StepKeeps(rules, w.store, StoreRuns.Environment(store));
    forall id | id in w.flow.cases ensures BatchCoupled(store, id, w.flow.cases[id]) {
      assert BatchCoupled(w.store, id, w.flow.cases[id]);
    }
    forall n | 0 <= n < |store.decisions| ensures DecisionCoupled(w.flow, store.decisions[n]) {
      assert DecisionCoupled(w.flow, w.store.decisions[n]);
    }
  }

  lemma MoveKeeps(rules: MatchingStore.Rules, p: Checks, w: World, m: Move)
    requires Sound(rules, p, w)
    ensures Sound(rules, p, Moved(rules, p, w, m))
  {
    match m
    case Matching(call) =>
      if !call.Environment? {
        StoreRuns.StepDecides(rules, w.store, call);
        if StoreRuns.Apply(rules, w.store, call).decisions == w.store.decisions {
          QuietCallKeeps(rules, p, w, call);
        } else {
          var d :| StoreRuns.Apply(rules, w.store, call).decisions == w.store.decisions + [d] &&
                   StoreRuns.WritesDecision(rules, w.store, call, d);
          CallKeeps(rules, p, w, call, d);
        }
      }
    case Command(invoke) => if invoke.Invoke? { CommandKeeps(rules, p, w, invoke); }
    case Outside(config, events) => if EventsGrow(w.store.events, events) { OutsideKeeps(rules, p, w, config, events); }
  }

  /** Along every run of the whole platform both machines keep their invariants, the batch rows are the
      same, and the workflow holds exactly the decisions the store recorded. */
  lemma {:induction false} RunHolds(rules: MatchingStore.Rules, p: Checks, ws: seq<World>, moves: seq<Move>, k: nat)
    requires Run(rules, p, ws, moves) && k < |ws|
    ensures Sound(rules, p, ws[k])
    decreases k
  {
    if k > 0 {
      RunHolds(rules, p, ws, moves, k - 1);
      assert Position(k - 1);
      MoveKeeps(rules, p, ws[k - 1], moves[k - 1]);
    }
  }

  // ---------------------------------------------------------------- what a claim rests on

  // The store's decision behind a claim: the claimant is an eligible organisation of its snapshot,
  // which froze the batch's own details, and the reserved pool is one that takes the batch.
  ghost predicate RestsOnDecision(w: World, k: Claim, r: Reservation, d: MatchingStore.Decision) {
    && d.id == k.decisionId && d.batchId == k.batchId && d.output.outcome == Evaluators.Matched
    && Evaluators.GoOutput(d.snapshot) == Some(d.output)
    && k.batchId in w.flow.cases && w.flow.cases[k.batchId].details == Some(d.snapshot.content.batch.details)
    && exists o :: o in d.snapshot.content.organisations && o.id == k.recycler.org &&
         Evaluators.IsEligible(d.snapshot.content.batch.details, o, d.snapshot.content.evaluationAt) &&
         Evaluators.PoolServes(d.snapshot.content.batch.details, o, Some(r.poolId), d.snapshot.content.evaluationAt)
  }

  predicate MatchedFor(d: MatchingStore.Decision, id: string) {
    d.batchId == id && d.output.outcome == Evaluators.Matched
  }

  // A matched row of a decision is an eligible organisation of its snapshot.
  lemma RowIsEligible(d: MatchingStore.Decision, org: string, n: nat)
    requires Evaluators.GoOutput(d.snapshot) == Some(d.output) && Offers(DecisionRow(d), org, n)
    ensures exists o :: o in d.snapshot.content.organisations && o.id == org &&
              Evaluators.IsEligible(d.snapshot.content.batch.details, o, d.snapshot.content.evaluationAt) &&
              Evaluators.PoolServes(d.snapshot.content.batch.details, o, DecisionRow(d).rows[n].poolId,
                                    d.snapshot.content.evaluationAt)
  {
    var s := d.snapshot;
    Evaluators.RankedMeans(s);
    Evaluators.RankedOrder(s);
    var o := Evaluators.Ranked(s)[n];
    assert Evaluators.Means(d.output.candidates[n], s.content.batch.details, o, s.content.evaluationAt);
    assert o in s.content.organisations;
  }

  // A recorded decision is Go's evaluation of its snapshot.
  lemma RecordedIsEvaluated(store: MatchingStore.Db, n: nat)
    requires StoreRuns.Inv(MatchingStore.GO_RULES, store) && n < |store.decisions|
    ensures Evaluators.GoOutput(store.decisions[n].snapshot) == Some(store.decisions[n].output)
  {
    var d := store.decisions[n];
    assert StoreRuns.DecisionSound(store, d);
    assert StoreRuns.RunSound(MatchingStore.GO_RULES, d.runId, store.runs[d.runId]);
    assert MatchingStore.GO_RULES.recompute(d.snapshot) == Some(d.output);
  }

  // A sound batch holds one matched row, so the store recorded one matched decision for it.
  lemma OneMatchedRow(ds: seq<MatchingStore.Decision>, id: string, c: Case, m: nat, n: nat)
    requires CaseSound(c) && c.decisions == RowsFor(ds, id) && m < |ds| && n < |ds|
    requires MatchedFor(ds[m], id) && MatchedFor(ds[n], id)
    ensures m == n
  {
    var x := RowsForAt(ds, id, m);
    var y := RowsForAt(ds, id, n);
    if m < n { RowsForGrows(ds, id, m, n); }
    if n < m { RowsForGrows(ds, id, n, m); }
  }

  // The decision a claim rests on, and that its batch has no other.
  ghost predicate OnlyDecision(w: World, k: Claim, r: Reservation, n: nat)
    requires n < |w.store.decisions|
  {
    && RestsOnDecision(w, k, r, w.store.decisions[n])
    && forall m :: 0 <= m < |w.store.decisions| && MatchedFor(w.store.decisions[m], k.batchId) ==> m == n
  }

  lemma ClaimRests(p: Checks, w: World, i: nat) returns (n: nat)
    requires Sound(MatchingStore.GO_RULES, p, w) && i < |w.flow.claims|
    ensures |w.flow.reservations| == |w.flow.claims| && n < |w.store.decisions|
    ensures OnlyDecision(w, w.flow.claims[i], w.flow.reservations[i], n)
  {
    var claim, reservation := w.flow.claims[i], w.flow.reservations[i];
    var id, ds := claim.batchId, w.store.decisions;
    assert ClaimSound(p, w.flow, claim, reservation);
    var c := w.flow.cases[id];
    assert CaseSound(c) && BatchCoupled(w.store, id, c);
    var j :| 0 <= j < |c.decisions| && Backs(c.decisions[j], claim, reservation);
    n := RowsForFrom(ds, id, j);
    RecordedIsEvaluated(w.store, n);
    assert DecisionCoupled(w.flow, ds[n]);
    var row: nat :| Offers(c.decisions[j], claim.recycler.org, row) && c.decisions[j].rows[row].poolId == Some(reservation.poolId);
    RowIsEligible(ds[n], claim.recycler.org, row);
    forall m | 0 <= m < |ds| && MatchedFor(ds[m], id) ensures m == n {
      OneMatchedRow(ds, id, c, m, n);
    }
  }

  /** Every claim, in every run of the platform, rests on the one MATCHED decision the matching store
      recorded for its batch; the claimant is one of that decision's eligible organisations, and the
      claim reserved a pool of it that takes the batch. */
  lemma ClaimsRestOnDecisions(p: Checks, ws: seq<World>, moves: seq<Move>, k: nat, i: nat)
    requires Run(MatchingStore.GO_RULES, p, ws, moves) && k < |ws| && i < |ws[k].flow.claims|
    ensures |ws[k].flow.reservations| == |ws[k].flow.claims|
    ensures exists n: nat :: n < |ws[k].store.decisions| &&
              OnlyDecision(ws[k], ws[k].flow.claims[i], ws[k].flow.reservations[i], n)
  {
    RunHolds(MatchingStore.GO_RULES, p, ws, moves, k);
    var n := ClaimRests(p, ws[k], i);
  }
}
