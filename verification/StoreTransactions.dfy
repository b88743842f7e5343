/** The store's transactions as they run: rows are read and rewritten in place, an error rolls back. */
module StoreTransactions {
  import opened Wrappers
  import opened Vocabulary
  import opened Snapshots
  import opened Evaluators
  import opened MatchingStore

  lemma EffectiveSnoc(rows: seq<RuleRow>, at: int, i: nat)
    requires i < |rows|
    ensures EffectiveRules(rows[..i + 1], at) ==
            EffectiveRules(rows[..i], at) + if Effective(rows[i], at) then [rows[i].rule] else []
  {
    assert rows[..i + 1][..i] == rows[..i];
  }

  lemma {:induction false} EffectiveGrows(rows: seq<RuleRow>, at: int, i: nat)
    requires i <= |rows|
    ensures |EffectiveRules(rows, at)| >= |EffectiveRules(rows[..i], at)|
    decreases |rows| - i
  {
    if i < |rows| {
      EffectiveSnoc(rows, at, i);
      EffectiveGrows(rows, at, i + 1);
    } else {
      assert rows[..i] == rows;
    }
  }

  lemma OwnedSnoc<T>(rows: seq<(string, T)>, id: string, i: nat)
    requires i < |rows|
    ensures Owned(rows[..i + 1], id) == Owned(rows[..i], id) + if rows[i].0 == id then [rows[i].1] else []
  {
    assert rows[..i + 1][..i] == rows[..i];
  }

  lemma ActiveSnoc(c: Config, rows: seq<OrgRow>, i: nat)
    requires i < |rows|
    ensures ActiveOrganisations(c, rows[..i + 1]) ==
            ActiveOrganisations(c, rows[..i]) + if Approved?(rows[i]) then [Assemble(c, rows[i].id)] else []
  {
    assert rows[..i + 1][..i] == rows[..i];
  }

  /** The rows of one table that belong to one organisation, in scan order. */
  method CollectOwned<T>(rows: seq<(string, T)>, id: string) returns (r: seq<T>)
    ensures r == Owned(rows, id)
  {
    r := [];
    for i := 0 to |rows|
      invariant r == Owned(rows[..i], id)
    {
      OwnedSnoc(rows, id, i);
      if rows[i].0 == id { r := r + [rows[i].1]; }
    }
    assert rows[..|rows|] == rows;
  }

  /** The profile loop overwrites: the last row of the organisation stays. */
  method LastProfile(rows: seq<(string, Profile)>, id: string) returns (r: Option<Profile>)
    ensures var own := Owned(rows, id); r == if own == [] then None else Some(own[|own| - 1])
  {
    r := None;
    for i := 0 to |rows|
      invariant var own := Owned(rows[..i], id); r == if own == [] then None else Some(own[|own| - 1])
    {
      OwnedSnoc(rows, id, i);
      if rows[i].0 == id { r := Some(rows[i].1); }
    }
    assert rows[..|rows|] == rows;
  }

  /** The one effective rule set, or UNSUPPORTED_RULE_SET. */
  method EffectiveRule(rows: seq<RuleRow>, at: int) returns (r: Option<RuleSet>)
    ensures r == if |EffectiveRules(rows, at)| == 1 then Some(EffectiveRules(rows, at)[0]) else None
  {
    r := None;
    for i := 0 to |rows|
      invariant EffectiveRules(rows[..i], at) == if r.Some? then [r.value] else []
    {
      EffectiveSnoc(rows, at, i);
      if !Effective(rows[i], at) { continue; }
      if r.Some? {
        EffectiveGrows(rows, at, i + 1);
        return None;
      }
      r := Some(rows[i].rule);
    }
    assert rows[..|rows|] == rows;
  }

  method CollectOrganisations(c: Config) returns (r: seq<Organisation>)
    ensures r == ActiveOrganisations(c, c.organisations)
  {
    r := [];
    for i := 0 to |c.organisations|
      invariant r == ActiveOrganisations(c, c.organisations[..i])
    {
      ActiveSnoc(c, c.organisations, i);
      if !Approved?(c.organisations[i]) { continue; }
      var id := c.organisations[i].id;
      var profile := LastProfile(c.profiles, id);
      var pools := CollectOwned(c.pools, id);
      var capabilities := CollectOwned(c.capabilities, id);
      var zones := CollectOwned(c.zones, id);
      r := r + [Organisation(id, profile, capabilities, pools, zones)];
    }
    assert c.organisations[..|c.organisations|] == c.organisations;
  }

  class Store {
    const rules: Rules
    var batches: map<string, BatchRow>
    var events: map<string, Event>
    var config: Config
    var runs: map<string, Run>
    var keys: map<string, string>
    var decisions: seq<Decision>

    ghost function State(): Db
      reads this
    {
      Db(batches, events, config, runs, keys, decisions)
    }

    constructor (rules: Rules, batches: map<string, BatchRow>, events: map<string, Event>, config: Config)
      ensures this.rules == rules && State() == Db(batches, events, config, map[], map[], [])
    {
      this.rules, this.batches, this.events, this.config := rules, batches, events, config;
      this.runs, this.keys, this.decisions := map[], map[], [];
    }

    /** snapshot: everything is read in the caller's transaction, hashed and validated. */
    method Snapshot(b: BatchRow, req: Request, runId: string, decisionId: string, generation: int, at: int)
      returns (r: Result<Snapshots.Snapshot, Code>)
      requires rules.observe == Observed
      ensures r == Freeze(rules, config, b, req, runId, decisionId, generation, at)
    {
      if b.details.None? { return Err(Unavailable); }
      var rule := EffectiveRule(config.rules, at);
      if rule.None? { return Err(UnsupportedRuleSet); }
      var orgs := CollectOrganisations(config);
      var content := NormalContent(Canon(BatchInput(req.batchId, b.version, b.epoch, b.details.value), rule.value, at, orgs));
      assert Observed(config, b, req.batchId, at) == Ok(content);
      var input := Framed(content, req, runId, decisionId, generation);
      if !rules.valid(input) { return Err(Unavailable); }
      return Ok(input);
    }

    // UPDATE or INSERT of one command row.
    method Save(id: string, run: Run)
      modifies this`runs, this`keys
      ensures State() == MatchingStore.Store(old(State()), id, run)
    {
      runs := runs[id := run];
      keys := keys[run.key := id];
    }

    method Prepare(req: Request, key: string, runId: string, decisionId: string, now: int)
      returns (r: Result<(Reply, bool), Code>)
      requires rules.observe == Observed
      modifies this`runs, this`keys
      ensures (State(), r) == PrepareStep(rules, old(State()), req, key, runId, decisionId, now)
    {
      if !ValidPrepare(req, key) { return Err(InvalidContract); }
      if key in keys && keys[key] in runs {
        var id := keys[key];
        if runs[id].request != req { return Err(IdempotencyConflict); }
        return Ok((RunReply(id, runs[id], true), false));
      }
      if req.batchId !in batches {
        return Err(if req.trigger.kind == RequestSubmitted then InvalidContract else NotFound);
      }
      if req.trigger.kind == RequestSubmitted {
        if req.trigger.id !in events || req.event != Some(events[req.trigger.id]) ||
          events[req.trigger.id].batchId != req.batchId
        {
          return Err(InvalidContract);
        }
      }
      r := Create(req, key, runId, decisionId, now);
    }

    // The row is inserted first; an error on the way leaves nothing behind.
    method Create(req: Request, key: string, runId: string, decisionId: string, now: int)
      returns (r: Result<(Reply, bool), Code>)
      requires rules.observe == Observed && req.batchId in batches
      modifies this`runs, this`keys
      ensures (State(), r) == CreateRun(rules, old(State()), req, key, runId, decisionId, now)
    {
      if runId in runs { return Err(Unavailable); }
      var b := batches[req.batchId];
      var run;
      if !StateMatches(b, req) {
        run := Finished(key, req, None, None, SkippedResult(runId, req));
      } else {
        var input := Snapshot(b, req, runId, decisionId, 1, now);
        if input.Err? { return Err(input.error); }
        if req.trigger.kind == RequestSubmitted && req.event.Some? &&
          req.event.value.details != input.value.content.batch.details
        {
          return Err(InvalidContract);
        }
        run := InProgress(key, req, input.value, None);
      }
      Save(runId, run);
      return Ok((RunReply(runId, run, false), true));
    }

    method Get(id: string) returns (r: Result<Reply, Code>)
      ensures r == GetStep(State(), id)
    {
      if id !in runs { return Err(NotFound); }
      return Ok(RunReply(id, runs[id], true));
    }

    method Refresh(id: string, expected: Canon, now: int) returns (r: Result<Reply, Code>)
      requires rules.observe == Observed
      modifies this`runs, this`keys
      ensures (State(), r) == RefreshStep(rules, old(State()), id, expected, now)
    {
      if id !in runs { return Err(NotFound); }
      var run := runs[id];
      if run.Finished? { return Ok(RunReply(id, run, true)); }
      if run.context.inputHash != expected { return Err(StaleContext); }
      if run.request.batchId !in batches { return Err(NotFound); }
      var b := batches[run.request.batchId];
      if !StateMatches(b, run.request) {
        Save(id, Finished(run.key, run.request, Some(run.context), None, SkippedResult(id, run.request)));
        return Ok(Done(id, SkippedResult(id, run.request), false));
      }
      if run.staleHash != Some(expected) { return Err(StateConflict); }
      var input := Snapshot(b, run.request, id, run.context.decisionId, run.context.generation + 1, now);
      if input.Err? { return Err(input.error); }
      Save(id, InProgress(run.key, run.request, input.value, None));
      return Ok(Prepared(id, input.value));
    }

    /** persistResult: nothing is written unless every step of it succeeds. */
    method PersistResult(d: Decision) returns (error: Option<Code>)
      requires d.batchId in batches
      modifies this`decisions, this`batches
      ensures error.Some? ==> State() == old(State()) && Persist(old(State()), d) == Err(error.value)
      ensures error.None? ==> Persist(old(State()), d) == Ok(State())
      ensures batches.Keys == old(batches.Keys)
    {
      for i := 0 to |decisions|
        invariant forall k :: 0 <= k < i ==> decisions[k].id != d.id && decisions[k].trigger != d.trigger
      {
        if decisions[i].id == d.id || decisions[i].trigger == d.trigger { return Some(Unavailable); }
      }
      assert !DecisionTaken(State(), d);
      var b := batches[d.batchId];
      if d.output.outcome == Matched {
        if b.version == MAX_UINT32 { return Some(InvalidResult); }
        batches := batches[d.batchId := b.(status := MatchedBatch, version := b.version + 1)];
      }
      decisions := decisions + [d];
      return None;
    }

    method Commit(id: string, output: Output) returns (r: Result<(RunResult, bool), Code>)
      requires rules.observe == Observed
      modifies this`runs, this`keys, this`decisions, this`batches
      ensures (State(), r) == CommitStep(rules, old(State()), id, output)
    {
      if output.runId != id || !SchemaOutput(output) { return Err(InvalidResult); }
      if id !in runs { return Err(NotFound); }
      var run := runs[id];
      if run.Finished? {
        if run.result.disposition.Committed? && run.accepted != Some(output) { return Err(IdempotencyConflict); }
        return Ok((run.result, true));
      }
      if output.inputHash != run.context.inputHash || output.generation != run.context.generation {
        return Err(StaleContext);
      }
      var expected := rules.recompute(run.context);
      if expected.None? { return Err(InvalidContract); }
      if output != expected.value { return Err(InvalidResult); }
      if run.request.batchId !in batches { return Err(NotFound); }
      if !StateMatches(batches[run.request.batchId], run.request) {
        Save(id, Finished(run.key, run.request, Some(run.context), None, SkippedResult(id, run.request)));
        return Ok((SkippedResult(id, run.request), false));
      }
      r := CommitCurrent(id, output, run);
    }

    // The recheck against a fresh locked snapshot, and the write.
    method CommitCurrent(id: string, output: Output, run: Run) returns (r: Result<(RunResult, bool), Code>)
      requires rules.observe == Observed && run.InProgress? && run.request.batchId in batches
      modifies this`runs, this`keys, this`decisions, this`batches
      ensures (State(), r) == Recheck(rules, old(State()), id, run, output)
    {
      var b := batches[run.request.batchId];
      var current := Snapshot(b, run.request, id, run.context.decisionId, run.context.generation,
                              run.context.content.evaluationAt);
      if current.Err? { return Err(current.error); }
      if current.value.inputHash != run.context.inputHash {
        Save(id, run.(staleHash := Some(run.context.inputHash)));
        return Err(StaleContext);
      }
      var error := PersistResult(DecisionOf(id, run.request, b, run.context, output));
      if error.Some? { return Err(error.value); }
      var result := CommittedResult(id, run.request, run.context, output, batches[run.request.batchId]);
      Save(id, Finished(run.key, run.request, Some(run.context), Some(output), result));
      return Ok((result, false));
    }
  }
}
