/** What a frozen snapshot holds of the configuration, stated on the rows of the tables alone. */
module Observations {
  import opened Wrappers
  import opened Sorting
  import opened Snapshots
  import opened Evaluators
  import opened MatchingStore
  import opened StoreRuns

  // ---------------------------------------------------------------- the rows an organisation owns

  // As often as it is a row of this owner, and no other.
  ghost predicate ExactlyOf<T(!new)>(rows: seq<(string, T)>, id: string, own: seq<T>) {
    forall x :: multiset(own)[x] == multiset(rows)[(id, x)]
  }

  // The owner's last row, if it has one.
  ghost predicate LastOf<T>(rows: seq<(string, T)>, id: string, own: Option<T>) {
    match own
    case None => forall i :: 0 <= i < |rows| ==> rows[i].0 != id
    case Some(x) => exists i :: 0 <= i < |rows| && rows[i] == (id, x) && forall j :: i < j < |rows| ==> rows[j].0 != id
  }

  // The organisation as the tables describe it.
  ghost predicate Described(c: Config, o: Organisation) {
    && LastOf(c.profiles, o.id, o.profile) && ExactlyOf(c.pools, o.id, o.pools)
    && ExactlyOf(c.capabilities, o.id, o.capabilities) && ExactlyOf(c.zones, o.id, o.zones)
  }

  predicate ActiveFacility(r: OrgRow) { r.isFacility && r.isActive }

  // One described organisation for each active facility among the first n rows, in scan order; picks
  // are their positions.
  ghost predicate Scanned(c: Config, n: nat, picks: seq<nat>, os: seq<Organisation>)
    requires n <= |c.organisations|
  {
    && |picks| == |os|
    && (forall k :: 0 <= k < |picks| ==> picks[k] < n && ActiveFacility(c.organisations[picks[k]]))
    && (forall j, k :: 0 <= j < k < |picks| ==> picks[j] < picks[k])
    && (forall i :: 0 <= i < n && ActiveFacility(c.organisations[i]) ==> i in picks)
    && (forall k :: 0 <= k < |os| ==> os[k].id == c.organisations[picks[k]].id && Described(c, os[k]))
  }

  // The directory of the tables, up to the order of its entries.
  ghost predicate Lists(c: Config, os: seq<Organisation>) {
    exists picks, raw :: Scanned(c, |c.organisations|, picks, raw) && Reordered(raw, os)
  }

  lemma {:induction false} OwnedExactly<T(!new)>(rows: seq<(string, T)>, id: string)
    ensures ExactlyOf(rows, id, Owned(rows, id))
  {
    if rows != [] {
      var n := |rows| - 1;
      OwnedExactly(rows[..n], id);
      assert rows == rows[..n] + [rows[n]];
    }
  }

  lemma {:induction false} OwnedLast<T(!new)>(rows: seq<(string, T)>, id: string)
    ensures var own := Owned(rows, id); LastOf(rows, id, if own == [] then None else Some(own[|own| - 1]))
  {
    if rows != [] {
      var n := |rows| - 1;
      var init, own := Owned(rows[..n], id), Owned(rows, id);
      OwnedLast(rows[..n], id);
      if rows[n].0 == id {
        assert rows[n] == (id, own[|own| - 1]);
      } else if own != [] {
        var i :| 0 <= i < n && rows[..n][i] == (id, own[|own| - 1]) && forall j :: i < j < n ==> rows[..n][j].0 != id;
        assert rows[i] == (id, own[|own| - 1]);
      } else {
        forall i | 0 <= i < |rows| ensures rows[i].0 != id { if i < n { assert rows[..n][i] == rows[i]; } }
      }
    }
  }

  lemma AssembledDescribed(c: Config, id: string)
    ensures Assemble(c, id).id == id && Described(c, Assemble(c, id))
  {
    OwnedLast(c.profiles, id);
    OwnedExactly(c.pools, id);
    OwnedExactly(c.capabilities, id);
    OwnedExactly(c.zones, id);
  }

  lemma {:induction false} ActiveScanned(c: Config, n: nat) returns (picks: seq<nat>)
    requires n <= |c.organisations|
    ensures Scanned(c, n, picks, ActiveOrganisations(c, c.organisations[..n]))
  {
    picks := [];
    if n > 0 {
      var before := ActiveScanned(c, n - 1);
      assert c.organisations[..n][..n - 1] == c.organisations[..n - 1];
      var row := c.organisations[n - 1];
      picks := before;
      if row.isFacility && row.isActive {
        AssembledDescribed(c, row.id);
        picks := before + [n - 1];
      }
      forall i | 0 <= i < n && ActiveFacility(c.organisations[i]) ensures i in picks {
        if i < n - 1 { assert i in before; } else { assert picks[|before|] == n - 1; }
      }
    }
  }

  // ---------------------------------------------------------------- the rule in force

  predicate InForce(r: RuleRow, at: int) {
    r.effectiveFrom <= at && (r.retiredAt.Some? ==> at < r.retiredAt.value)
  }

  // The one row in force, by its position.
  ghost predicate OnlyInForce(rows: seq<RuleRow>, at: int, i: nat) {
    i < |rows| && InForce(rows[i], at) && forall j :: 0 <= j < |rows| && InForce(rows[j], at) ==> j == i
  }

  lemma {:induction false} EffectiveFound(rows: seq<RuleRow>, at: int)
    ensures EffectiveRules(rows, at) == [] <==> forall i :: 0 <= i < |rows| ==> !InForce(rows[i], at)
    ensures |EffectiveRules(rows, at)| == 1 <==> exists i: nat :: OnlyInForce(rows, at, i)
    ensures forall i: nat :: OnlyInForce(rows, at, i) ==> EffectiveRules(rows, at) == [rows[i].rule]
  {
    if rows != [] {
      var n := |rows| - 1;
      var init := rows[..n];
      EffectiveFound(init, at);
      if InForce(rows[n], at) {
        if EffectiveRules(init, at) == [] { assert OnlyInForce(rows, at, n); }
      } else {
        forall i: nat ensures OnlyInForce(rows, at, i) <==> OnlyInForce(init, at, i) {
          if OnlyInForce(init, at, i) {
            forall j | 0 <= j < |rows| && InForce(rows[j], at) ensures j == i { assert init[j] == rows[j]; }
          }
          if OnlyInForce(rows, at, i) {
            assert init[i] == rows[i];
            forall j | 0 <= j < n && InForce(init[j], at) ensures j == i { assert init[j] == rows[j]; }
          }
        }
      }
    }
  }

  // ---------------------------------------------------------------- an observation

  /** An observation succeeds exactly when the batch has its details and one rule set is in force; it
      then records the batch row, the instant, that rule set, and one organisation for each active
      facility, with its last profile and exactly its own pools, capabilities and zones. */
  lemma ObservationExact(c: Config, b: BatchRow, batchId: string, at: int)
    ensures Observed(c, b, batchId, at).Ok? <==> b.details.Some? && exists i: nat :: OnlyInForce(c.rules, at, i)
    ensures Observed(c, b, batchId, at).Err? ==>
              Observed(c, b, batchId, at).error == if b.details.None? then Unavailable else UnsupportedRuleSet
    ensures Observed(c, b, batchId, at).Ok? ==>
              var content := Observed(c, b, batchId, at).value;
              && content.batch == BatchInput(batchId, b.version, b.epoch, b.details.value) && content.evaluationAt == at
              && (forall i: nat :: OnlyInForce(c.rules, at, i) ==> content.rule == c.rules[i].rule)
              && Lists(c, content.organisations)
  {
    EffectiveFound(c.rules, at);
    var raw := ActiveOrganisations(c, c.organisations);
    assert c.organisations[..|c.organisations|] == c.organisations;
    var picks := ActiveScanned(c, |c.organisations|);
    NormalFormIsReordering(raw);
    assert Scanned(c, |c.organisations|, picks, raw) && Reordered(raw, NormalOrganisations(raw));
  }

  // ---------------------------------------------------------------- what a committed decision judged

  predicate FacilityId(c: Config, id: string) {
    exists i :: 0 <= i < |c.organisations| && ActiveFacility(c.organisations[i]) && c.organisations[i].id == id
  }

  // Exactly the active facilities are named.
  ghost predicate NamesFacilities(c: Config, ids: seq<string>) {
    && (forall k :: 0 <= k < |ids| ==> FacilityId(c, ids[k]))
    && (forall i :: 0 <= i < |c.organisations| && ActiveFacility(c.organisations[i]) ==> c.organisations[i].id in ids)
  }

  function OrganisationIds(os: seq<Organisation>): (ids: seq<string>)
    ensures |ids| == |os| && forall k :: 0 <= k < |os| ==> ids[k] == os[k].id
  {
    seq(|os|, k requires 0 <= k < |os| => os[k].id)
  }

  function CandidateIds(cs: seq<Candidate>): (ids: seq<string>)
    ensures |ids| == |cs| && forall k :: 0 <= k < |cs| ==> ids[k] == cs[k].organisationId
  {
    seq(|cs|, k requires 0 <= k < |cs| => cs[k].organisationId)
  }

  lemma ScannedNames(c: Config, picks: seq<nat>, raw: seq<Organisation>)
    requires Scanned(c, |c.organisations|, picks, raw)
    ensures NamesFacilities(c, OrganisationIds(raw))
  {
    forall i | 0 <= i < |c.organisations| && ActiveFacility(c.organisations[i])
      ensures c.organisations[i].id in OrganisationIds(raw)
    {
      var k :| 0 <= k < |picks| && picks[k] == i;
      assert OrganisationIds(raw)[k] == c.organisations[i].id;
    }
  }

  lemma NamesPermute(c: Config, os: seq<Organisation>, qs: seq<Organisation>)
    requires multiset(os) == multiset(qs) && NamesFacilities(c, OrganisationIds(os))
    ensures NamesFacilities(c, OrganisationIds(qs))
  {
    SameElements(os, qs);
    var ids, jds := OrganisationIds(os), OrganisationIds(qs);
    forall k | 0 <= k < |jds| ensures FacilityId(c, jds[k]) {
      assert qs[k] in os;
      var n :| 0 <= n < |os| && os[n] == qs[k];
      assert ids[n] == jds[k];
    }
    forall i | 0 <= i < |c.organisations| && ActiveFacility(c.organisations[i]) ensures c.organisations[i].id in jds {
      var n :| 0 <= n < |ids| && ids[n] == c.organisations[i].id;
      assert os[n] in qs;
      var k :| 0 <= k < |qs| && qs[k] == os[n];
      assert jds[k] == c.organisations[i].id;
    }
  }

  lemma PointwiseIds(mid: seq<Organisation>, os: seq<Organisation>)
    requires OrganisationsPointwise(mid, os)
    ensures OrganisationIds(os) == OrganisationIds(mid)
  {
    forall k | 0 <= k < |os| ensures OrganisationIds(os)[k] == OrganisationIds(mid)[k] {
      assert OrganisationReordered(mid[k], os[k]);
    }
  }

  lemma ListedNames(c: Config, os: seq<Organisation>)
    requires Lists(c, os)
    ensures NamesFacilities(c, OrganisationIds(os))
  {
    var picks, raw :| Scanned(c, |c.organisations|, picks, raw) && Reordered(raw, os);
    var mid :| multiset(raw) == multiset(mid) && OrganisationsPointwise(mid, os);
    ScannedNames(c, picks, raw);
    NamesPermute(c, raw, mid);
    PointwiseIds(mid, os);
  }

  lemma JudgedFacilities(c: Config, s: Snapshot, cs: seq<Candidate>)
    requires Lists(c, s.content.organisations) && AllMean(s, cs)
    ensures NamesFacilities(c, CandidateIds(cs))
  {
    ListedNames(c, s.content.organisations);
    RankedOrder(s);
    NamesPermute(c, s.content.organisations, Ranked(s));
    IdsMean(s.content.batch.details, Ranked(s), s.content.evaluationAt, cs);
  }

  lemma IdsMean(d: Details, os: seq<Organisation>, at: int, cs: seq<Candidate>)
    requires |cs| == |os| && forall i :: 0 <= i < |cs| ==> Means(cs[i], d, os[i], at)
    ensures CandidateIds(cs) == OrganisationIds(os)
  {
  }

  // The committing transaction's own tables describe what the decision judged.
  ghost predicate JudgedFrom(db: Db, d: Decision) {
    && d.batchId in db.batches && Lists(db.config, d.snapshot.content.organisations)
    && d.snapshot.content.batch == BatchInput(d.batchId, d.batchVersion, d.epoch, d.snapshot.content.batch.details)
    && db.batches[d.batchId].details == Some(d.snapshot.content.batch.details)
    && (exists i: nat :: OnlyInForce(db.config.rules, d.snapshot.content.evaluationAt, i) &&
          d.snapshot.content.rule == db.config.rules[i].rule)
    && NamesFacilities(db.config, CandidateIds(d.output.candidates))
  }

  lemma WrittenFrom(db: Db, a: Action, d: Decision)
    requires WritesDecision(GO_RULES, db, a, d)
    ensures JudgedFrom(db, d)
  {
    var at := d.snapshot.content.evaluationAt;
    assert GO_RULES.recompute(d.snapshot) == Some(d.output);
    assert Observed(db.config, db.batches[d.batchId], d.batchId, at).Ok?;
    ObservationExact(db.config, db.batches[d.batchId], d.batchId, at);
    RankedMeans(d.snapshot);
    JudgedFacilities(db.config, d.snapshot, d.output.candidates);
  }

  /** With the real rules, every recorded decision judged exactly the organisations that were active
      facilities in the state it was committed in, each by its own rows of that state, under the one
      rule set then in force at the evaluation time. */
  lemma DecisionsJudgeFacilities(dbs: seq<Db>, actions: seq<Action>, k: nat, d: Decision)
    requires Execution(GO_RULES, dbs, actions) && k < |dbs| && d in dbs[k].decisions
    ensures exists i :: 0 <= i < k && WritesDecision(GO_RULES, dbs[i], actions[i], d) && JudgedFrom(dbs[i], d)
  {
    DecisionsAreCurrent(GO_RULES, dbs, actions, k, d);
    var i :| 0 <= i < k && WritesDecision(GO_RULES, dbs[i], actions[i], d);
    WrittenFrom(dbs[i], actions[i], d);
  }
}
