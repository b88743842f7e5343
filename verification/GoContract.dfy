/** The loops of contract.go, each proved against its specification. */
module GoContract {
  import opened Wrappers
  import opened Vocabulary
  import opened Sorting
  import opened Snapshots
  import opened Evaluators

  // ---------------------------------------------------------------- normalize

  /** sort.Slice: ordered, but elements with equal keys may come out either way. */
  method SortSlice<T>(s: seq<T>, key: T -> Key) returns (r: seq<T>)
    ensures multiset(r) == multiset(s) && InOrder(key, r)
  {
    r := [];
    for i := 0 to |s|
      invariant multiset(r) == multiset(s[..i]) && InOrder(key, r)
    {
      InsertKeeps(key, s[i], r);
      InsertOrders(key, s[i], r);
      r := Insert(key, s[i], r);
      assert s[..i + 1] == s[..i] + [s[i]];
    }
    assert s[..|s|] == s;
  }

  lemma {:induction false} SortedFixed<T>(key: T -> Key, s: seq<T>)
    requires InOrder(key, s)
    ensures Sorted(key, s) == s
  {
    if s != [] { SortedFixed(key, s[1..]); }
  }

  predicate CapabilityOrdered(c: Capability) { InOrder(ConditionKey, c.conditions) }

  predicate OrganisationOrdered(o: Organisation) {
    && InOrder(CapabilityKey, o.capabilities) && InOrder(PoolKey, o.pools) && InOrder(ZoneKey, o.zones)
    && forall i :: 0 <= i < |o.capabilities| ==> CapabilityOrdered(o.capabilities[i])
  }

  predicate EachOrdered(os: seq<Organisation>) { forall i :: 0 <= i < |os| ==> OrganisationOrdered(os[i]) }

  lemma OrganisationFixed(o: Organisation)
    requires OrganisationOrdered(o)
    ensures NormalOrganisation(o) == o
  {
    SortedFixed(CapabilityKey, o.capabilities);
    SortedFixed(PoolKey, o.pools);
    SortedFixed(ZoneKey, o.zones);
    forall i | 0 <= i < |o.capabilities| ensures NormalCapability(o.capabilities[i]) == o.capabilities[i] {
      assert CapabilityOrdered(o.capabilities[i]);
      SortedFixed(ConditionKey, o.capabilities[i].conditions);
    }
    assert Map(NormalCapability, o.capabilities) == o.capabilities;
  }

  /** With identifiers unique, any ordered rearrangement is the normal form. */
  lemma OrderedIsNormal(os: seq<Organisation>, r: seq<Organisation>)
    requires Reordered(os, r) && InOrder(OrganisationKey, r) && EachOrdered(r) && Unique(os)
    ensures r == NormalOrganisations(os)
  {
    NormalFormInvariant(os, r);
    SortedFixed(OrganisationKey, r);
    forall i | 0 <= i < |r| ensures NormalOrganisation(r[i]) == r[i] { OrganisationFixed(r[i]); }
    assert Map(NormalOrganisation, r) == r;
  }

  method NormalizeConditions(cs: seq<Capability>) returns (r: seq<Capability>)
    ensures CapabilitiesPointwise(cs, r) && forall i :: 0 <= i < |r| ==> CapabilityOrdered(r[i])
  {
    r := cs;
    for j := 0 to |cs|
      invariant |r| == |cs|
      invariant forall k :: 0 <= k < j ==> CapabilityReordered(cs[k], r[k]) && CapabilityOrdered(r[k])
      invariant forall k :: j <= k < |cs| ==> r[k] == cs[k]
    {
      var sorted := SortSlice(r[j].conditions, ConditionKey);
      r := r[j := r[j].(conditions := sorted)];
    }
  }

  lemma ConditionsKeepOrder(cs: seq<Capability>, r: seq<Capability>)
    requires CapabilitiesPointwise(cs, r) && InOrder(CapabilityKey, cs)
    ensures InOrder(CapabilityKey, r)
  {
    forall i, j | 0 <= i < j < |r| ensures KeyAtMost(CapabilityKey(r[i]), CapabilityKey(r[j])) {
      assert CapabilityReordered(cs[i], r[i]) && CapabilityReordered(cs[j], r[j]);
      assert KeyAtMost(CapabilityKey(cs[i]), CapabilityKey(cs[j]));
    }
  }

  method NormalizeOrganisation(o: Organisation) returns (r: Organisation)
    ensures OrganisationReordered(o, r) && OrganisationOrdered(r)
  {
    var sorted := SortSlice(o.capabilities, CapabilityKey);
    var pools := SortSlice(o.pools, PoolKey);
    var zones := SortSlice(o.zones, ZoneKey);
    var capabilities := NormalizeConditions(sorted);
    ConditionsKeepOrder(sorted, capabilities);
    r := o.(capabilities := capabilities, pools := pools, zones := zones);
  }

  method NormalizeEach(os: seq<Organisation>) returns (r: seq<Organisation>)
    ensures OrganisationsPointwise(os, r) && EachOrdered(r)
  {
    r := os;
    for i := 0 to |os|
      invariant |r| == |os|
      invariant forall k :: 0 <= k < i ==> OrganisationReordered(os[k], r[k]) && OrganisationOrdered(r[k])
      invariant forall k :: i <= k < |os| ==> r[k] == os[k]
    {
      var normal := NormalizeOrganisation(r[i]);
      r := r[i := normal];
    }
  }

  /** normalize: a rearrangement in key order at every level; with identifiers unique, the unstable
      sorts still yield the one normal form. */
  method Normalize(os: seq<Organisation>) returns (r: seq<Organisation>)
    ensures Reordered(os, r) && InOrder(OrganisationKey, r) && EachOrdered(r)
    ensures Unique(os) ==> r == NormalOrganisations(os)
  {
    var sorted := SortSlice(os, OrganisationKey);
    r := NormalizeEach(sorted);
    assert InOrder(OrganisationKey, r) by {
      forall i, j | 0 <= i < j < |r| ensures KeyAtMost(OrganisationKey(r[i]), OrganisationKey(r[j])) {
        assert OrganisationReordered(sorted[i], r[i]) && OrganisationReordered(sorted[j], r[j]);
        assert KeyAtMost(OrganisationKey(sorted[i]), OrganisationKey(sorted[j]));
      }
    }
    if Unique(os) { OrderedIsNormal(os, r); }
  }

  // ---------------------------------------------------------------- expectedOutput

  /** The lookup loops overwrite, so the last hit stays. */
  method Lookup<T>(s: seq<T>, p: T -> bool) returns (r: Option<T>)
    ensures r == Last(p, s)
  {
    r := None;
    for i := 0 to |s|
      invariant r == Last(p, s[..i])
    {
      assert s[..i + 1][..i] == s[..i];
      if p(s[i]) { r := Some(s[i]); }
    }
    assert s[..|s|] == s;
  }

  /** The failure loop over the five flags. */
  method CollectFailures(flags: seq<bool>, reasons: seq<Reason>) returns (failures: seq<Failure>)
    requires |flags| == |reasons|
    ensures failures == Failures(flags, reasons)
  {
    failures := [];
    for i := 0 to |flags|
      invariant failures == Failures(flags[..i], reasons[..i])
    {
      assert flags[..i + 1][..i] == flags[..i] && reasons[..i + 1][..i] == reasons[..i];
      if !flags[i] { failures := failures + [Failure(i, reasons[i])]; }
    }
    assert flags[..|flags|] == flags && reasons[..|flags|] == reasons;
  }

  method AcceptsCondition(c: Capability, condition: string) returns (accepted: bool)
    ensures accepted <==> exists i :: 0 <= i < |c.conditions| && c.conditions[i] == condition
  {
    accepted := false;
    for i := 0 to |c.conditions|
      invariant accepted <==> exists k :: 0 <= k < i && c.conditions[k] == condition
    {
      accepted := accepted || c.conditions[i] == condition;
    }
  }

  method FeasibleAt(zone: Option<Zone>, evaluation: int) returns (r: Option<Option<int>>)
    ensures r == GoFeasible(zone, evaluation)
  {
    if !ActiveZone(zone) { return Some(None); }
    if zone.value.leadMinutes > MAX_LEAD_MINUTES { return None; }
    var feasible := evaluation + zone.value.leadMinutes * MINUTE;
    if feasible >= END_OF_TIME { return None; }
    return Some(Some(feasible));
  }

  method DecideFlags(d: Details, o: Organisation, cap: Option<Capability>, pool: Option<Pool>, zone: Option<Zone>,
                     fits: bool, feasible: Option<int>, evaluation: int) returns (flags: seq<bool>)
    ensures flags == GoFlags(d, o, cap, pool, zone, fits, feasible, evaluation)
  {
    var condition := false;
    if cap.Some? { condition := AcceptsCondition(cap.value, d.condition); }
    flags := [ActiveCapability(cap),
              o.profile.Some? && o.profile.value.isActive && ActiveCapability(cap) && condition &&
                (!d.isDataBearing || cap.value.supportsDataBearing),
              ActivePool(pool) && fits, ActiveZone(zone),
              ActiveZone(zone) && evaluation < d.deadline && !(feasible.Some? && feasible.value > d.deadline)];
  }

  method Describe(o: Organisation, cap: Option<Capability>, pool: Option<Pool>, zone: Option<Zone>,
                  flags: seq<bool>, text: Option<string>, feasible: Option<int>) returns (r: Candidate)
    requires |flags| == 5
    ensures r == GoRecord(o, cap, pool, zone, flags, text, feasible)
  {
    var failures := CollectFailures(flags, Reasons(ActivePool(pool)));
    r := Candidate(o.id, if o.profile.Some? then Some(o.profile.value.version) else None, flags, |failures| == 0,
                   text, if pool.Some? then Some(pool.value.id) else None,
                   if pool.Some? then Some(pool.value.version) else None,
                   if ActiveZone(zone) then Some(zone.value.leadMinutes) else None, feasible,
                   if |failures| > 0 then failures[0].reason else EligibleReason, failures,
                   Evidence(if cap.Some? then Some(cap.value.id) else None,
                            if cap.Some? then Some(cap.value.version) else None,
                            if zone.Some? then Some(zone.value.id) else None,
                            if zone.Some? then Some(zone.value.version) else None,
                            MissingConfiguration(o.profile.None?, cap.None?, pool.None?, zone.None?)));
  }

  /** One turn of the organisation loop; None is INVALID_CONTRACT. */
  method EvaluateOrganisation(d: Details, o: Organisation, evaluation: int, read: (Details, Pool) -> Capacity)
    returns (r: Option<Candidate>)
    ensures r == GoCandidate(d, o, evaluation, read)
  {
    var cap := Lookup(o.capabilities, (c: Capability) => c.category == d.category);
    var pool := Lookup(o.pools, (p: Pool) => cap.Some? && p.id == cap.value.poolId);
    var zone := Lookup(o.zones, (z: Zone) => z.zone == d.zone);
    var feasible := FeasibleAt(zone, evaluation);
    if feasible.None? { return None; }
    var fits, text := false, None;
    if ActivePool(pool) {
      var capacity := read(d, pool.value);
      fits, text := capacity.fits, Some(capacity.availableKg);
    }
    var flags := DecideFlags(d, o, cap, pool, zone, fits, feasible.value, evaluation);
    var candidate := Describe(o, cap, pool, zone, flags, text, feasible.value);
    r := Some(candidate);
  }

  // One missing candidate abandons the list.
  function Collected(f: Organisation -> Option<Candidate>, os: seq<Organisation>): Option<seq<Candidate>> {
    if os == [] then Some([])
    else
      match (Collected(f, os[..|os| - 1]), f(os[|os| - 1]))
      case (Some(cs), Some(c)) => Some(cs + [c])
      case _ => None
  }

  predicate Judged(o: Organisation) { true }

  ghost predicate Judges(f: Organisation -> Option<Candidate>, d: Details, evaluation: int) {
    forall o {:trigger Judged(o)} :: f(o) == GoCandidate(d, o, evaluation, GoCapacity)
  }

  lemma {:induction false} CollectedIs(f: Organisation -> Option<Candidate>, d: Details, os: seq<Organisation>, evaluation: int)
    requires Judges(f, d, evaluation)
    ensures Collected(f, os) == GoCandidates(d, os, evaluation, GoCapacity)
  {
    if os != [] {
      CollectedIs(f, d, os[..|os| - 1], evaluation);
      assert Judged(os[|os| - 1]);
    }
  }

  lemma CollectedSnoc(f: Organisation -> Option<Candidate>, os: seq<Organisation>, i: nat)
    requires i < |os|
    ensures Collected(f, os[..i]).Some? && f(os[i]).Some? ==>
              Collected(f, os[..i + 1]) == Some(Collected(f, os[..i]).value + [f(os[i]).value])
    ensures Collected(f, os[..i]).None? || f(os[i]).None? ==> Collected(f, os[..i + 1]).None?
  {
    assert os[..i + 1][..i] == os[..i];
  }

  lemma EligibleSnoc(cs: seq<Candidate>, c: Candidate)
    ensures Eligible(cs + [c]) == Eligible(cs) + if c.isMatched then 1 else 0
  {
    assert (cs + [c])[..|cs|] == cs;
  }

  lemma {:induction false} NoneStays(f: Organisation -> Option<Candidate>, os: seq<Organisation>, i: nat)
    requires i <= |os| && Collected(f, os[..i]).None?
    ensures Collected(f, os).None?
    decreases |os| - i
  {
    if i < |os| {
      CollectedSnoc(f, os, i);
      NoneStays(f, os, i + 1);
    } else {
      assert os[..i] == os;
    }
  }

  method Judge(d: Details, o: Organisation, evaluation: int, ghost f: Organisation -> Option<Candidate>)
    returns (r: Option<Candidate>)
    requires Judges(f, d, evaluation)
    ensures r == f(o)
  {
    assert Judged(o);
    r := EvaluateOrganisation(d, o, evaluation, GoCapacity);
  }

  // The organisation loop.
  method Collect(d: Details, os: seq<Organisation>, evaluation: int, ghost f: Organisation -> Option<Candidate>)
    returns (r: Option<seq<Candidate>>, eligible: nat)
    requires Judges(f, d, evaluation)
    ensures r == Collected(f, os)
    ensures r.Some? ==> eligible == Eligible(r.value)
  {
    var candidates: seq<Candidate> := [];
    eligible := 0;
    for i := 0 to |os|
      invariant Collected(f, os[..i]) == Some(candidates)
      invariant eligible == Eligible(candidates)
    {
      CollectedSnoc(f, os, i);
      var candidate := Judge(d, os[i], evaluation, f);
      if candidate.None? {
        NoneStays(f, os, i + 1);
        return None, 0;
      }
      EligibleSnoc(candidates, candidate.value);
      if candidate.value.isMatched { eligible := eligible + 1; }
      candidates := candidates + [candidate.value];
    }
    assert os[..|os|] == os;
    r := Some(candidates);
  }

  method EvaluateOrganisations(d: Details, os: seq<Organisation>, evaluation: int)
    returns (r: Option<seq<Candidate>>, eligible: nat)
    ensures r == GoCandidates(d, os, evaluation, GoCapacity)
    ensures r.Some? ==> eligible == Eligible(r.value)
  {
    ghost var f := (o: Organisation) => GoCandidate(d, o, evaluation, GoCapacity);
    r, eligible := Collect(d, os, evaluation, f);
    CollectedIs(f, d, os, evaluation);
  }

  method Recompute(n: Snapshot) returns (r: Option<Output>)
    ensures r == GoRecomputed(n)
  {
    var b, at := n.content.batch, n.content.evaluationAt;
    var candidates, eligible := EvaluateOrganisations(b.details, n.content.organisations, at);
    if candidates.None? { return None; }
    var outcome, reason := NoMatch, NoApprovedOrganisation;
    if |candidates.value| > 0 { reason := NoEligibleOrganisation; }
    if eligible > 0 { outcome, reason := Matched, EligibleExists; }
    if |candidates.value| > MAX_UINT32 { return None; }
    r := Some(Output(n.runId, n.decisionId, n.generation, n.inputHash, n.profileHash, at, b.id, b.version, b.epoch,
                     n.content.rule.id, candidates.value, outcome, reason, |candidates.value|, eligible));
  }

  /** expectedOutput: the recomputation Commit holds a worker's result to. */
  method ExpectedOutput(s: Snapshot) returns (r: Option<Output>)
    ensures r == GoOutput(s)
  {
    if !GoValid(s) { return None; }
    assert Unique(s.content.organisations);
    var os := Normalize(s.content.organisations);
    r := Recompute(s.(content := s.content.(organisations := os)));
  }
}
