/** The frozen matching snapshot: its schema, the two validators that guard it and its normal form. */
module Snapshots {
  import opened Wrappers
  import opened Decimals
  import opened Vocabulary
  import opened Sorting

  datatype Profile = Profile(isActive: bool, version: int)

  datatype Capability = Capability(
    id: string, category: string, conditions: seq<string>, supportsDataBearing: bool, isActive: bool,
    poolId: string, version: int)

  datatype Pool = Pool(id: string, code: string, totalKg: string, reservedKg: string, isActive: bool, version: int)

  datatype Zone = Zone(id: string, zone: string, leadMinutes: int, isActive: bool, version: int)

  datatype Organisation = Organisation(
    id: string, profile: Option<Profile>, capabilities: seq<Capability>, pools: seq<Pool>, zones: seq<Zone>)

  datatype Details = Details(
    organizationId: string, submittedAt: int, category: string, quantity: int, weightKg: string,
    condition: string, isDataBearing: bool, zone: string, deadline: int)

  datatype BatchInput = BatchInput(id: string, version: int, epoch: int, details: Details)

  datatype Policy = BinaryV1 | OtherPolicy(text: string)

  datatype RuleSet = RuleSet(id: string, version: string, policy: Policy)

  // What input_hash digests. Digests are injective, so the digested value stands for its digest.
  datatype Canon = Canon(batch: BatchInput, rule: RuleSet, evaluationAt: int, organisations: seq<Organisation>)

  datatype TriggerType = RequestSubmitted | ExplicitRun

  datatype Trigger = Trigger(id: string, kind: TriggerType)

  datatype Snapshot = Snapshot(
    runId: string, decisionId: string, generation: int, trigger: Trigger, correlationId: string,
    content: Canon, profileHash: seq<Organisation>, inputHash: Canon)

  // ---------------------------------------------------------------- normal form

  function OrganisationKey(o: Organisation): Key { (o.id, "") }
  function CapabilityKey(c: Capability): Key { (c.category, c.id) }
  function PoolKey(p: Pool): Key { (p.id, "") }
  function ZoneKey(z: Zone): Key { (z.zone, z.id) }
  function ConditionKey(c: string): Key { (c, "") }

  function NormalCapability(c: Capability): Capability { c.(conditions := Sorted(ConditionKey, c.conditions)) }

  function NormalOrganisation(o: Organisation): Organisation {
    o.(capabilities := Map(NormalCapability, Sorted(CapabilityKey, o.capabilities)),
       pools := Sorted(PoolKey, o.pools), zones := Sorted(ZoneKey, o.zones))
  }

  function NormalOrganisations(os: seq<Organisation>): seq<Organisation> {
    Map(NormalOrganisation, Sorted(OrganisationKey, os))
  }

  function NormalContent(c: Canon): Canon { c.(organisations := NormalOrganisations(c.organisations)) }

  // setHashes and hashes.
  predicate Hashed(s: Snapshot) {
    s.profileHash == NormalOrganisations(s.content.organisations) && s.inputHash == NormalContent(s.content)
  }

  // ---------------------------------------------------------------- schema

  predicate Printable(s: string, longest: nat) {
    1 <= |s| <= longest && forall i :: 0 <= i < |s| ==> '!' <= s[i] <= '~'
  }

  predicate MoneyField(s: string, width: nat) { IsMoney(s) && |Whole(s)| <= width }

  predicate SchemaCapability(c: Capability) {
    && c.category in CATEGORIES && c.conditions != [] && Simple(multiset(c.conditions))
    && (forall x :: x in c.conditions ==> x in CONDITIONS) && c.version >= 1
  }

  predicate SchemaPool(p: Pool) {
    Printable(p.code, 64) && MoneyField(p.totalKg, 10) && MoneyField(p.reservedKg, 10) && p.version >= 1
  }

  predicate SchemaZone(z: Zone) { z.zone in ZONES && 0 <= z.leadMinutes <= MAX_UINT32 && z.version >= 1 }

  predicate SchemaOrganisation(o: Organisation) {
    && Printable(o.id, 32) && (o.profile.Some? ==> o.profile.value.version >= 1)
    && (forall c :: c in o.capabilities ==> SchemaCapability(c))
    && (forall p :: p in o.pools ==> SchemaPool(p))
    && (forall z :: z in o.zones ==> SchemaZone(z))
  }

  predicate SchemaDetails(d: Details) {
    && Printable(d.organizationId, 32) && IsInstant(d.submittedAt) && IsInstant(d.deadline)
    && d.category in CATEGORIES && d.condition in CONDITIONS && d.zone in ZONES
    && 1 <= d.quantity <= 100000 && MoneyField(d.weightKg, 6)
  }

  predicate SchemaContent(c: Canon) {
    && 1 <= c.batch.version <= MAX_UINT32 && c.batch.epoch >= 1 && SchemaDetails(c.batch.details)
    && c.rule.version == "binary-v1" && c.rule.policy == BinaryV1 && IsInstant(c.evaluationAt)
    && forall o :: o in c.organisations ==> SchemaOrganisation(o)
  }

  // MatchingInput.v1: everything but the two digests.
  predicate SchemaSnapshot(s: Snapshot) {
    1 <= s.generation <= MAX_UINT32 && 1 <= |s.correlationId| <= 128 && SchemaContent(s.content)
  }

  // ---------------------------------------------------------------- what both validators ask

  function PoolIds(o: Organisation): multiset<string> { multiset(Map((p: Pool) => p.id, o.pools)) }

  function ItemIds(o: Organisation): multiset<string> {
    PoolIds(o) + multiset(Map((c: Capability) => c.id, o.capabilities)) + multiset(Map((z: Zone) => z.id, o.zones))
  }

  predicate UniqueKeys(o: Organisation) {
    && Simple(multiset(Map((p: Pool) => p.code, o.pools)))
    && Simple(multiset(Map((c: Capability) => c.category, o.capabilities)))
    && Simple(multiset(Map((z: Zone) => z.zone, o.zones)))
  }

  predicate Unique(os: seq<Organisation>) {
    && Simple(multiset(Map((o: Organisation) => o.id, os)))
    && Simple(Gather(ItemIds, os))
    && forall o :: o in os ==> UniqueKeys(o)
  }

  predicate Versioned(o: Organisation) {
    && (o.profile.Some? ==> o.profile.value.version <= MAX_INT64)
    && (forall c :: c in o.capabilities ==> c.version <= MAX_INT64)
    && (forall p :: p in o.pools ==> p.version <= MAX_INT64)
    && (forall z :: z in o.zones ==> z.version <= MAX_INT64)
  }

  // ---------------------------------------------------------------- Go: validateInput

  predicate GoWeight(d: Details) {
    match GoCents(d.weightKg)
    case None => false
    case Some(w) => 10 <= w <= 5_000_000
  }

  predicate GoWindow(d: Details) {
    !(d.deadline < d.submittedAt + 48 * HOUR) && !(d.deadline > d.submittedAt + 90 * DAY)
  }

  predicate GoBalanced(p: Pool) {
    match (GoCents(p.totalKg), GoCents(p.reservedKg))
    case (Some(total), Some(reserved)) => !(reserved > total)
    case _ => false
  }

  predicate OwnPool(o: Organisation, c: Capability) { exists p :: p in o.pools && p.id == c.poolId }

  predicate GoOrganisation(o: Organisation) {
    && Versioned(o)
    && (forall p :: p in o.pools ==> GoBalanced(p))
    && (forall c :: c in o.capabilities ==> OwnPool(o, c))
  }

  predicate GoValid(s: Snapshot) {
    && SchemaSnapshot(s) && s.content.batch.epoch <= MAX_UINT64
    && GoWeight(s.content.batch.details) && GoWindow(s.content.batch.details)
    && Unique(s.content.organisations)
    && (forall o :: o in s.content.organisations ==> GoOrganisation(o))
    && Hashed(s)
  }

  // ---------------------------------------------------------------- Python: validate_input

  predicate PyWeightInRange(d: Details)
    requires MoneyField(d.weightKg, 6)
  {
    0.10 <= PyDecimal(d.weightKg) <= 50000.0
  }

  // The second addition overflows beyond year 9999.
  predicate PyWindow(d: Details) {
    d.submittedAt + 48 * HOUR <= d.deadline && d.submittedAt + 90 * DAY < END_OF_TIME &&
    d.deadline <= d.submittedAt + 90 * DAY
  }

  predicate PyBalanced(p: Pool)
    requires SchemaPool(p)
  {
    PyDecimal(p.reservedKg) <= PyDecimal(p.totalKg)
  }

  // A capability may name a pool nobody has, but not another organisation's.
  predicate NoForeignPool(os: seq<Organisation>, o: Organisation, c: Capability) {
    forall q :: q in os && OwnPool(q, c) ==> q.id == o.id
  }

  predicate PyOrganisation(os: seq<Organisation>, o: Organisation)
    requires SchemaOrganisation(o)
  {
    && Versioned(o)
    && (forall p :: p in o.pools ==> PyBalanced(p))
    && (forall c :: c in o.capabilities ==> NoForeignPool(os, o, c))
  }

  predicate PyValid(s: Snapshot) {
    && SchemaSnapshot(s) && s.content.batch.epoch <= MAX_UINT64
    && PyWeightInRange(s.content.batch.details) && PyWindow(s.content.batch.details)
    && Unique(s.content.organisations)
    && (forall o :: o in s.content.organisations ==> PyOrganisation(s.content.organisations, o))
    && Hashed(s)
  }

  // ---------------------------------------------------------------- where the validators differ

  // Every capability names a pool its organisation has.
  predicate PoolsPresent(os: seq<Organisation>) {
    forall o, c :: o in os && c in o.capabilities ==> OwnPool(o, c)
  }

  lemma MoneyFieldReads(s: string, width: nat)
    requires MoneyField(s, width) && width <= 10
    ensures GoCents(s) == Some(Amount(s)) && PyDecimal(s) == Kg(Amount(s))
  {
    GoCentsReads(s);
    PyDecimalIsAmount(s);
    WidthBound(Whole(s), 10);
    assert Pow10(10) == 10_000_000_000 by {
      assert Pow10(2) == 100;
      assert Pow10(4) == 10_000;
      assert Pow10(6) == 1_000_000;
      assert Pow10(8) == 100_000_000;
    }
  }

  lemma BalancedAgree(p: Pool)
    requires SchemaPool(p)
    ensures GoBalanced(p) <==> Amount(p.reservedKg) <= Amount(p.totalKg)
    ensures PyBalanced(p) <==> Amount(p.reservedKg) <= Amount(p.totalKg)
  {
    MoneyFieldReads(p.totalKg, 10);
    MoneyFieldReads(p.reservedKg, 10);
  }

  lemma WeightsAgree(d: Details)
    requires SchemaDetails(d)
    ensures GoWeight(d) <==> PyWeightInRange(d)
  {
    MoneyFieldReads(d.weightKg, 6);
  }

  lemma PoolIdsOf(o: Organisation, p: Pool)
    requires p in o.pools
    ensures p.id in PoolIds(o)
  {
    var i :| 0 <= i < |o.pools| && o.pools[i] == p;
    var ids := Map((p: Pool) => p.id, o.pools);
    assert ids[i] == p.id;
  }

  // With ids unique, an organisation that has a pool is the only one that does.
  lemma OwnPoolIsNotForeign(os: seq<Organisation>, o: Organisation, q: Organisation, c: Capability)
    requires Unique(os) && o in os && q in os && OwnPool(o, c) && OwnPool(q, c)
    ensures o == q
  {
    var p :| p in o.pools && p.id == c.poolId;
    var r :| r in q.pools && r.id == c.poolId;
    PoolIdsOf(o, p);
    PoolIdsOf(q, r);
    var i :| 0 <= i < |os| && os[i] == o;
    var j :| 0 <= j < |os| && os[j] == q;
    SimpleSeparates(ItemIds, os, i, j, c.poolId);
  }

  lemma OrganisationsAgree(os: seq<Organisation>, o: Organisation)
    requires Unique(os) && o in os && SchemaOrganisation(o)
    ensures GoOrganisation(o) <==> PyOrganisation(os, o) && forall c :: c in o.capabilities ==> OwnPool(o, c)
  {
    forall p | p in o.pools ensures GoBalanced(p) <==> PyBalanced(p) { BalancedAgree(p); }
    forall c, q | c in o.capabilities && OwnPool(o, c) && q in os && OwnPool(q, c) ensures q.id == o.id {
      OwnPoolIsNotForeign(os, o, q, c);
    }
  }

  /** Go's validator asks that every named pool exists; Python's asks that ninety days after
      submission is still before year 10000. On everything else they decide alike. */
  lemma ValidatorsAgree(s: Snapshot)
    ensures GoValid(s) && s.content.batch.details.submittedAt + 90 * DAY < END_OF_TIME <==>
            PyValid(s) && PoolsPresent(s.content.organisations)
  {
    var os := s.content.organisations;
    if SchemaSnapshot(s) && Unique(os) {
      WeightsAgree(s.content.batch.details);
      forall o | o in os
        ensures GoOrganisation(o) <==> PyOrganisation(os, o) && forall c :: c in o.capabilities ==> OwnPool(o, c)
      {
        OrganisationsAgree(os, o);
      }
    }
  }

  // ---------------------------------------------------------------- reordering

  ghost predicate CapabilityReordered(c: Capability, d: Capability) {
    d == c.(conditions := d.conditions) && multiset(c.conditions) == multiset(d.conditions)
  }

  ghost predicate CapabilitiesPointwise(cs: seq<Capability>, ds: seq<Capability>) {
    |cs| == |ds| && forall i :: 0 <= i < |cs| ==> CapabilityReordered(cs[i], ds[i])
  }

  // Capabilities, pools and zones rearranged, and within each capability its conditions.
  ghost predicate OrganisationReordered(o: Organisation, q: Organisation) {
    && q == o.(capabilities := q.capabilities, pools := q.pools, zones := q.zones)
    && multiset(o.pools) == multiset(q.pools) && multiset(o.zones) == multiset(q.zones)
    && exists cs :: multiset(o.capabilities) == multiset(cs) && CapabilitiesPointwise(cs, q.capabilities)
  }

  ghost predicate OrganisationsPointwise(os: seq<Organisation>, qs: seq<Organisation>) {
    |os| == |qs| && forall i :: 0 <= i < |os| ==> OrganisationReordered(os[i], qs[i])
  }

  ghost predicate Reordered(os: seq<Organisation>, qs: seq<Organisation>) {
    exists mid :: multiset(os) == multiset(mid) && OrganisationsPointwise(mid, qs)
  }

  ghost predicate SnapshotReordered(s: Snapshot, t: Snapshot) {
    && t == s.(content := t.content)
    && t.content == s.content.(organisations := t.content.organisations)
    && Reordered(s.content.organisations, t.content.organisations)
  }

  lemma NormalCapabilityInvariant(c: Capability, d: Capability)
    requires CapabilityReordered(c, d)
    ensures NormalCapability(c) == NormalCapability(d)
  {
    SortedAgree(ConditionKey, c.conditions, d.conditions);
  }

  // What a reordered capability keeps.
  lemma CapabilityKeeps(c: Capability, d: Capability)
    requires CapabilityReordered(c, d)
    ensures SchemaCapability(c) <==> SchemaCapability(d)
    ensures c.id == d.id && c.category == d.category && c.poolId == d.poolId && c.version == d.version
  {
    SameElements(c.conditions, d.conditions);
  }

  lemma CapabilitiesInvariant(cs: seq<Capability>, ds: seq<Capability>, mid: seq<Capability>)
    requires multiset(cs) == multiset(mid) && CapabilitiesPointwise(mid, ds)
    requires Simple(multiset(Map((c: Capability) => c.category, cs)))
    ensures Map(NormalCapability, Sorted(CapabilityKey, cs)) == Map(NormalCapability, Sorted(CapabilityKey, ds))
  {
    FieldDecides(CapabilityKey, (c: Capability) => c.category, cs);
    SortedAgree(CapabilityKey, cs, mid);
    SortedMap(CapabilityKey, NormalCapability, mid);
    SortedMap(CapabilityKey, NormalCapability, ds);
    forall i | 0 <= i < |mid| ensures NormalCapability(mid[i]) == NormalCapability(ds[i]) {
      NormalCapabilityInvariant(mid[i], ds[i]);
    }
    MapPointwise(NormalCapability, mid, ds);
  }

  lemma NormalOrganisationInvariant(o: Organisation, q: Organisation)
    requires OrganisationReordered(o, q) && UniqueKeys(o) && Simple(PoolIds(o))
    ensures NormalOrganisation(o) == NormalOrganisation(q)
  {
    var cs :| multiset(o.capabilities) == multiset(cs) && CapabilitiesPointwise(cs, q.capabilities);
    CapabilitiesInvariant(o.capabilities, q.capabilities, cs);
    FieldDecides(PoolKey, (p: Pool) => p.id, o.pools);
    SortedAgree(PoolKey, o.pools, q.pools);
    FieldDecides(ZoneKey, (z: Zone) => z.zone, o.zones);
    SortedAgree(ZoneKey, o.zones, q.zones);
  }

  lemma CapabilityFieldKept<U>(f: Capability -> U, cs: seq<Capability>, mid: seq<Capability>, ds: seq<Capability>)
    requires multiset(cs) == multiset(mid) && CapabilitiesPointwise(mid, ds)
    requires forall c, d :: CapabilityReordered(c, d) ==> f(c) == f(d)
    ensures multiset(Map(f, cs)) == multiset(Map(f, ds))
  {
    MapPermutes(f, cs, mid);
    MapPointwise(f, mid, ds);
  }

  // A reordered organisation keeps its keys.
  lemma KeysKept(o: Organisation, q: Organisation)
    requires OrganisationReordered(o, q)
    ensures PoolIds(o) == PoolIds(q) && ItemIds(o) == ItemIds(q) && (UniqueKeys(o) <==> UniqueKeys(q))
  {
    var cs :| multiset(o.capabilities) == multiset(cs) && CapabilitiesPointwise(cs, q.capabilities);
    CapabilityFieldKept((c: Capability) => c.id, o.capabilities, cs, q.capabilities);
    CapabilityFieldKept((c: Capability) => c.category, o.capabilities, cs, q.capabilities);
    MapPermutes((p: Pool) => p.id, o.pools, q.pools);
    MapPermutes((p: Pool) => p.code, o.pools, q.pools);
    MapPermutes((z: Zone) => z.id, o.zones, q.zones);
    MapPermutes((z: Zone) => z.zone, o.zones, q.zones);
  }

  // Each capability has a counterpart on the other side.
  lemma CapabilityCounterpart(o: Organisation, q: Organisation, d: Capability) returns (c: Capability)
    requires OrganisationReordered(o, q) && d in q.capabilities
    ensures c in o.capabilities && CapabilityReordered(c, d)
  {
    var cs :| multiset(o.capabilities) == multiset(cs) && CapabilitiesPointwise(cs, q.capabilities);
    var i :| 0 <= i < |q.capabilities| && q.capabilities[i] == d;
    c := cs[i];
    SameElements(o.capabilities, cs);
  }

  lemma OrganisationKept(o: Organisation, q: Organisation)
    requires OrganisationReordered(o, q) && SchemaOrganisation(o) && Versioned(o)
    ensures SchemaOrganisation(q) && Versioned(q)
  {
    SameElements(o.pools, q.pools);
    SameElements(o.zones, q.zones);
    forall d | d in q.capabilities ensures SchemaCapability(d) && d.version <= MAX_INT64 {
      var c := CapabilityCounterpart(o, q, d);
      CapabilityKeeps(c, d);
    }
  }

  lemma OwnPoolKept(o: Organisation, q: Organisation, c: Capability)
    requires multiset(o.pools) == multiset(q.pools)
    ensures OwnPool(o, c) <==> OwnPool(q, c)
  {
    SameElements(o.pools, q.pools);
  }

  lemma GoOrganisationKept(o: Organisation, q: Organisation)
    requires OrganisationReordered(o, q) && SchemaOrganisation(o) && GoOrganisation(o)
    ensures GoOrganisation(q)
  {
    OrganisationKept(o, q);
    SameElements(o.pools, q.pools);
    forall d | d in q.capabilities ensures OwnPool(q, d) {
      var c := CapabilityCounterpart(o, q, d);
      assert OwnPool(o, c);
      OwnPoolKept(o, q, c);
    }
  }

  // ---------------------------------------------------------------- over the whole list

  lemma UniqueKept(os: seq<Organisation>, mid: seq<Organisation>, qs: seq<Organisation>)
    requires multiset(os) == multiset(mid) && OrganisationsPointwise(mid, qs) && Unique(os)
    ensures Unique(qs)
  {
    SameElements(os, mid);
    MapPermutes((o: Organisation) => o.id, os, mid);
    MapPointwise((o: Organisation) => o.id, mid, qs);
    GatherPermutes(ItemIds, os, mid);
    forall i | 0 <= i < |qs| ensures ItemIds(mid[i]) == ItemIds(qs[i]) && UniqueKeys(qs[i]) {
      KeysKept(mid[i], qs[i]);
    }
    GatherPointwise(ItemIds, mid, qs);
  }

  lemma PoolsSimple(os: seq<Organisation>, o: Organisation)
    requires Unique(os) && o in os
    ensures Simple(PoolIds(o)) && UniqueKeys(o)
  {
    var i :| 0 <= i < |os| && os[i] == o;
    GatherContains(ItemIds, os, i);
    assert forall x :: PoolIds(o)[x] <= ItemIds(o)[x];
  }

  /** The normal form forgets the order. */
  lemma NormalFormInvariant(os: seq<Organisation>, qs: seq<Organisation>)
    requires Reordered(os, qs) && Unique(os)
    ensures NormalOrganisations(os) == NormalOrganisations(qs)
  {
    var mid :| multiset(os) == multiset(mid) && OrganisationsPointwise(mid, qs);
    FieldDecides(OrganisationKey, (o: Organisation) => o.id, os);
    SortedAgree(OrganisationKey, os, mid);
    SameElements(os, mid);
    SortedMap(OrganisationKey, NormalOrganisation, mid);
    SortedMap(OrganisationKey, NormalOrganisation, qs);
    forall i | 0 <= i < |mid| ensures NormalOrganisation(mid[i]) == NormalOrganisation(qs[i]) {
      PoolsSimple(os, mid[i]);
      NormalOrganisationInvariant(mid[i], qs[i]);
    }
    MapPointwise(NormalOrganisation, mid, qs);
  }

  lemma OrganisationCounterpart(os: seq<Organisation>, qs: seq<Organisation>, q: Organisation) returns (o: Organisation)
    requires Reordered(os, qs) && q in qs
    ensures o in os && OrganisationReordered(o, q)
  {
    var mid :| multiset(os) == multiset(mid) && OrganisationsPointwise(mid, qs);
    SameElements(os, mid);
    var i :| 0 <= i < |qs| && qs[i] == q;
    o := mid[i];
  }

  lemma GoValidKept(s: Snapshot, t: Snapshot)
    requires SnapshotReordered(s, t) && GoValid(s)
    ensures GoValid(t)
  {
    var os, qs := s.content.organisations, t.content.organisations;
    var mid :| multiset(os) == multiset(mid) && OrganisationsPointwise(mid, qs);
    UniqueKept(os, mid, qs);
    NormalFormInvariant(os, qs);
    forall q | q in qs ensures SchemaOrganisation(q) && GoOrganisation(q) {
      var o := OrganisationCounterpart(os, qs, q);
      GoOrganisationKept(o, q);
      OrganisationKept(o, q);
    }
  }

  lemma PyOrganisationKept(os: seq<Organisation>, qs: seq<Organisation>, o: Organisation, q: Organisation)
    requires Reordered(os, qs) && OrganisationReordered(o, q) && SchemaOrganisation(o) && PyOrganisation(os, o)
    ensures SchemaOrganisation(q) && PyOrganisation(qs, q)
  {
    OrganisationKept(o, q);
    SameElements(o.pools, q.pools);
    forall d, r | d in q.capabilities && r in qs && OwnPool(r, d) ensures r.id == q.id {
      var c := CapabilityCounterpart(o, q, d);
      var x := OrganisationCounterpart(os, qs, r);
      OwnPoolKept(x, r, c);
      assert NoForeignPool(os, o, c);
    }
  }

  lemma PyValidKept(s: Snapshot, t: Snapshot)
    requires SnapshotReordered(s, t) && PyValid(s)
    ensures PyValid(t)
  {
    var os, qs := s.content.organisations, t.content.organisations;
    var mid :| multiset(os) == multiset(mid) && OrganisationsPointwise(mid, qs);
    UniqueKept(os, mid, qs);
    NormalFormInvariant(os, qs);
    forall q | q in qs ensures SchemaOrganisation(q) && PyOrganisation(qs, q) {
      var o := OrganisationCounterpart(os, qs, q);
      PyOrganisationKept(os, qs, o, q);
    }
  }

  // ---------------------------------------------------------------- the normal form is a rearrangement

  lemma NormalCapabilityIsReordering(c: Capability)
    ensures CapabilityReordered(c, NormalCapability(c))
  {
    SortedKeeps(ConditionKey, c.conditions);
  }

  lemma NormalOrganisationIsReordering(o: Organisation)
    ensures OrganisationReordered(o, NormalOrganisation(o))
  {
    SortedKeeps(PoolKey, o.pools);
    SortedKeeps(ZoneKey, o.zones);
    var cs := Sorted(CapabilityKey, o.capabilities);
    SortedKeeps(CapabilityKey, o.capabilities);
    forall i | 0 <= i < |cs| ensures CapabilityReordered(cs[i], NormalOrganisation(o).capabilities[i]) {
      NormalCapabilityIsReordering(cs[i]);
    }
    assert CapabilitiesPointwise(cs, NormalOrganisation(o).capabilities);
  }

  lemma NormalFormIsReordering(os: seq<Organisation>)
    ensures Reordered(os, NormalOrganisations(os))
  {
    var mid := Sorted(OrganisationKey, os);
    SortedKeeps(OrganisationKey, os);
    forall i | 0 <= i < |mid| ensures OrganisationReordered(mid[i], NormalOrganisations(os)[i]) {
      NormalOrganisationIsReordering(mid[i]);
    }
    assert OrganisationsPointwise(mid, NormalOrganisations(os));
  }

  function Normalized(s: Snapshot): Snapshot { s.(content := NormalContent(s.content)) }

  /** Normalising twice is normalising once, and it keeps both validators' verdicts. */
  lemma NormalFormStable(s: Snapshot)
    requires GoValid(s) || PyValid(s)
    ensures NormalContent(NormalContent(s.content)) == NormalContent(s.content)
    ensures GoValid(s) ==> GoValid(Normalized(s))
    ensures PyValid(s) ==> PyValid(Normalized(s))
  {
    NormalFormIsReordering(s.content.organisations);
    NormalFormInvariant(s.content.organisations, NormalOrganisations(s.content.organisations));
    if GoValid(s) { GoValidKept(s, Normalized(s)); }
    if PyValid(s) { PyValidKept(s, Normalized(s)); }
  }
}
