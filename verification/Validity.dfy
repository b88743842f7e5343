/** What a valid matching input is, limit by limit, apart from the validators. */
module Validity {
  import opened Wrappers
  import opened Decimals
  import opened Vocabulary
  import opened Sorting
  import opened Snapshots
  import Intake

  // ---------------------------------------------------------------- limits

  predicate Visible(s: string, longest: nat) { s != "" && |s| <= longest && forall i :: 0 <= i < |s| ==> '!' <= s[i] <= '~' }

  // A two-decimal text with at most this many digits before the point.
  predicate KilogramText(s: string, digits: nat) { IsMoney(s) && |Whole(s)| <= digits }

  predicate RepeatFree<T(==)>(s: seq<T>) { forall i, j :: 0 <= i < j < |s| ==> s[i] != s[j] }

  predicate Counted(version: int) { 1 <= version <= 0x7FFF_FFFF_FFFF_FFFF }

  // 0.10 to 50000.00 kg, due 48 hours to 90 days after the submission.
  predicate DetailsWithin(d: Details) {
    && Visible(d.organizationId, 32) && IsInstant(d.submittedAt) && IsInstant(d.deadline)
    && d.category in CATEGORIES && d.condition in CONDITIONS && d.zone in ZONES && 1 <= d.quantity <= 100000
    && KilogramText(d.weightKg, 6) && 10 <= Amount(d.weightKg) <= 5_000_000
    && 48 * HOUR <= d.deadline - d.submittedAt <= 90 * DAY
  }

  predicate CapabilityWithin(o: Organisation, c: Capability) {
    && c.category in CATEGORIES && c.conditions != [] && RepeatFree(c.conditions) && (forall x :: x in c.conditions ==> x in CONDITIONS)
    && Counted(c.version) && exists p :: p in o.pools && p.id == c.poolId
  }

  predicate PoolWithin(p: Pool) {
    && Visible(p.code, 64) && KilogramText(p.totalKg, 10) && KilogramText(p.reservedKg, 10)
    && Amount(p.reservedKg) <= Amount(p.totalKg) && Counted(p.version)
  }

  predicate ZoneWithin(z: Zone) { z.zone in ZONES && 0 <= z.leadMinutes <= 0xFFFF_FFFF && Counted(z.version) }

  predicate CapabilitiesWithin(o: Organisation) { forall c :: c in o.capabilities ==> CapabilityWithin(o, c) }

  predicate PoolsWithin(o: Organisation) { forall p :: p in o.pools ==> PoolWithin(p) }

  predicate ZonesWithin(o: Organisation) { forall z :: z in o.zones ==> ZoneWithin(z) }

  // No pool code, category or zone twice.
  predicate KeysDiffer(o: Organisation) {
    && (forall i, j :: 0 <= i < j < |o.pools| ==> o.pools[i].code != o.pools[j].code)
    && (forall i, j :: 0 <= i < j < |o.capabilities| ==> o.capabilities[i].category != o.capabilities[j].category)
    && (forall i, j :: 0 <= i < j < |o.zones| ==> o.zones[i].zone != o.zones[j].zone)
  }

  predicate OrganisationWithin(o: Organisation) {
    && Visible(o.id, 32) && (o.profile.Some? ==> Counted(o.profile.value.version))
    && CapabilitiesWithin(o) && PoolsWithin(o) && ZonesWithin(o) && KeysDiffer(o)
  }

  // The identifiers of an organisation's pools, capabilities and zones, one after another.
  function IdsOf(o: Organisation): seq<string> {
    Map((p: Pool) => p.id, o.pools) + Map((c: Capability) => c.id, o.capabilities) + Map((z: Zone) => z.id, o.zones)
  }

  function AllIds(os: seq<Organisation>): seq<string> { if os == [] then [] else IdsOf(os[0]) + AllIds(os[1..]) }

  ghost predicate ContentWithin(c: Canon) {
    && 1 <= c.batch.version <= 0xFFFF_FFFF && 1 <= c.batch.epoch <= 0xFFFF_FFFF_FFFF_FFFF && DetailsWithin(c.batch.details)
    && c.rule.version == "binary-v1" && c.rule.policy == BinaryV1 && IsInstant(c.evaluationAt)
    && (forall o :: o in c.organisations ==> OrganisationWithin(o))
    && (forall i, j :: 0 <= i < j < |c.organisations| ==> c.organisations[i].id != c.organisations[j].id)
    && RepeatFree(AllIds(c.organisations))
  }

  // ---------------------------------------------------------------- repetitions

  lemma {:induction false} SimpleRepeatFree<T>(s: seq<T>)
    ensures Simple(multiset(s)) <==> RepeatFree(s)
  {
    if s != [] {
      var init, last := s[..|s| - 1], s[|s| - 1];
      assert s == init + [last];
      SimpleRepeatFree(init);
      assert multiset(s)[last] == multiset(init)[last] + 1;
      if Simple(multiset(s)) {
        assert last !in multiset(init);
        forall x | x in multiset(init) ensures multiset(init)[x] == 1 { assert multiset(s)[x] == 1; }
        assert last !in init;
      }
      if RepeatFree(s) {
        assert last !in init by { assert forall i :: 0 <= i < |init| ==> s[i] != s[|s| - 1]; }
        assert RepeatFree(init);
        forall x | x in multiset(s) ensures multiset(s)[x] == 1 { if x != last { assert x in multiset(init); } }
      }
    }
  }

  lemma FieldRepeatFree<T, U>(f: T -> U, s: seq<T>)
    ensures Simple(multiset(Map(f, s))) <==> forall i, j :: 0 <= i < j < |s| ==> f(s[i]) != f(s[j])
  {
    SimpleRepeatFree(Map(f, s));
    if RepeatFree(Map(f, s)) {
      forall i, j | 0 <= i < j < |s| ensures f(s[i]) != f(s[j]) { assert Map(f, s)[i] != Map(f, s)[j]; }
    }
  }

  lemma {:induction false} IdsGathered(os: seq<Organisation>)
    ensures multiset(AllIds(os)) == Gather(ItemIds, os)
  {
    if os != [] { IdsGathered(os[1..]); }
  }

  lemma UniqueExactly(os: seq<Organisation>)
    ensures Unique(os) <==>
            && (forall i, j :: 0 <= i < j < |os| ==> os[i].id != os[j].id) && RepeatFree(AllIds(os))
            && forall o :: o in os ==> UniqueKeys(o)
  {
    FieldRepeatFree((o: Organisation) => o.id, os);
    IdsGathered(os);
    SimpleRepeatFree(AllIds(os));
  }

  lemma KeysExactly(o: Organisation)
    ensures UniqueKeys(o) <==> KeysDiffer(o)
  {
    FieldRepeatFree((p: Pool) => p.code, o.pools);
    FieldRepeatFree((c: Capability) => c.category, o.capabilities);
    FieldRepeatFree((z: Zone) => z.zone, o.zones);
  }

  // ---------------------------------------------------------------- the validators

  lemma DetailsExactly(d: Details)
    ensures SchemaDetails(d) && GoWeight(d) && GoWindow(d) <==> DetailsWithin(d)
  {
    if SchemaDetails(d) { MoneyFieldReads(d.weightKg, 6); }
    if DetailsWithin(d) { MoneyFieldReads(d.weightKg, 6); }
  }

  lemma PoolExactly(p: Pool)
    ensures SchemaPool(p) && GoBalanced(p) && p.version <= MAX_INT64 <==> PoolWithin(p)
  {
    if SchemaPool(p) { BalancedAgree(p); }
    if PoolWithin(p) { BalancedAgree(p); }
  }

  lemma CapabilityExactly(o: Organisation, c: Capability)
    ensures SchemaCapability(c) && c.version <= MAX_INT64 && OwnPool(o, c) <==> CapabilityWithin(o, c)
  {
    SimpleRepeatFree(c.conditions);
  }

  predicate CapabilitiesPass(o: Organisation) {
    forall c :: c in o.capabilities ==> SchemaCapability(c) && c.version <= MAX_INT64 && OwnPool(o, c)
  }

  predicate PoolsPass(o: Organisation) { forall p :: p in o.pools ==> SchemaPool(p) && GoBalanced(p) && p.version <= MAX_INT64 }

  predicate ZonesPass(o: Organisation) { forall z :: z in o.zones ==> SchemaZone(z) && z.version <= MAX_INT64 }

  lemma CapabilitiesExactly(o: Organisation)
    ensures CapabilitiesPass(o) <==> CapabilitiesWithin(o)
  {
    forall c | c in o.capabilities ensures SchemaCapability(c) && c.version <= MAX_INT64 && OwnPool(o, c) <==> CapabilityWithin(o, c) {
      CapabilityExactly(o, c);
    }
  }

  lemma PoolsExactly(o: Organisation)
    ensures PoolsPass(o) <==> PoolsWithin(o)
  {
    forall p | p in o.pools ensures SchemaPool(p) && GoBalanced(p) && p.version <= MAX_INT64 <==> PoolWithin(p) { PoolExactly(p); }
  }

  lemma ZonesExactly(o: Organisation)
    ensures ZonesPass(o) <==> ZonesWithin(o)
  {
    assert forall z :: z in o.zones ==> (SchemaZone(z) && z.version <= MAX_INT64 <==> ZoneWithin(z));
  }

  lemma PartsExactly(o: Organisation)
    ensures SchemaOrganisation(o) && GoOrganisation(o) <==>
            && Visible(o.id, 32) && (o.profile.Some? ==> Counted(o.profile.value.version))
            && CapabilitiesPass(o) && PoolsPass(o) && ZonesPass(o)
  {
  }

  lemma OrganisationExactly(o: Organisation)
    ensures SchemaOrganisation(o) && GoOrganisation(o) && UniqueKeys(o) <==> OrganisationWithin(o)
  {
    PartsExactly(o);
    KeysExactly(o);
    CapabilitiesExactly(o);
    PoolsExactly(o);
    ZonesExactly(o);
  }

  /** The backend accepts a snapshot exactly when every figure and text of it is within its limit, no
      identifier, code, category or zone repeats, and the digests are those of its normal form. */
  lemma ValidExactly(s: Snapshot)
    ensures GoValid(s) <==>
            && 1 <= s.generation <= 0xFFFF_FFFF && 1 <= |s.correlationId| <= 128 && ContentWithin(s.content)
            && s.profileHash == NormalOrganisations(s.content.organisations) && s.inputHash == NormalContent(s.content)
  {
    var os := s.content.organisations;
    DetailsExactly(s.content.batch.details);
    UniqueExactly(os);
    forall o | o in os ensures SchemaOrganisation(o) && GoOrganisation(o) && UniqueKeys(o) <==> OrganisationWithin(o) {
      OrganisationExactly(o);
    }
  }

  // ---------------------------------------------------------------- the normal form

  // By one field, ties by another.
  predicate Ascend(a: string, x: string, b: string, y: string) { if a == b then AtMost(x, y) else AtMost(a, b) }

  predicate CapabilityInOrder(c: Capability) {
    forall i, j :: 0 <= i < j < |c.conditions| ==> AtMost(c.conditions[i], c.conditions[j])
  }

  predicate CapabilitiesInOrder(cs: seq<Capability>) {
    && (forall i, j :: 0 <= i < j < |cs| ==> Ascend(cs[i].category, cs[i].id, cs[j].category, cs[j].id))
    && forall i :: 0 <= i < |cs| ==> CapabilityInOrder(cs[i])
  }

  predicate OrganisationInOrder(o: Organisation) {
    && CapabilitiesInOrder(o.capabilities)
    && (forall i, j :: 0 <= i < j < |o.pools| ==> AtMost(o.pools[i].id, o.pools[j].id))
    && forall i, j :: 0 <= i < j < |o.zones| ==> Ascend(o.zones[i].zone, o.zones[i].id, o.zones[j].zone, o.zones[j].id)
  }

  lemma CapabilitiesOrdered(cs: seq<Capability>)
    ensures CapabilitiesInOrder(Map(NormalCapability, Sorted(CapabilityKey, cs)))
  {
    var sorted := Sorted(CapabilityKey, cs);
    var ds := Map(NormalCapability, sorted);
    SortedOrders(CapabilityKey, cs);
    forall i, j | 0 <= i < j < |ds| ensures Ascend(ds[i].category, ds[i].id, ds[j].category, ds[j].id) {
      assert KeyAtMost(CapabilityKey(sorted[i]), CapabilityKey(sorted[j]));
    }
    forall i | 0 <= i < |ds| ensures CapabilityInOrder(ds[i]) {
      SortedOrders(ConditionKey, sorted[i].conditions);
      forall k, l | 0 <= k < l < |ds[i].conditions| ensures AtMost(ds[i].conditions[k], ds[i].conditions[l]) {
        assert KeyAtMost(ConditionKey(ds[i].conditions[k]), ConditionKey(ds[i].conditions[l]));
        AtMostTotal(ds[i].conditions[k], ds[i].conditions[k]);
      }
    }
  }

  lemma OrganisationOrdered(o: Organisation)
    ensures OrganisationInOrder(NormalOrganisation(o))
  {
    var q := NormalOrganisation(o);
    CapabilitiesOrdered(o.capabilities);
    SortedOrders(PoolKey, o.pools);
    SortedOrders(ZoneKey, o.zones);
    forall i, j | 0 <= i < j < |q.pools| ensures AtMost(q.pools[i].id, q.pools[j].id) {
      assert KeyAtMost(PoolKey(q.pools[i]), PoolKey(q.pools[j]));
      AtMostTotal(q.pools[i].id, q.pools[i].id);
    }
    forall i, j | 0 <= i < j < |q.zones| ensures Ascend(q.zones[i].zone, q.zones[i].id, q.zones[j].zone, q.zones[j].id) {
      assert KeyAtMost(ZoneKey(q.zones[i]), ZoneKey(q.zones[j]));
    }
  }

  /** The order of the normal form: organisations and pools by identifier, capabilities by category,
      zones by zone, conditions by name. */
  lemma NormalInOrder(os: seq<Organisation>)
    ensures var qs := NormalOrganisations(os);
            && (forall i, j :: 0 <= i < j < |qs| ==> AtMost(qs[i].id, qs[j].id))
            && forall i :: 0 <= i < |qs| ==> OrganisationInOrder(qs[i])
  {
    var sorted, qs := Sorted(OrganisationKey, os), NormalOrganisations(os);
    SortedOrders(OrganisationKey, os);
    forall i, j | 0 <= i < j < |qs| ensures AtMost(qs[i].id, qs[j].id) {
      assert KeyAtMost(OrganisationKey(sorted[i]), OrganisationKey(sorted[j]));
      AtMostTotal(qs[i].id, qs[i].id);
    }
    forall i | 0 <= i < |qs| ensures OrganisationInOrder(qs[i]) { OrganisationOrdered(sorted[i]); }
  }

  // ---------------------------------------------------------------- what submissions pass

  lemma RangeFits(s: string)
    requires IsMoney(s) && Amount(s) <= 5_000_000
    ensures |Whole(s)| <= 6
  {
    MoneyUnique(s);
    MoneyShape(Amount(s));
    NumeralValue(Amount(s) / 100);
    WidthBound(Numeral(Amount(s) / 100), 5);
    assert Pow10(5) == 100_000 by { assert Pow10(3) == 1000; }
  }

  /** What a stored batch passes on submission is what a snapshot asks of it, apart from the calendar
      and the form of its organisation's identifier. */
  lemma IntakeAgrees(d: Details)
    ensures DetailsWithin(d) <==>
            Intake.StoredValid(d) && Visible(d.organizationId, 32) && IsInstant(d.submittedAt) && IsInstant(d.deadline)
  {
    if IsMoney(d.weightKg) && Amount(d.weightKg) <= 5_000_000 { RangeFits(d.weightKg); }
  }
}
