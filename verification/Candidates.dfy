/** What every field of a candidate says, stated on the organisation and the batch alone. */
module Candidates {
  import opened Wrappers
  import opened Decimals
  import opened Vocabulary
  import opened Sorting
  import opened Snapshots
  import opened Evaluators

  // ---------------------------------------------------------------- the rows the rules look at

  // The capability of the batch's category.
  ghost predicate CapabilityOf(d: Details, o: Organisation, cap: Option<Capability>) {
    match cap
    case None => forall c :: c in o.capabilities ==> c.category != d.category
    case Some(c) => c in o.capabilities && c.category == d.category
  }

  // The pool that capability names.
  ghost predicate PoolOf(o: Organisation, cap: Option<Capability>, pool: Option<Pool>) {
    match pool
    case None => cap.Some? ==> forall p :: p in o.pools ==> p.id != cap.value.poolId
    case Some(p) => cap.Some? && p in o.pools && p.id == cap.value.poolId
  }

  // The service zone of the batch.
  ghost predicate ZoneOf(d: Details, o: Organisation, zone: Option<Zone>) {
    match zone
    case None => forall z :: z in o.zones ==> z.zone != d.zone
    case Some(z) => z in o.zones && z.zone == d.zone
  }

  // ---------------------------------------------------------------- the five rules

  predicate CategoryMet(cap: Option<Capability>) { cap.Some? && cap.value.isActive }

  predicate CapabilityMet(d: Details, profile: Option<Profile>, cap: Option<Capability>) {
    && profile.Some? && profile.value.isActive && cap.Some? && cap.value.isActive
    && d.condition in cap.value.conditions && (d.isDataBearing ==> cap.value.supportsDataBearing)
  }

  predicate Capacious(pool: Option<Pool>) { pool.Some? && pool.value.isActive }

  // Readable texts, as every schema-valid snapshot has them.
  predicate Readable(d: Details, pool: Option<Pool>) {
    IsAmount(d.weightKg) && (pool.Some? ==> IsAmount(pool.value.totalKg) && IsAmount(pool.value.reservedKg))
  }

  predicate HasRoom(d: Details, pool: Option<Pool>)
    requires Readable(d, pool)
  {
    pool.Some? && Amount(d.weightKg) <= Amount(pool.value.totalKg) - Amount(pool.value.reservedKg)
  }

  predicate ZoneMet(zone: Option<Zone>) { zone.Some? && zone.value.isActive }

  predicate DeadlineMet(d: Details, zone: Option<Zone>, at: int) {
    zone.Some? && zone.value.isActive && at < d.deadline && at + zone.value.leadMinutes * MINUTE <= d.deadline
  }

  // Exactly the rules that fail are listed, least first, each with its own reason.
  ghost predicate TellsFailures(c: Candidate, d: Details, profile: Option<Profile>, cap: Option<Capability>,
                                pool: Option<Pool>, zone: Option<Zone>, at: int)
    requires Readable(d, pool)
  {
    && (Failure(0, CategoryUnsupported) in c.failures <==> !CategoryMet(cap))
    && (Failure(1, CapabilityUnsupported) in c.failures <==> !CapabilityMet(d, profile, cap))
    && (Failure(2, CapacityUnavailable) in c.failures <==> !Capacious(pool))
    && (Failure(2, InsufficientCapacity) in c.failures <==> Capacious(pool) && !HasRoom(d, pool))
    && (Failure(3, OutOfServiceZone) in c.failures <==> !ZoneMet(zone))
    && (Failure(4, DeadlineUnachievable) in c.failures <==> !DeadlineMet(d, zone, at))
    && (forall f :: f in c.failures ==>
          f in {Failure(0, CategoryUnsupported), Failure(1, CapabilityUnsupported), Failure(2, CapacityUnavailable),
                Failure(2, InsufficientCapacity), Failure(3, OutOfServiceZone), Failure(4, DeadlineUnachievable)})
    && (forall i, j :: 0 <= i < j < |c.failures| ==> c.failures[i].rule < c.failures[j].rule)
  }

  // The verdict: a flag for each rule, and the reason of the least one that fails.
  ghost predicate TellsVerdict(c: Candidate) {
    && |c.flags| == 5
    && (forall r: nat :: r < 5 ==> (c.flags[r] <==> forall f :: f in c.failures ==> f.rule != r))
    && (c.isMatched <==> c.failures == [])
    && c.reason == if c.failures == [] then EligibleReason else c.failures[0].reason
  }

  predicate TellsRows(c: Candidate, id: string, profile: Option<Profile>, pool: Option<Pool>, zone: Option<Zone>, at: int) {
    && c.organisationId == id
    && c.profileVersion == (match profile case None => None case Some(p) => Some(p.version))
    && c.poolId == (match pool case None => None case Some(p) => Some(p.id))
    && c.poolVersion == (match pool case None => None case Some(p) => Some(p.version))
    && c.leadMinutes == (if ZoneMet(zone) then Some(zone.value.leadMinutes) else None)
    && c.feasibleAt == (if ZoneMet(zone) then Some(at + zone.value.leadMinutes * MINUTE) else None)
  }

  // What is left of an active pool, printed with two decimals.
  predicate TellsCapacity(c: Candidate, d: Details, pool: Option<Pool>)
    requires Readable(d, pool)
  {
    if !Capacious(pool) then c.availableKg.None?
    else
      && Amount(pool.value.reservedKg) <= Amount(pool.value.totalKg)
      && c.availableKg == Some(Money(Amount(pool.value.totalKg) - Amount(pool.value.reservedKg)))
  }

  predicate TellsEvidence(c: Candidate, profile: Option<Profile>, cap: Option<Capability>, pool: Option<Pool>,
                          zone: Option<Zone>)
  {
    && c.evidence.capabilityId == (match cap case None => None case Some(x) => Some(x.id))
    && c.evidence.capabilityVersion == (match cap case None => None case Some(x) => Some(x.version))
    && c.evidence.zoneId == (match zone case None => None case Some(x) => Some(x.id))
    && c.evidence.zoneVersion == (match zone case None => None case Some(x) => Some(x.version))
    && (ProfileMissing in c.evidence.missing <==> profile.None?) && (CapabilityMissing in c.evidence.missing <==> cap.None?)
    && (PoolMissing in c.evidence.missing <==> pool.None?) && (ZoneMissing in c.evidence.missing <==> zone.None?)
    && Ascending(c.evidence.missing)
  }

  function Rank(x: Configuration): nat {
    match x case ProfileMissing => 0 case CapabilityMissing => 1 case PoolMissing => 2 case ZoneMissing => 3
  }

  predicate Ascending(s: seq<Configuration>) { forall i, j :: 0 <= i < j < |s| ==> Rank(s[i]) < Rank(s[j]) }

  ghost predicate TellsOf(c: Candidate, d: Details, id: string, profile: Option<Profile>, cap: Option<Capability>,
                          pool: Option<Pool>, zone: Option<Zone>, at: int)
  {
    && Readable(d, pool) && TellsFailures(c, d, profile, cap, pool, zone, at) && TellsVerdict(c)
    && TellsRows(c, id, profile, pool, zone, at) && TellsCapacity(c, d, pool) && TellsEvidence(c, profile, cap, pool, zone)
  }

  // Every field of the candidate, as the organisation's own rows have it.
  ghost predicate Tells(c: Candidate, d: Details, o: Organisation, at: int) {
    exists cap, pool, zone ::
      CapabilityOf(d, o, cap) && PoolOf(o, cap, pool) && ZoneOf(d, o, zone) && TellsOf(c, d, o.id, o.profile, cap, pool, zone, at)
  }

  // ---------------------------------------------------------------- one candidate

  lemma RowsFound(d: Details, o: Organisation)
    ensures var cap := PyCapability(d, o);
            CapabilityOf(d, o, cap) && PoolOf(o, cap, PyPool(o, cap)) && ZoneOf(d, o, PyZone(d, o))
  {
  }

  lemma FailureIn(fs: seq<Failure>, flags: seq<bool>, reasons: seq<Reason>, k: nat, r: Reason)
    requires |flags| == |reasons| && FailsExactly(fs, flags, reasons) && k < |flags|
    ensures Failure(k, r) in fs <==> !flags[k] && r == reasons[k]
  {
    if Failure(k, r) in fs {
      var i :| 0 <= i < |fs| && fs[i] == Failure(k, r);
    }
  }

  lemma RuleIn(fs: seq<Failure>, flags: seq<bool>, reasons: seq<Reason>, k: nat)
    requires |flags| == |reasons| && FailsExactly(fs, flags, reasons) && k < |flags|
    ensures flags[k] <==> forall f :: f in fs ==> f.rule != k
  {
    if !flags[k] { FailureIn(fs, flags, reasons, k, reasons[k]); }
    forall f | f in fs ensures flags[k] ==> f.rule != k {
      var i :| 0 <= i < |fs| && fs[i] == f;
    }
  }

  // The failures of five flags, with the reasons in rule order.
  lemma ListTells(fs: seq<Failure>, flags: seq<bool>, capacity: Reason)
    requires |flags| == 5
    requires fs == Failures(flags, [CategoryUnsupported, CapabilityUnsupported, capacity, OutOfServiceZone, DeadlineUnachievable])
    ensures Failure(0, CategoryUnsupported) in fs <==> !flags[0]
    ensures Failure(1, CapabilityUnsupported) in fs <==> !flags[1]
    ensures forall r :: Failure(2, r) in fs <==> !flags[2] && r == capacity
    ensures Failure(3, OutOfServiceZone) in fs <==> !flags[3]
    ensures Failure(4, DeadlineUnachievable) in fs <==> !flags[4]
    ensures forall f :: f in fs ==>
              f in {Failure(0, CategoryUnsupported), Failure(1, CapabilityUnsupported), Failure(2, capacity),
                    Failure(3, OutOfServiceZone), Failure(4, DeadlineUnachievable)}
    ensures forall i, j :: 0 <= i < j < |fs| ==> fs[i].rule < fs[j].rule
    ensures forall r: nat :: r < 5 ==> (flags[r] <==> forall f :: f in fs ==> f.rule != r)
    ensures fs == [] <==> false !in flags
  {
    var reasons := [CategoryUnsupported, CapabilityUnsupported, capacity, OutOfServiceZone, DeadlineUnachievable];
    FailuresExact(flags, reasons);
    FailuresEmpty(flags, reasons);
    FailureIn(fs, flags, reasons, 0, CategoryUnsupported);
    FailureIn(fs, flags, reasons, 1, CapabilityUnsupported);
    forall r ensures Failure(2, r) in fs <==> !flags[2] && r == capacity { FailureIn(fs, flags, reasons, 2, r); }
    FailureIn(fs, flags, reasons, 3, OutOfServiceZone);
    FailureIn(fs, flags, reasons, 4, DeadlineUnachievable);
    forall r: nat | r < 5 ensures flags[r] <==> forall f :: f in fs ==> f.rule != r { RuleIn(fs, flags, reasons, r); }
    forall f | f in fs
      ensures f in {Failure(0, CategoryUnsupported), Failure(1, CapabilityUnsupported), Failure(2, capacity),
                    Failure(3, OutOfServiceZone), Failure(4, DeadlineUnachievable)}
    {
      ListedOne(fs, flags, reasons, f);
    }
  }

  lemma ListedOne(fs: seq<Failure>, flags: seq<bool>, reasons: seq<Reason>, f: Failure)
    requires |flags| == |reasons| && FailsExactly(fs, flags, reasons) && f in fs
    ensures f.rule < |reasons| && f == Failure(f.rule, reasons[f.rule])
  {
    var i :| 0 <= i < |fs| && fs[i] == f;
  }

  // What each flag says.
  lemma FlagsTell(d: Details, o: Organisation, cap: Option<Capability>, pool: Option<Pool>, zone: Option<Zone>, fits: bool,
                  feasible: Option<int>, at: int)
    requires feasible == if ZoneMet(zone) then Some(at + zone.value.leadMinutes * MINUTE) else None
    ensures var flags := PyFlags(d, o, cap, pool, zone, fits, feasible, at);
            && flags[0] == CategoryMet(cap) && flags[1] == CapabilityMet(d, o.profile, cap)
            && flags[2] == (Capacious(pool) && fits) && flags[3] == ZoneMet(zone) && flags[4] == DeadlineMet(d, zone, at)
  {
  }

  lemma FailuresTell(c: Candidate, d: Details, o: Organisation, cap: Option<Capability>, pool: Option<Pool>,
                     zone: Option<Zone>, fits: bool, feasible: Option<int>, at: int)
    requires Readable(d, pool) && (Capacious(pool) ==> (fits <==> HasRoom(d, pool)))
    requires feasible == if ZoneMet(zone) then Some(at + zone.value.leadMinutes * MINUTE) else None
    requires c.flags == PyFlags(d, o, cap, pool, zone, fits, feasible, at)
    requires c.failures == Failures(c.flags, Reasons(ActivePool(pool)))
    ensures TellsFailures(c, d, o.profile, cap, pool, zone, at)
    ensures forall r: nat :: r < 5 ==> (c.flags[r] <==> forall f :: f in c.failures ==> f.rule != r)
    ensures c.failures == [] <==> false !in c.flags
  {
    FlagsTell(d, o, cap, pool, zone, fits, feasible, at);
    ListTells(c.failures, c.flags, if Capacious(pool) then InsufficientCapacity else CapacityUnavailable);
  }

  lemma RowTells(c: Candidate, d: Details, o: Organisation, cap: Option<Capability>, pool: Option<Pool>,
                 zone: Option<Zone>, flags: seq<bool>, available: Option<string>, feasible: Option<int>, at: int)
    requires |flags| == 5 && c == PyRecord(o, cap, pool, zone, flags, available, feasible)
    requires feasible == if ZoneMet(zone) then Some(at + zone.value.leadMinutes * MINUTE) else None
    ensures TellsRows(c, o.id, o.profile, pool, zone, at)
    ensures c.flags == flags && c.failures == Failures(flags, Reasons(ActivePool(pool))) && c.availableKg == available
    ensures c.isMatched <==> false !in flags
    ensures c.reason == if c.failures == [] then EligibleReason else c.failures[0].reason
  {
  }

  lemma AppendAscends(s: seq<Configuration>, lacks: bool, x: Configuration) returns (r: seq<Configuration>)
    requires Ascending(s) && forall y :: y in s ==> Rank(y) < Rank(x)
    ensures r == s + if lacks then [x] else []
    ensures Ascending(r) && forall y :: y in r <==> y in s || (lacks && y == x)
  {
    r := s + if lacks then [x] else [];
  }

  lemma MissingTells(profile: bool, capability: bool, pool: bool, zone: bool)
    ensures var m := MissingConfiguration(profile, capability, pool, zone);
            && Ascending(m) && (ProfileMissing in m <==> profile) && (CapabilityMissing in m <==> capability)
            && (PoolMissing in m <==> pool) && (ZoneMissing in m <==> zone)
  {
    var p := AppendAscends([], profile, ProfileMissing);
    var c := AppendAscends(p, capability, CapabilityMissing);
    var q := AppendAscends(c, pool, PoolMissing);
    var m := AppendAscends(q, zone, ZoneMissing);
    assert p == if profile then [ProfileMissing] else [];
    assert MissingConfiguration(profile, capability, pool, zone) == m;
  }

  lemma EvidenceTells(c: Candidate, o: Organisation, cap: Option<Capability>, pool: Option<Pool>,
                      zone: Option<Zone>, flags: seq<bool>, available: Option<string>, feasible: Option<int>)
    requires |flags| == 5 && c == PyRecord(o, cap, pool, zone, flags, available, feasible)
    ensures TellsEvidence(c, o.profile, cap, pool, zone)
  {
    MissingTells(o.profile.None?, cap.None?, pool.None?, zone.None?);
  }

  lemma RoomOf(total: int, reserved: int, weight: int)
    requires reserved <= total
    ensures PyCapacityOf(Kg(total), Kg(reserved), Kg(weight)) == Capacity(weight <= total - reserved, Money(total - reserved))
  {
    assert Kg(total) - Kg(reserved) == Kg(total - reserved);
    PyKgOfCents(total - reserved);
  }

  lemma CapacityTells(d: Details, p: Pool)
    requires SchemaDetails(d) && SchemaPool(p) && GoBalanced(p)
    ensures Readable(d, Some(p)) && Amount(p.reservedKg) <= Amount(p.totalKg)
    ensures PyCapacity(d, p) == Capacity(HasRoom(d, Some(p)), Money(Amount(p.totalKg) - Amount(p.reservedKg)))
  {
    BalancedAgree(p);
    RoomOf(Amount(p.totalKg), Amount(p.reservedKg), Amount(d.weightKg));
    assert PyCapacity(d, p) == PyCapacityOf(Kg(Amount(p.totalKg)), Kg(Amount(p.reservedKg)), Kg(Amount(d.weightKg))) by {
      FieldReads(p.totalKg, 10);
      FieldReads(p.reservedKg, 10);
      FieldReads(d.weightKg, 6);
    }
  }

  // The record once its parts are known.
  lemma RecordTells(c: Candidate, d: Details, o: Organisation, cap: Option<Capability>, pool: Option<Pool>, zone: Option<Zone>,
                    fits: bool, text: Option<string>, feasible: Option<int>, at: int)
    requires Readable(d, pool) && (Capacious(pool) ==> (fits <==> HasRoom(d, pool)))
    requires if !Capacious(pool) then text.None?
             else Amount(pool.value.reservedKg) <= Amount(pool.value.totalKg) &&
                  text == Some(Money(Amount(pool.value.totalKg) - Amount(pool.value.reservedKg)))
    requires feasible == if ZoneMet(zone) then Some(at + zone.value.leadMinutes * MINUTE) else None
    requires c == PyRecord(o, cap, pool, zone, PyFlags(d, o, cap, pool, zone, fits, feasible, at), text, feasible)
    ensures TellsOf(c, d, o.id, o.profile, cap, pool, zone, at)
  {
    var flags := PyFlags(d, o, cap, pool, zone, fits, feasible, at);
    RowTells(c, d, o, cap, pool, zone, flags, text, feasible, at);
    EvidenceTells(c, o, cap, pool, zone, flags, text, feasible);
    FailuresTell(c, d, o, cap, pool, zone, fits, feasible, at);
  }

  // The pool's texts are read as the amounts they are.
  ghost predicate ReadTruly(d: Details, o: Organisation, read: (Details, Pool) -> Capacity) {
    forall p :: p in o.pools ==>
      && Readable(d, Some(p)) && Amount(p.reservedKg) <= Amount(p.totalKg)
      && read(d, p) == Capacity(HasRoom(d, Some(p)), Money(Amount(p.totalKg) - Amount(p.reservedKg)))
  }

  // What the record prints of the pool.
  function Printed(d: Details, pool: Option<Pool>, read: (Details, Pool) -> Capacity): Option<string> {
    if ActivePool(pool) then Some(read(d, pool.value).availableKg) else None
  }

  lemma PoolReads(d: Details, o: Organisation, cap: Option<Capability>, pool: Option<Pool>, read: (Details, Pool) -> Capacity)
    requires IsAmount(d.weightKg) && ReadTruly(d, o, read) && PoolOf(o, cap, pool)
    ensures Readable(d, pool) && (Capacious(pool) ==> (read(d, pool.value).fits <==> HasRoom(d, pool)))
    ensures if !Capacious(pool) then Printed(d, pool, read).None?
            else Amount(pool.value.reservedKg) <= Amount(pool.value.totalKg) &&
                 Printed(d, pool, read) == Some(Money(Amount(pool.value.totalKg) - Amount(pool.value.reservedKg)))
  {
  }

  lemma CandidateIs(d: Details, o: Organisation, at: int, read: (Details, Pool) -> Capacity, c: Candidate)
    returns (cap: Option<Capability>, pool: Option<Pool>, zone: Option<Zone>, feasible: Option<int>)
    requires PyCandidate(d, o, at, read) == Some(c)
    ensures CapabilityOf(d, o, cap) && PoolOf(o, cap, pool) && ZoneOf(d, o, zone)
    ensures feasible == if ZoneMet(zone) then Some(at + zone.value.leadMinutes * MINUTE) else None
    ensures c == PyRecord(o, cap, pool, zone,
                          PyFlags(d, o, cap, pool, zone, ActivePool(pool) && read(d, pool.value).fits, feasible, at),
                          Printed(d, pool, read), feasible)
  {
    cap, zone := PyCapability(d, o), PyZone(d, o);
    pool := PyPool(o, cap);
    feasible := if ZoneMet(zone) then Some(at + zone.value.leadMinutes * MINUTE) else None;
    RowsFound(d, o);
  }

  lemma RowsTell(c: Candidate, d: Details, o: Organisation, at: int, read: (Details, Pool) -> Capacity,
                 cap: Option<Capability>, pool: Option<Pool>, zone: Option<Zone>, feasible: Option<int>)
    requires IsAmount(d.weightKg) && ReadTruly(d, o, read)
    requires CapabilityOf(d, o, cap) && PoolOf(o, cap, pool) && ZoneOf(d, o, zone)
    requires feasible == if ZoneMet(zone) then Some(at + zone.value.leadMinutes * MINUTE) else None
    requires c == PyRecord(o, cap, pool, zone,
                           PyFlags(d, o, cap, pool, zone, ActivePool(pool) && read(d, pool.value).fits, feasible, at),
                           Printed(d, pool, read), feasible)
    ensures Tells(c, d, o, at)
  {
    PoolReads(d, o, cap, pool, read);
    RecordTells(c, d, o, cap, pool, zone, ActivePool(pool) && read(d, pool.value).fits, Printed(d, pool, read), feasible, at);
  }

  lemma CandidateTells(d: Details, o: Organisation, at: int, read: (Details, Pool) -> Capacity, c: Candidate)
    requires IsAmount(d.weightKg) && ReadTruly(d, o, read) && PyCandidate(d, o, at, read) == Some(c)
    ensures Tells(c, d, o, at)
  {
    var cap, pool, zone, feasible := CandidateIs(d, o, at, read, c);
    RowsTell(c, d, o, at, read, cap, pool, zone, feasible);
  }

  lemma LastCandidate(d: Details, os: seq<Organisation>, at: int, read: (Details, Pool) -> Capacity, cs: seq<Candidate>)
    requires os != [] && PyCandidates(d, os, at, read) == Some(cs)
    ensures cs != [] && PyCandidates(d, os[..|os| - 1], at, read) == Some(cs[..|cs| - 1])
    ensures PyCandidate(d, os[|os| - 1], at, read) == Some(cs[|cs| - 1])
  {
    var init, c := PyCandidates(d, os[..|os| - 1], at, read).value, PyCandidate(d, os[|os| - 1], at, read).value;
    assert cs == init + [c];
    assert cs[..|cs| - 1] == init;
  }

  lemma {:induction false} CandidatesTell(d: Details, os: seq<Organisation>, at: int, read: (Details, Pool) -> Capacity,
                                          cs: seq<Candidate>)
    requires IsAmount(d.weightKg) && (forall o :: o in os ==> ReadTruly(d, o, read))
    requires PyCandidates(d, os, at, read) == Some(cs)
    ensures |cs| == |os| && forall i {:trigger Tells(cs[i], d, os[i], at)} :: 0 <= i < |os| ==> Tells(cs[i], d, os[i], at)
  {
    if os != [] {
      LastCandidate(d, os, at, read, cs);
      CandidatesTell(d, os[..|os| - 1], at, read, cs[..|cs| - 1]);
      CandidateTells(d, os[|os| - 1], at, read, cs[|cs| - 1]);
      forall i | 0 <= i < |os| - 1 ensures Tells(cs[i], d, os[i], at) {
        assert Tells(cs[..|cs| - 1][i], d, os[..|os| - 1][i], at);
      }
    }
  }

  // ---------------------------------------------------------------- the normal form says the same

  lemma CapabilityBefore(d: Details, o: Organisation, q: Organisation, cap: Option<Capability>) returns (own: Option<Capability>)
    requires OrganisationReordered(o, q) && CapabilityOf(d, q, cap)
    ensures CapabilityOf(d, o, own) && (cap.Some? <==> own.Some?)
    ensures cap.Some? ==> CapabilityReordered(own.value, cap.value)
  {
    var cs :| multiset(o.capabilities) == multiset(cs) && CapabilitiesPointwise(cs, q.capabilities);
    SameElements(o.capabilities, cs);
    match cap
    case Some(c) =>
      var i :| 0 <= i < |q.capabilities| && q.capabilities[i] == c;
      own := Some(cs[i]);
    case None =>
      own := None;
      forall c | c in o.capabilities ensures c.category != d.category {
        var i :| 0 <= i < |cs| && cs[i] == c;
        assert q.capabilities[i] in q.capabilities;
      }
  }

  lemma PoolBefore(o: Organisation, q: Organisation, cap: Option<Capability>, own: Option<Capability>, pool: Option<Pool>)
    requires multiset(o.pools) == multiset(q.pools) && PoolOf(q, cap, pool)
    requires (cap.Some? <==> own.Some?) && (cap.Some? ==> own.value.poolId == cap.value.poolId)
    ensures PoolOf(o, own, pool)
  {
    SameElements(o.pools, q.pools);
  }

  lemma ZoneBefore(d: Details, o: Organisation, q: Organisation, zone: Option<Zone>)
    requires multiset(o.zones) == multiset(q.zones) && ZoneOf(d, q, zone)
    ensures ZoneOf(d, o, zone)
  {
    SameElements(o.zones, q.zones);
  }

  // The rules see of a capability only what a rearrangement of its conditions keeps.
  lemma TellsReordered(c: Candidate, d: Details, id: string, profile: Option<Profile>, cap: Option<Capability>,
                       own: Option<Capability>, pool: Option<Pool>, zone: Option<Zone>, at: int)
    requires TellsOf(c, d, id, profile, cap, pool, zone, at)
    requires (cap.Some? <==> own.Some?) && (cap.Some? ==> CapabilityReordered(own.value, cap.value))
    ensures TellsOf(c, d, id, profile, own, pool, zone, at)
  {
    if cap.Some? { SameElements(own.value.conditions, cap.value.conditions); }
  }

  lemma TellsNormal(c: Candidate, d: Details, o: Organisation, at: int)
    requires Tells(c, d, NormalOrganisation(o), at)
    ensures Tells(c, d, o, at)
  {
    var q := NormalOrganisation(o);
    var cap, pool, zone :| CapabilityOf(d, q, cap) && PoolOf(q, cap, pool) && ZoneOf(d, q, zone) &&
                           TellsOf(c, d, q.id, q.profile, cap, pool, zone, at);
    NormalOrganisationIsReordering(o);
    var own := CapabilityBefore(d, o, q, cap);
    PoolBefore(o, q, cap, own, pool);
    ZoneBefore(d, o, q, zone);
    TellsReordered(c, d, o.id, o.profile, cap, own, pool, zone, at);
  }

  // ---------------------------------------------------------------- every output

  ghost predicate AllTell(s: Snapshot, cs: seq<Candidate>) {
    |cs| == |Ranked(s)| &&
    forall i :: 0 <= i < |cs| ==> Tells(cs[i], s.content.batch.details, Ranked(s)[i], s.content.evaluationAt)
  }

  lemma NormalReadTruly(s: Snapshot)
    requires GoValid(s) || PyValid(s)
    ensures IsAmount(s.content.batch.details.weightKg)
    ensures forall o :: o in NormalOrganisations(s.content.organisations) ==> ReadTruly(s.content.batch.details, o, PyCapacity)
  {
    var d := s.content.batch.details;
    NormalReadable(s);
    forall o | o in NormalOrganisations(s.content.organisations) ensures ReadTruly(d, o, PyCapacity) {
      assert SchemaOrganisation(o) && Evaluators.Sound(o);
      forall p | p in o.pools
        ensures Readable(d, Some(p)) && Amount(p.reservedKg) <= Amount(p.totalKg)
        ensures PyCapacity(d, p) == Capacity(HasRoom(d, Some(p)), Money(Amount(p.totalKg) - Amount(p.reservedKg)))
      {
        CapacityTells(d, p);
      }
    }
  }

  lemma NormalCandidatesTell(s: Snapshot)
    requires GoValid(s) || PyValid(s)
    requires PyCandidates(s.content.batch.details, NormalOrganisations(s.content.organisations), s.content.evaluationAt, PyCapacity).Some?
    ensures AllTell(s, PyCandidates(s.content.batch.details, NormalOrganisations(s.content.organisations),
                                    s.content.evaluationAt, PyCapacity).value)
  {
    var d, os, at := s.content.batch.details, s.content.organisations, s.content.evaluationAt;
    NormalReadTruly(s);
    var cs := PyCandidates(d, NormalOrganisations(os), at, PyCapacity).value;
    CandidatesTell(d, NormalOrganisations(os), at, PyCapacity, cs);
    forall i | 0 <= i < |Ranked(s)| ensures Tells(cs[i], d, Ranked(s)[i], at) {
      TellsNormal(cs[i], d, Ranked(s)[i], at);
    }
  }

  /** Every candidate of whatever either evaluator returns, field by field: exactly the failing rules
      with their own reasons, the reason of the least one, and the rows and figures they rest on. */
  lemma OutputsTell(s: Snapshot)
    ensures PyEvaluate(s).Some? ==> AllTell(s, PyEvaluate(s).value.candidates)
    ensures GoOutput(s).Some? ==> AllTell(s, GoOutput(s).value.candidates)
  {
    if PyEvaluate(s).Some? { NormalCandidatesTell(s); }
    if GoOutput(s).Some? {
      GoCandidatesArePython(s);
      NormalCandidatesTell(s);
    }
  }

  // ---------------------------------------------------------------- the output around them

  function MatchedAt(cs: seq<Candidate>): set<nat> { set k: nat | k < |cs| && cs[k].isMatched }

  lemma {:induction false} EligibleCounts(cs: seq<Candidate>)
    ensures Eligible(cs) == |MatchedAt(cs)|
  {
    if cs != [] {
      var n := |cs| - 1;
      EligibleCounts(cs[..n]);
      assert MatchedAt(cs) == MatchedAt(cs[..n]) + if cs[n].isMatched then {n} else {};
    }
  }

  // The output repeats what it was evaluated from, and counts its candidates.
  ghost predicate OutputTells(s: Snapshot, o: Output) {
    && o.runId == s.runId && o.decisionId == s.decisionId && o.generation == s.generation
    && o.inputHash == s.inputHash && o.profileHash == s.profileHash && o.evaluationAt == s.content.evaluationAt
    && o.batchId == s.content.batch.id && o.batchVersion == s.content.batch.version && o.epoch == s.content.batch.epoch
    && o.ruleSetId == s.content.rule.id
    && o.evaluatedCount == |o.candidates| && o.eligibleCount == |MatchedAt(o.candidates)|
    && (o.outcome == Matched <==> o.eligibleCount > 0) && (o.primaryReason == EligibleExists <==> o.eligibleCount > 0)
    && (o.primaryReason == NoApprovedOrganisation <==> o.candidates == [])
  }

  lemma HeadersTell(s: Snapshot)
    ensures PyEvaluate(s).Some? ==> OutputTells(s, PyEvaluate(s).value)
    ensures GoOutput(s).Some? ==> OutputTells(s, GoOutput(s).value)
  {
    if PyEvaluate(s).Some? { EligibleCounts(PyEvaluate(s).value.candidates); }
    if GoOutput(s).Some? { EligibleCounts(GoOutput(s).value.candidates); }
  }
}
