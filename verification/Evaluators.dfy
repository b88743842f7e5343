/** Rules M1 to M5 twice: Python's first match in decimals, Go's last match in cents. */
module Evaluators {
  import opened Wrappers
  import opened Decimals
  import opened Vocabulary
  import opened Sorting
  import opened Snapshots

  datatype Reason =
    | EligibleReason | CategoryUnsupported | CapabilityUnsupported | InsufficientCapacity | CapacityUnavailable
    | OutOfServiceZone | DeadlineUnachievable

  // rule is the index of M1 to M5.
  datatype Failure = Failure(rule: nat, reason: Reason)

  datatype Configuration = ProfileMissing | CapabilityMissing | PoolMissing | ZoneMissing

  datatype Evidence = Evidence(
    capabilityId: Option<string>, capabilityVersion: Option<int>, zoneId: Option<string>, zoneVersion: Option<int>,
    missing: seq<Configuration>)

  datatype Candidate = Candidate(
    organisationId: string, profileVersion: Option<int>, flags: seq<bool>, isMatched: bool,
    availableKg: Option<string>, poolId: Option<string>, poolVersion: Option<int>, leadMinutes: Option<int>,
    feasibleAt: Option<int>, reason: Reason, failures: seq<Failure>, evidence: Evidence)

  datatype Outcome = Matched | NoMatch

  datatype PrimaryReason = EligibleExists | NoEligibleOrganisation | NoApprovedOrganisation

  datatype Output = Output(
    runId: string, decisionId: string, generation: int, inputHash: Canon, profileHash: seq<Organisation>,
    evaluationAt: int, batchId: string, batchVersion: int, epoch: int, ruleSetId: string,
    candidates: seq<Candidate>, outcome: Outcome, primaryReason: PrimaryReason,
    evaluatedCount: int, eligibleCount: int)

  // ---------------------------------------------------------------- lookups

  function First<T>(p: T -> bool, s: seq<T>): (r: Option<T>)
    ensures r.Some? ==> r.value in s && p(r.value)
    ensures r.None? ==> forall x :: x in s ==> !p(x)
  {
    if s == [] then None else if p(s[0]) then Some(s[0]) else First(p, s[1..])
  }

  function Last<T>(p: T -> bool, s: seq<T>): (r: Option<T>)
    ensures r.Some? ==> r.value in s && p(r.value)
    ensures r.None? ==> forall x :: x in s ==> !p(x)
  {
    if s == [] then None
    else if p(s[|s| - 1]) then Some(s[|s| - 1])
    else
      assert s == s[..|s| - 1] + [s[|s| - 1]];
      Last(p, s[..|s| - 1])
  }

  // At most one element of the list satisfies p.
  ghost predicate AtMostOne<T(!new)>(p: T -> bool, s: seq<T>) {
    forall x, y :: x in s && y in s && p(x) && p(y) ==> x == y
  }

  // ---------------------------------------------------------------- shared record fields

  function Failures(flags: seq<bool>, reasons: seq<Reason>): seq<Failure>
    requires |flags| == |reasons|
  {
    if flags == [] then []
    else Failures(flags[..|flags| - 1], reasons[..|flags| - 1]) +
         if flags[|flags| - 1] then [] else [Failure(|flags| - 1, reasons[|flags| - 1])]
  }

  function Reasons(activePool: bool): (r: seq<Reason>) {
    [CategoryUnsupported, CapabilityUnsupported,
     if activePool then InsufficientCapacity else CapacityUnavailable, OutOfServiceZone, DeadlineUnachievable]
  }

  function MissingConfiguration(profile: bool, capability: bool, pool: bool, zone: bool): seq<Configuration> {
    (if profile then [ProfileMissing] else []) + (if capability then [CapabilityMissing] else []) +
    (if pool then [PoolMissing] else []) + (if zone then [ZoneMissing] else [])
  }

  predicate ActivePool(p: Option<Pool>) { p.Some? && p.value.isActive }
  predicate ActiveZone(z: Option<Zone>) { z.Some? && z.value.isActive }
  predicate ActiveCapability(c: Option<Capability>) { c.Some? && c.value.isActive }

  // ---------------------------------------------------------------- Python: _candidate

  function PyFeasible(zone: Option<Zone>, evaluation: int): Option<Option<int>> {
    if !ActiveZone(zone) then Some(None)
    else if evaluation + zone.value.leadMinutes * MINUTE >= END_OF_TIME then None
    else Some(Some(evaluation + zone.value.leadMinutes * MINUTE))
  }

  // available >= weight, and available printed with two places; available is exact.
  datatype Capacity = Capacity(fits: bool, availableKg: string)

  function Decimal(s: string): real { if IsAmount(s) then PyDecimal(s) else 0.0 }

  function PyCapacityOf(total: real, reserved: real, weight: real): Capacity {
    Capacity(total - reserved >= weight, PyKg(total - reserved))
  }

  function PyCapacity(d: Details, p: Pool): Capacity {
    PyCapacityOf(Decimal(p.totalKg), Decimal(p.reservedKg), Decimal(d.weightKg))
  }

  function PyFlags(d: Details, o: Organisation, cap: Option<Capability>, pool: Option<Pool>, zone: Option<Zone>,
                   fits: bool, feasible: Option<int>, evaluation: int): (r: seq<bool>)
    ensures |r| == 5
  {
    [ActiveCapability(cap),
     o.profile.Some? && o.profile.value.isActive && ActiveCapability(cap) &&
       d.condition in cap.value.conditions && (!d.isDataBearing || cap.value.supportsDataBearing),
     ActivePool(pool) && fits,
     ActiveZone(zone),
     ActiveZone(zone) && evaluation < d.deadline && feasible.Some? && feasible.value <= d.deadline]
  }

  function PyRecord(o: Organisation, cap: Option<Capability>, pool: Option<Pool>, zone: Option<Zone>,
                    flags: seq<bool>, available: Option<string>, feasible: Option<int>): Candidate
    requires |flags| == 5
  {
    var failures := Failures(flags, Reasons(ActivePool(pool)));
    Candidate(o.id, if o.profile.Some? then Some(o.profile.value.version) else None, flags, false !in flags,
              available, if pool.Some? then Some(pool.value.id) else None,
              if pool.Some? then Some(pool.value.version) else None,
              if ActiveZone(zone) then Some(zone.value.leadMinutes) else None, feasible,
              if failures != [] then failures[0].reason else EligibleReason, failures,
              Evidence(if cap.Some? then Some(cap.value.id) else None, if cap.Some? then Some(cap.value.version) else None,
                       if zone.Some? then Some(zone.value.id) else None,
                       if zone.Some? then Some(zone.value.version) else None,
                       MissingConfiguration(o.profile.None?, cap.None?, pool.None?, zone.None?)))
  }

  function PyCapability(d: Details, o: Organisation): Option<Capability> {
    First((c: Capability) => c.category == d.category, o.capabilities)
  }

  function PyPool(o: Organisation, cap: Option<Capability>): Option<Pool> {
    if cap.None? then None else First((p: Pool) => p.id == cap.value.poolId, o.pools)
  }

  function PyZone(d: Details, o: Organisation): Option<Zone> { First((z: Zone) => z.zone == d.zone, o.zones) }

  // How the pool's texts are read is a parameter, so that the rules are proved apart from the texts.
  function PyCandidate(d: Details, o: Organisation, evaluation: int, read: (Details, Pool) -> Capacity)
    : Option<Candidate>
  {
    var cap := PyCapability(d, o);
    var pool := PyPool(o, cap);
    var zone := PyZone(d, o);
    match PyFeasible(zone, evaluation)
    case None => None
    case Some(feasible) =>
      var fits := ActivePool(pool) && read(d, pool.value).fits;
      var text := if ActivePool(pool) then Some(read(d, pool.value).availableKg) else None;
      Some(PyRecord(o, cap, pool, zone, PyFlags(d, o, cap, pool, zone, fits, feasible, evaluation), text, feasible))
  }

  // ---------------------------------------------------------------- Go: expectedOutput, one organisation

  const MAX_LEAD_MINUTES: int := 153_722_867

  function GoFeasible(zone: Option<Zone>, evaluation: int): Option<Option<int>> {
    if !ActiveZone(zone) then Some(None)
    else if zone.value.leadMinutes > MAX_LEAD_MINUTES then None
    else if evaluation + zone.value.leadMinutes * MINUTE >= END_OF_TIME then None
    else Some(Some(evaluation + zone.value.leadMinutes * MINUTE))
  }

  // A failed parse is the zero the source ignores; validated money never fails.
  function Cents(s: string): int { if GoCents(s).Some? then GoCents(s).value else 0 }

  function GoCapacityOf(total: int, reserved: int, weight: int): Capacity {
    Capacity(total - reserved >= weight, GoMoney(total - reserved))
  }

  function GoCapacity(d: Details, p: Pool): Capacity {
    GoCapacityOf(Cents(p.totalKg), Cents(p.reservedKg), Cents(d.weightKg))
  }

  function GoFlags(d: Details, o: Organisation, cap: Option<Capability>, pool: Option<Pool>, zone: Option<Zone>,
                   fits: bool, feasible: Option<int>, evaluation: int): (r: seq<bool>)
    ensures |r| == 5
  {
    var condition := cap.Some? && exists i :: 0 <= i < |cap.value.conditions| && cap.value.conditions[i] == d.condition;
    [ActiveCapability(cap),
     o.profile.Some? && o.profile.value.isActive && ActiveCapability(cap) && condition &&
       (!d.isDataBearing || cap.value.supportsDataBearing),
     ActivePool(pool) && fits,
     ActiveZone(zone),
     ActiveZone(zone) && evaluation < d.deadline && !(feasible.Some? && feasible.value > d.deadline)]
  }

  function GoRecord(o: Organisation, cap: Option<Capability>, pool: Option<Pool>, zone: Option<Zone>,
                    flags: seq<bool>, available: Option<string>, feasible: Option<int>): Candidate
    requires |flags| == 5
  {
    var failures := Failures(flags, Reasons(ActivePool(pool)));
    Candidate(o.id, if o.profile.Some? then Some(o.profile.value.version) else None, flags, |failures| == 0,
              available, if pool.Some? then Some(pool.value.id) else None,
              if pool.Some? then Some(pool.value.version) else None,
              if ActiveZone(zone) then Some(zone.value.leadMinutes) else None, feasible,
              if |failures| > 0 then failures[0].reason else EligibleReason, failures,
              Evidence(if cap.Some? then Some(cap.value.id) else None, if cap.Some? then Some(cap.value.version) else None,
                       if zone.Some? then Some(zone.value.id) else None,
                       if zone.Some? then Some(zone.value.version) else None,
                       MissingConfiguration(o.profile.None?, cap.None?, pool.None?, zone.None?)))
  }

  function GoCapability(d: Details, o: Organisation): Option<Capability> {
    Last((c: Capability) => c.category == d.category, o.capabilities)
  }

  function GoPool(o: Organisation, cap: Option<Capability>): Option<Pool> {
    Last((p: Pool) => cap.Some? && p.id == cap.value.poolId, o.pools)
  }

  function GoZone(d: Details, o: Organisation): Option<Zone> { Last((z: Zone) => z.zone == d.zone, o.zones) }

  function GoCandidate(d: Details, o: Organisation, evaluation: int, read: (Details, Pool) -> Capacity)
    : Option<Candidate>
  {
    var cap := GoCapability(d, o);
    var pool := GoPool(o, cap);
    var zone := GoZone(d, o);
    match GoFeasible(zone, evaluation)
    case None => None
    case Some(feasible) =>
      var fits := ActivePool(pool) && read(d, pool.value).fits;
      var text := if ActivePool(pool) then Some(read(d, pool.value).availableKg) else None;
      Some(GoRecord(o, cap, pool, zone, GoFlags(d, o, cap, pool, zone, fits, feasible, evaluation), text, feasible))
  }

  // ---------------------------------------------------------------- the whole output

  // One overflow abandons the whole evaluation.
  function PyCandidates(d: Details, os: seq<Organisation>, evaluation: int, read: (Details, Pool) -> Capacity)
    : (r: Option<seq<Candidate>>)
  {
    if os == [] then Some([])
    else
      match (PyCandidates(d, os[..|os| - 1], evaluation, read), PyCandidate(d, os[|os| - 1], evaluation, read))
      case (Some(cs), Some(c)) => Some(cs + [c])
      case _ => None
  }

  function GoCandidates(d: Details, os: seq<Organisation>, evaluation: int, read: (Details, Pool) -> Capacity)
    : (r: Option<seq<Candidate>>)
  {
    if os == [] then Some([])
    else
      match (GoCandidates(d, os[..|os| - 1], evaluation, read), GoCandidate(d, os[|os| - 1], evaluation, read))
      case (Some(cs), Some(c)) => Some(cs + [c])
      case _ => None
  }

  function Eligible(cs: seq<Candidate>): (n: nat)
    ensures n <= |cs|
  {
    if cs == [] then 0 else Eligible(cs[..|cs| - 1]) + if cs[|cs| - 1].isMatched then 1 else 0
  }

  function Concluded(s: Snapshot, cs: seq<Candidate>): Output {
    var eligible := Eligible(cs);
    Output(s.runId, s.decisionId, s.generation, s.inputHash, s.profileHash, s.content.evaluationAt,
           s.content.batch.id, s.content.batch.version, s.content.batch.epoch, s.content.rule.id, cs,
           if eligible > 0 then Matched else NoMatch,
           if eligible > 0 then EligibleExists else if cs != [] then NoEligibleOrganisation else NoApprovedOrganisation,
           |cs|, eligible)
  }

  // MatchingOutput.v1 bounds the counts.
  predicate OutputFits(cs: seq<Candidate>) { |cs| <= MAX_UINT32 }

  // The output of a normalised snapshot, given its candidates.
  function Assembled(n: Snapshot, cs: Option<seq<Candidate>>): Option<Output> {
    if cs.Some? && OutputFits(cs.value) then Some(Concluded(n, cs.value)) else None
  }

  function PyRecomputed(n: Snapshot): Option<Output> {
    Assembled(n, PyCandidates(n.content.batch.details, n.content.organisations, n.content.evaluationAt, PyCapacity))
  }

  function GoRecomputed(n: Snapshot): Option<Output> {
    Assembled(n, GoCandidates(n.content.batch.details, n.content.organisations, n.content.evaluationAt, GoCapacity))
  }

  // core.evaluate; None is a ContractError.
  function PyEvaluate(s: Snapshot): Option<Output> { if PyValid(s) then PyRecomputed(Normalized(s)) else None }

  // expectedOutput; None is INVALID_CONTRACT.
  function GoOutput(s: Snapshot): Option<Output> { if GoValid(s) then GoRecomputed(Normalized(s)) else None }

  // ---------------------------------------------------------------- one organisation: agreement

  // What validation leaves true of one organisation.
  predicate Sound(o: Organisation) {
    SchemaOrganisation(o) && UniqueKeys(o) && Simple(PoolIds(o)) && forall p :: p in o.pools ==> GoBalanced(p)
  }

  lemma FieldAtMostOne<T(!new), U>(f: T -> U, v: U, p: T -> bool, s: seq<T>)
    requires Simple(multiset(Map(f, s))) && forall x :: p(x) <==> f(x) == v
    ensures AtMostOne(p, s)
  {
    forall x, y | x in s && y in s && p(x) && p(y) ensures x == y {
      var i :| 0 <= i < |s| && s[i] == x;
      var j :| 0 <= j < |s| && s[j] == y;
      FieldIdentifies(f, s, i, j);
    }
  }

  lemma CapabilityAgrees(d: Details, o: Organisation)
    requires Sound(o)
    ensures PyCapability(d, o) == GoCapability(d, o)
  {
    var wanted := (c: Capability) => c.category == d.category;
    FieldAtMostOne((c: Capability) => c.category, d.category, wanted, o.capabilities);
  }

  lemma PoolAgrees(o: Organisation, cap: Option<Capability>)
    requires Sound(o)
    ensures PyPool(o, cap) == GoPool(o, cap)
  {
    if cap.Some? {
      var byId := (p: Pool) => p.id == cap.value.poolId;
      FieldAtMostOne((p: Pool) => p.id, cap.value.poolId, byId, o.pools);
    }
  }

  lemma ZoneAgrees(d: Details, o: Organisation)
    requires Sound(o)
    ensures PyZone(d, o) == GoZone(d, o)
  {
    var wanted := (z: Zone) => z.zone == d.zone;
    FieldAtMostOne((z: Zone) => z.zone, d.zone, wanted, o.zones);
  }

  // The exact difference of two decimals is the integer difference of their cents.
  lemma CapacityOfAgrees(total: int, reserved: int, weight: int)
    requires reserved <= total
    ensures PyCapacityOf(Kg(total), Kg(reserved), Kg(weight)) == GoCapacityOf(total, reserved, weight)
  {
    assert Kg(total) - Kg(reserved) == Kg(total - reserved);
    PyKgOfCents(total - reserved);
  }

  lemma FieldReads(s: string, width: nat)
    requires MoneyField(s, width) && width <= 10
    ensures Decimal(s) == Kg(Amount(s)) && Cents(s) == Amount(s)
  {
    MoneyFieldReads(s, width);
  }

  // Decimals and cents read a pool alike, and rightly.
  lemma CapacityAgrees(d: Details, p: Pool)
    requires SchemaDetails(d) && SchemaPool(p) && GoBalanced(p)
    ensures PyCapacity(d, p) == GoCapacity(d, p)
    ensures PyCapacity(d, p).fits <==> Amount(p.reservedKg) + Amount(d.weightKg) <= Amount(p.totalKg)
  {
    var total, reserved, weight := Amount(p.totalKg), Amount(p.reservedKg), Amount(d.weightKg);
    BalancedAgree(p);
    CapacityOfAgrees(total, reserved, weight);
    assert PyCapacity(d, p) == PyCapacityOf(Kg(total), Kg(reserved), Kg(weight)) &&
           GoCapacity(d, p) == GoCapacityOf(total, reserved, weight) by {
      FieldReads(p.totalKg, 10);
      FieldReads(p.reservedKg, 10);
      FieldReads(d.weightKg, 6);
    }
  }

  ghost predicate ReadAlike(d: Details, o: Organisation, r: (Details, Pool) -> Capacity, q: (Details, Pool) -> Capacity) {
    forall p :: p in o.pools ==> r(d, p) == q(d, p)
  }

  lemma FlagsAgree(d: Details, o: Organisation, cap: Option<Capability>, pool: Option<Pool>, zone: Option<Zone>,
                   fits: bool, feasible: Option<int>, evaluation: int)
    requires ActiveZone(zone) <==> feasible.Some?
    ensures PyFlags(d, o, cap, pool, zone, fits, feasible, evaluation) ==
            GoFlags(d, o, cap, pool, zone, fits, feasible, evaluation)
  {
  }

  lemma {:induction false} FailuresEmpty(flags: seq<bool>, reasons: seq<Reason>)
    requires |flags| == |reasons|
    ensures Failures(flags, reasons) == [] <==> false !in flags
  {
    if flags != [] {
      FailuresEmpty(flags[..|flags| - 1], reasons[..|flags| - 1]);
      assert flags == flags[..|flags| - 1] + [flags[|flags| - 1]];
    }
  }

  lemma RecordsAgree(o: Organisation, cap: Option<Capability>, pool: Option<Pool>, zone: Option<Zone>,
                     flags: seq<bool>, available: Option<string>, feasible: Option<int>)
    requires |flags| == 5
    ensures PyRecord(o, cap, pool, zone, flags, available, feasible) ==
            GoRecord(o, cap, pool, zone, flags, available, feasible)
  {
    FailuresEmpty(flags, Reasons(ActivePool(pool)));
  }

  // Go refuses a lead time beyond its duration type; Python does not.
  predicate LeadFits(d: Details, o: Organisation) {
    var zone := GoZone(d, o);
    ActiveZone(zone) ==> zone.value.leadMinutes <= MAX_LEAD_MINUTES
  }

  /** One organisation: Go returns exactly when Python does and the lead time fits, and then the
      candidates are equal, evidence, failures and printed capacity included. */
  lemma CandidatesAgree(d: Details, o: Organisation, evaluation: int, r: (Details, Pool) -> Capacity,
                        q: (Details, Pool) -> Capacity)
    requires Sound(o) && ReadAlike(d, o, r, q)
    ensures GoCandidate(d, o, evaluation, q).Some? <==> PyCandidate(d, o, evaluation, r).Some? && LeadFits(d, o)
    ensures GoCandidate(d, o, evaluation, q).Some? ==>
              GoCandidate(d, o, evaluation, q) == PyCandidate(d, o, evaluation, r)
  {
    var cap, zone := GoCapability(d, o), GoZone(d, o);
    var pool := GoPool(o, cap);
    CapabilityAgrees(d, o);
    PoolAgrees(o, cap);
    ZoneAgrees(d, o);
    if GoFeasible(zone, evaluation).Some? {
      var feasible := GoFeasible(zone, evaluation).value;
      var fits := ActivePool(pool) && q(d, pool.value).fits;
      var text := if ActivePool(pool) then Some(q(d, pool.value).availableKg) else None;
      FlagsAgree(d, o, cap, pool, zone, fits, feasible, evaluation);
      RecordsAgree(o, cap, pool, zone, GoFlags(d, o, cap, pool, zone, fits, feasible, evaluation), text, feasible);
    }
  }

  // ---------------------------------------------------------------- all organisations: agreement

  lemma {:induction false} AllCandidatesAgree(d: Details, os: seq<Organisation>, evaluation: int,
                                              r: (Details, Pool) -> Capacity, q: (Details, Pool) -> Capacity)
    requires forall o :: o in os ==> Sound(o) && ReadAlike(d, o, r, q)
    ensures GoCandidates(d, os, evaluation, q).Some? <==>
            PyCandidates(d, os, evaluation, r).Some? && forall o :: o in os ==> LeadFits(d, o)
    ensures GoCandidates(d, os, evaluation, q).Some? ==>
              GoCandidates(d, os, evaluation, q) == PyCandidates(d, os, evaluation, r)
  {
    if os != [] {
      var init, last := os[..|os| - 1], os[|os| - 1];
      assert os == init + [last];
      AllCandidatesAgree(d, init, evaluation, r, q);
      CandidatesAgree(d, last, evaluation, r, q);
    }
  }

  lemma SoundReads(d: Details, o: Organisation)
    requires SchemaDetails(d) && Sound(o)
    ensures ReadAlike(d, o, PyCapacity, GoCapacity)
  {
    forall p | p in o.pools ensures PyCapacity(d, p) == GoCapacity(d, p) { CapacityAgrees(d, p); }
  }

  lemma GoValidSound(s: Snapshot, o: Organisation)
    requires GoValid(s) && o in s.content.organisations
    ensures Sound(o)
  {
    PoolsSimple(s.content.organisations, o);
  }

  // Every active lead time that would be used fits Go's durations.
  predicate LeadsFit(s: Snapshot) {
    forall o :: o in NormalOrganisations(s.content.organisations) ==> LeadFits(s.content.batch.details, o)
  }

  /** Both evaluators return, on the whole domain: Go returns (and Python's date arithmetic does not
      overflow) exactly when Python returns, every named pool exists and every lead time fits. */
  lemma EvaluatorsReturn(s: Snapshot)
    ensures GoOutput(s).Some? && s.content.batch.details.submittedAt + 90 * DAY < END_OF_TIME <==>
            PyEvaluate(s).Some? && PoolsPresent(s.content.organisations) && LeadsFit(s)
    ensures GoOutput(s).Some? && PyEvaluate(s).Some? ==> GoOutput(s) == PyEvaluate(s)
  {
    ValidatorsAgree(s);
    if GoValid(s) && PyValid(s) {
      var n := Normalized(s);
      NormalFormStable(s);
      var d := n.content.batch.details;
      forall o | o in n.content.organisations ensures Sound(o) && ReadAlike(d, o, PyCapacity, GoCapacity) {
        GoValidSound(n, o);
        SoundReads(d, o);
      }
      AllCandidatesAgree(d, n.content.organisations, n.content.evaluationAt, PyCapacity, GoCapacity);
    }
  }

  // ---------------------------------------------------------------- what the evaluation means

  // The accepted policy, stated on its own: this pool, capability and zone serve the batch.
  ghost predicate Serves(d: Details, o: Organisation, c: Capability, p: Pool, z: Zone, evaluation: int) {
    && c in o.capabilities && c.category == d.category && c.isActive
    && o.profile.Some? && o.profile.value.isActive && d.condition in c.conditions
    && (d.isDataBearing ==> c.supportsDataBearing)
    && p in o.pools && p.id == c.poolId && p.isActive
    && IsMoney(p.totalKg) && IsMoney(p.reservedKg) && IsMoney(d.weightKg)
    && Amount(p.reservedKg) + Amount(d.weightKg) <= Amount(p.totalKg)
    && z in o.zones && z.zone == d.zone && z.isActive
    && evaluation < d.deadline && evaluation + z.leadMinutes * MINUTE <= d.deadline
  }

  ghost predicate IsEligible(d: Details, o: Organisation, evaluation: int) {
    exists c, p, z :: Serves(d, o, c, p, z, evaluation)
  }

  // This pool of the organisation takes the batch.
  ghost predicate PoolServes(d: Details, o: Organisation, poolId: Option<string>, evaluation: int) {
    exists c, p, z :: Serves(d, o, c, p, z, evaluation) && poolId == Some(p.id)
  }

  lemma CandidateFound(d: Details, o: Organisation, evaluation: int, cap: Option<Capability>, pool: Option<Pool>,
                       zone: Option<Zone>, feasible: Option<int>, fits: bool)
    requires SchemaDetails(d) && (pool.Some? ==> SchemaPool(pool.value))
    requires cap == PyCapability(d, o) && pool == PyPool(o, cap) && zone == PyZone(d, o)
    requires PyFeasible(zone, evaluation) == Some(feasible)
    requires ActivePool(pool) ==>
               (fits <==> Amount(pool.value.reservedKg) + Amount(d.weightKg) <= Amount(pool.value.totalKg))
    ensures false !in PyFlags(d, o, cap, pool, zone, fits, feasible, evaluation) <==>
            cap.Some? && pool.Some? && zone.Some? && Serves(d, o, cap.value, pool.value, zone.value, evaluation)
  {
  }

  // Whatever serves is what the lookups find.
  lemma ServingIsFound(d: Details, o: Organisation, c: Capability, p: Pool, z: Zone, evaluation: int)
    requires Sound(o) && Serves(d, o, c, p, z, evaluation)
    ensures PyCapability(d, o) == Some(c) && PyPool(o, Some(c)) == Some(p) && PyZone(d, o) == Some(z)
  {
    FieldAtMostOne((c: Capability) => c.category, d.category, (c: Capability) => c.category == d.category, o.capabilities);
    FieldAtMostOne((p: Pool) => p.id, c.poolId, (p: Pool) => p.id == c.poolId, o.pools);
    FieldAtMostOne((z: Zone) => z.zone, d.zone, (z: Zone) => z.zone == d.zone, o.zones);
  }

  /** A candidate is matched exactly when the policy makes its organisation eligible. */
  lemma MatchedMeansEligible(d: Details, o: Organisation, evaluation: int, read: (Details, Pool) -> Capacity)
    requires SchemaDetails(d) && Sound(o) && PyCandidate(d, o, evaluation, read).Some?
    requires forall p :: p in o.pools ==>
               (read(d, p).fits <==> Amount(p.reservedKg) + Amount(d.weightKg) <= Amount(p.totalKg))
    ensures PyCandidate(d, o, evaluation, read).value.isMatched <==> IsEligible(d, o, evaluation)
    ensures PyCandidate(d, o, evaluation, read).value.organisationId == o.id
    ensures IsEligible(d, o, evaluation) ==> PoolServes(d, o, PyCandidate(d, o, evaluation, read).value.poolId, evaluation)
  {
    var cap, zone := PyCapability(d, o), PyZone(d, o);
    var pool := PyPool(o, cap);
    var feasible := PyFeasible(zone, evaluation).value;
    CandidateFound(d, o, evaluation, cap, pool, zone, feasible, ActivePool(pool) && read(d, pool.value).fits);
    if IsEligible(d, o, evaluation) {
      var c, p, z :| Serves(d, o, c, p, z, evaluation);
      ServingIsFound(d, o, c, p, z, evaluation);
    }
  }

  lemma EligibleStays(d: Details, o: Organisation, evaluation: int, c: Capability, p: Pool, z: Zone)
    requires Serves(d, o, c, p, z, evaluation)
    ensures IsEligible(d, NormalOrganisation(o), evaluation)
  {
    var q, cs := NormalOrganisation(o), Sorted(CapabilityKey, o.capabilities);
    assert p in q.pools by { SortedKeeps(PoolKey, o.pools); SameElements(o.pools, q.pools); }
    assert z in q.zones by { SortedKeeps(ZoneKey, o.zones); SameElements(o.zones, q.zones); }
    assert c in cs by { SortedKeeps(CapabilityKey, o.capabilities); SameElements(o.capabilities, cs); }
    var i :| 0 <= i < |cs| && cs[i] == c;
    var x := q.capabilities[i];
    assert d.condition in x.conditions by {
      SortedKeeps(ConditionKey, c.conditions);
      SameElements(c.conditions, x.conditions);
    }
    assert Serves(d, q, x, p, z, evaluation);
  }

  lemma EligibleBefore(d: Details, o: Organisation, evaluation: int, x: Capability, p: Pool, z: Zone)
    requires Serves(d, NormalOrganisation(o), x, p, z, evaluation)
    ensures IsEligible(d, o, evaluation) && PoolServes(d, o, Some(p.id), evaluation)
  {
    var q := NormalOrganisation(o);
    assert p in o.pools by { SortedKeeps(PoolKey, o.pools); SameElements(o.pools, q.pools); }
    assert z in o.zones by { SortedKeeps(ZoneKey, o.zones); SameElements(o.zones, q.zones); }
    NormalOrganisationIsReordering(o);
    var c := CapabilityCounterpart(o, q, x);
    assert d.condition in c.conditions by { SameElements(c.conditions, x.conditions); }
    assert Serves(d, o, c, p, z, evaluation);
  }

  lemma EligibleNormal(d: Details, o: Organisation, evaluation: int)
    ensures IsEligible(d, o, evaluation) <==> IsEligible(d, NormalOrganisation(o), evaluation)
  {
    if IsEligible(d, o, evaluation) {
      var c, p, z :| Serves(d, o, c, p, z, evaluation);
      EligibleStays(d, o, evaluation, c, p, z);
    }
    if IsEligible(d, NormalOrganisation(o), evaluation) {
      var c, p, z :| Serves(d, NormalOrganisation(o), c, p, z, evaluation);
      EligibleBefore(d, o, evaluation, c, p, z);
    }
  }

  ghost predicate ReadRightly(d: Details, o: Organisation, read: (Details, Pool) -> Capacity)
    requires SchemaDetails(d) && SchemaOrganisation(o)
  {
    forall p :: p in o.pools ==>
      (read(d, p).fits <==> Amount(p.reservedKg) + Amount(d.weightKg) <= Amount(p.totalKg))
  }

  ghost predicate Means(c: Candidate, d: Details, o: Organisation, evaluation: int) {
    && c.organisationId == o.id && (c.isMatched <==> IsEligible(d, o, evaluation))
    && (c.isMatched ==> PoolServes(d, o, c.poolId, evaluation))
  }

  lemma {:induction false} CandidatesMean(d: Details, os: seq<Organisation>, evaluation: int,
                                          read: (Details, Pool) -> Capacity)
    requires SchemaDetails(d) && forall o :: o in os ==> SchemaOrganisation(o) && Sound(o) && ReadRightly(d, o, read)
    requires PyCandidates(d, os, evaluation, read).Some?
    ensures var cs := PyCandidates(d, os, evaluation, read).value;
            |cs| == |os| && forall i :: 0 <= i < |os| ==> Means(cs[i], d, os[i], evaluation)
  {
    if os != [] {
      var init, last := os[..|os| - 1], os[|os| - 1];
      assert os == init + [last];
      CandidatesMean(d, init, evaluation, read);
      MatchedMeansEligible(d, last, evaluation, read);
    }
  }

  lemma {:induction false} EligiblePositive(cs: seq<Candidate>)
    ensures Eligible(cs) > 0 <==> exists i :: 0 <= i < |cs| && cs[i].isMatched
    ensures Eligible(cs) == |cs| <==> forall i :: 0 <= i < |cs| ==> cs[i].isMatched
  {
    if cs != [] { EligiblePositive(cs[..|cs| - 1]); }
  }

  // The organisations in the order of the candidates.
  function Ranked(s: Snapshot): seq<Organisation> { Sorted(OrganisationKey, s.content.organisations) }

  lemma PyValidSound(s: Snapshot, o: Organisation)
    requires PyValid(s) && o in s.content.organisations
    ensures Sound(o)
  {
    PoolsSimple(s.content.organisations, o);
    forall p | p in o.pools ensures GoBalanced(p) { BalancedAgree(p); }
  }

  // Either validator leaves every organisation sound, and its pools rightly read.
  lemma NormalReadable(s: Snapshot)
    requires GoValid(s) || PyValid(s)
    ensures SchemaDetails(s.content.batch.details)
    ensures forall o :: o in NormalOrganisations(s.content.organisations) ==>
              SchemaOrganisation(o) && Sound(o) && ReadRightly(s.content.batch.details, o, PyCapacity)
  {
    NormalFormStable(s);
    var d := s.content.batch.details;
    forall o | o in NormalOrganisations(s.content.organisations)
      ensures SchemaOrganisation(o) && Sound(o) && ReadRightly(d, o, PyCapacity)
    {
      if GoValid(s) { GoValidSound(Normalized(s), o); } else { PyValidSound(Normalized(s), o); }
      forall p | p in o.pools
        ensures PyCapacity(d, p).fits <==> Amount(p.reservedKg) + Amount(d.weightKg) <= Amount(p.totalKg)
      {
        CapacityAgrees(d, p);
      }
    }
  }

  // A candidate means the same of the organisation as it was given and of its normal form.
  lemma MeansNormal(c: Candidate, d: Details, o: Organisation, evaluation: int)
    requires Means(c, d, NormalOrganisation(o), evaluation)
    ensures Means(c, d, o, evaluation)
  {
    EligibleNormal(d, o, evaluation);
    if c.isMatched {
      var x, p, z :| Serves(d, NormalOrganisation(o), x, p, z, evaluation) && c.poolId == Some(p.id);
      EligibleBefore(d, o, evaluation, x, p, z);
    }
  }

  // What the candidates of a snapshot mean: one per organisation, in code point order of ids.
  ghost predicate AllMean(s: Snapshot, cs: seq<Candidate>) {
    |cs| == |Ranked(s)| &&
    forall i :: 0 <= i < |cs| ==> Means(cs[i], s.content.batch.details, Ranked(s)[i], s.content.evaluationAt)
  }

  lemma NormalCandidatesMean(s: Snapshot)
    requires GoValid(s) || PyValid(s)
    requires PyCandidates(s.content.batch.details, NormalOrganisations(s.content.organisations), s.content.evaluationAt, PyCapacity).Some?
    ensures AllMean(s, PyCandidates(s.content.batch.details, NormalOrganisations(s.content.organisations),
                                    s.content.evaluationAt, PyCapacity).value)
  {
    var d, os, at := s.content.batch.details, s.content.organisations, s.content.evaluationAt;
    NormalReadable(s);
    CandidatesMean(d, NormalOrganisations(os), at, PyCapacity);
    var cs := PyCandidates(d, NormalOrganisations(os), at, PyCapacity).value;
    forall i | 0 <= i < |Ranked(s)| ensures Means(cs[i], d, Ranked(s)[i], at) {
      MeansNormal(cs[i], d, Ranked(s)[i], at);
    }
  }

  // The candidates of Go's output are Python's, even where Python's validation refuses the snapshot.
  lemma GoCandidatesArePython(s: Snapshot)
    requires GoOutput(s).Some?
    ensures PyCandidates(s.content.batch.details, NormalOrganisations(s.content.organisations), s.content.evaluationAt, PyCapacity) ==
            Some(GoOutput(s).value.candidates)
  {
    var n := Normalized(s);
    var d := n.content.batch.details;
    NormalFormStable(s);
    forall o | o in n.content.organisations ensures Sound(o) && ReadAlike(d, o, PyCapacity, GoCapacity) {
      GoValidSound(n, o);
      SoundReads(d, o);
    }
    AllCandidatesAgree(d, n.content.organisations, n.content.evaluationAt, PyCapacity, GoCapacity);
  }

  /** Whatever either evaluator returns holds one candidate per organisation, in code point order of ids,
      matched exactly when the policy makes the organisation eligible, and then with a pool that takes
      the batch. */
  lemma RankedMeans(s: Snapshot)
    ensures PyEvaluate(s).Some? ==>
              AllMean(s, PyEvaluate(s).value.candidates) && PyEvaluate(s).value.evaluatedCount == |Ranked(s)|
    ensures GoOutput(s).Some? ==>
              AllMean(s, GoOutput(s).value.candidates) && GoOutput(s).value.evaluatedCount == |Ranked(s)|
  {
    if PyEvaluate(s).Some? { NormalCandidatesMean(s); }
    if GoOutput(s).Some? {
      GoCandidatesArePython(s);
      NormalCandidatesMean(s);
    }
  }

  lemma RankedOrder(s: Snapshot)
    ensures multiset(Ranked(s)) == multiset(s.content.organisations)
    ensures forall o :: o in Ranked(s) <==> o in s.content.organisations
    ensures forall i, j :: 0 <= i < j < |Ranked(s)| ==> AtMost(Ranked(s)[i].id, Ranked(s)[j].id)
  {
    SortedKeeps(OrganisationKey, s.content.organisations);
    SortedOrders(OrganisationKey, s.content.organisations);
    SameElements(s.content.organisations, Ranked(s));
    forall i, j | 0 <= i < j < |Ranked(s)| ensures AtMost(Ranked(s)[i].id, Ranked(s)[j].id) {
      assert KeyAtMost(OrganisationKey(Ranked(s)[i]), OrganisationKey(Ranked(s)[j]));
      AtMostTotal(Ranked(s)[i].id, Ranked(s)[i].id);
    }
  }

  lemma {:induction false} OutcomeCounts(s: Snapshot, cs: seq<Candidate>)
    ensures Concluded(s, cs).outcome == Matched <==> exists i :: 0 <= i < |cs| && cs[i].isMatched
    ensures Concluded(s, cs).primaryReason == NoApprovedOrganisation <==> cs == []
  {
    EligiblePositive(cs);
  }

  ghost predicate SomeEligible(s: Snapshot) {
    exists o :: o in s.content.organisations && IsEligible(s.content.batch.details, o, s.content.evaluationAt)
  }

  lemma ConcludedMeans(s: Snapshot, cs: seq<Candidate>)
    requires AllMean(s, cs)
    ensures Concluded(Normalized(s), cs).outcome == Matched <==> SomeEligible(s)
    ensures Concluded(Normalized(s), cs).primaryReason == NoApprovedOrganisation <==> s.content.organisations == []
  {
    RankedOrder(s);
    OutcomeCounts(Normalized(s), cs);
    assert |cs| == |s.content.organisations| by { assert |multiset(s.content.organisations)| == |multiset(Ranked(s))|; }
    if i :| 0 <= i < |cs| && cs[i].isMatched { assert Ranked(s)[i] in s.content.organisations; }
  }

  /** Whichever evaluator returns: MATCHED exactly when the policy makes some organisation eligible; with
      no organisation at all the reason says so. */
  lemma OutcomeMeans(s: Snapshot)
    ensures PyEvaluate(s).Some? ==>
              && (PyEvaluate(s).value.outcome == Matched <==> SomeEligible(s))
              && (PyEvaluate(s).value.primaryReason == NoApprovedOrganisation <==> s.content.organisations == [])
    ensures GoOutput(s).Some? ==>
              && (GoOutput(s).value.outcome == Matched <==> SomeEligible(s))
              && (GoOutput(s).value.primaryReason == NoApprovedOrganisation <==> s.content.organisations == [])
  {
    RankedMeans(s);
    if PyEvaluate(s).Some? { ConcludedMeans(s, PyEvaluate(s).value.candidates); }
    if GoOutput(s).Some? { ConcludedMeans(s, GoOutput(s).value.candidates); }
  }

  ghost predicate FailsExactly(fs: seq<Failure>, flags: seq<bool>, reasons: seq<Reason>)
    requires |flags| == |reasons|
  {
    && (forall i :: 0 <= i < |fs| ==>
          fs[i].rule < |flags| && !flags[fs[i].rule] && fs[i].reason == reasons[fs[i].rule])
    && (forall i, j :: 0 <= i < j < |fs| ==> fs[i].rule < fs[j].rule)
    && (forall k :: 0 <= k < |flags| && !flags[k] ==> Failure(k, reasons[k]) in fs)
  }

  /** The failed rules are exactly the false flags, in rule order, each with its own reason. */
  lemma {:induction false} FailuresExact(flags: seq<bool>, reasons: seq<Reason>)
    requires |flags| == |reasons|
    ensures FailsExactly(Failures(flags, reasons), flags, reasons)
  {
    if flags != [] {
      var n := |flags| - 1;
      FailuresExact(flags[..n], reasons[..n]);
      assert flags[..n] + [flags[n]] == flags && reasons[..n] + [reasons[n]] == reasons;
    }
  }

  /** Rearranging organisations, capabilities, pools, zones or accepted conditions of a valid
      snapshot changes neither digest nor either evaluation. */
  lemma ReorderingInvisible(s: Snapshot, t: Snapshot)
    requires SnapshotReordered(s, t)
    ensures Unique(s.content.organisations) ==> NormalContent(s.content) == NormalContent(t.content)
    ensures PyValid(s) ==> PyValid(t) && PyEvaluate(s) == PyEvaluate(t)
    ensures GoValid(s) ==> GoValid(t) && GoOutput(s) == GoOutput(t)
  {
    if Unique(s.content.organisations) {
      NormalFormInvariant(s.content.organisations, t.content.organisations);
      assert NormalContent(s.content) == NormalContent(t.content);
    }
    if PyValid(s) { PyValidKept(s, t); assert Normalized(s) == Normalized(t); }
    if GoValid(s) { GoValidKept(s, t); assert Normalized(s) == Normalized(t); }
  }
}
