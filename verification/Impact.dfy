/** The d3-v1 impact figures: Go's treatment normalisation writes the event, Python evaluates it,
    Go validates Python's acknowledgement against the frozen event. */
module Impact {
  import opened Wrappers
  import opened Decimals
  import opened Vocabulary

  const RULE_VERSION := "d3-v1"

  datatype Quality = Complete | Partial | Missing

  datatype Anomaly = CategoryMismatch | CountMismatch | WeightMismatch | MissingOutcome | UnallocatedWeight

  const CANONICAL_ORDER := [CategoryMismatch, CountMismatch, WeightMismatch, MissingOutcome, UnallocatedWeight]

  newtype int64 = n: int | MIN_INT64 <= n <= MAX_INT64

  // ---------------------------------------------------------------- treatment (Go)

  datatype TreatmentRequest = TreatmentRequest(
    reusedKg: Option<string>, recycledKg: Option<string>, disposedKg: Option<string>,
    evidenceId: Option<string>)

  datatype TreatmentError =
    | ReceivedWeightInvalid | SuppliedInPart | AmountInvalid | ExceedsReceivedWeight | EvidenceEmpty

  datatype Treatment = Treatment(
    receivedKg: string, reusedKg: Option<string>, recycledKg: Option<string>, disposedKg: Option<string>,
    unknownKg: string, divertedKg: Option<string>, quality: Quality, evidenceId: Option<string>)

  // The three cent amounts a request allocates, when it supplies all of them and they parse.
  function Allocation(request: TreatmentRequest): (r: Option<(int, int, int)>)
    ensures r.Some? ==> 0 <= r.value.0 <= 5_000_000_099 && 0 <= r.value.1 <= 5_000_000_099 && 0 <= r.value.2 <= 5_000_000_099
    ensures r.Some? ==> AllSupplied(request)
  {
    match (request.reusedKg, request.recycledKg, request.disposedKg)
    case (Some(a), Some(b), Some(c)) =>
      (match (TreatmentCents(a), TreatmentCents(b), TreatmentCents(c))
       case (Some(x), Some(y), Some(z)) => Some((x, y, z))
       case _ => None)
    case _ => None
  }

  predicate NothingSupplied(request: TreatmentRequest) {
    request.reusedKg.None? && request.recycledKg.None? && request.disposedKg.None?
  }

  predicate AllSupplied(request: TreatmentRequest) {
    request.reusedKg.Some? && request.recycledKg.Some? && request.disposedKg.Some?
  }

  function TrimmedEvidence(request: TreatmentRequest): Option<string> {
    if request.evidenceId.None? then None else Some(Trim(request.evidenceId.value, GoSpace))
  }

  function AllocatedTreatment(received: nat, a: (int, int, int), evidence: Option<string>): Treatment {
    var unknown := received - a.0 - a.1 - a.2;
    Treatment(GoMoney(received), Some(GoMoney(a.0)), Some(GoMoney(a.1)), Some(GoMoney(a.2)),
              GoMoney(unknown), Some(GoMoney(a.0 + a.1)), if unknown != 0 then Partial else Complete, evidence)
  }

  function MissingTreatment(received: nat, evidence: Option<string>): Treatment {
    Treatment(GoMoney(received), None, None, None, GoMoney(received), None, Missing, evidence)
  }

  // The result once every text has been read: received cents and the allocation, if any.
  function SplitReceived(received: int, allocation: Option<(int, int, int)>, evidence: Option<string>)
    : Result<Treatment, TreatmentError>
  {
    if received < 1 then Err(ReceivedWeightInvalid)
    else if allocation.Some? && Exceeds(allocation.value, received) then Err(ExceedsReceivedWeight)
    else if evidence == Some("") then Err(EvidenceEmpty)
    else if allocation.Some? then Ok(AllocatedTreatment(received, allocation.value, evidence))
    else Ok(MissingTreatment(received, evidence))
  }

  function NormalizedTreatment(request: TreatmentRequest, receivedWeight: string): Result<Treatment, TreatmentError> {
    match TreatmentCents(receivedWeight)
    case None => Err(ReceivedWeightInvalid)
    case Some(received) =>
      if received < 1 then Err(ReceivedWeightInvalid)
      else if !NothingSupplied(request) && !AllSupplied(request) then Err(SuppliedInPart)
      else if AllSupplied(request) && Allocation(request).None? then Err(AmountInvalid)
      else SplitReceived(received, Allocation(request), TrimmedEvidence(request))
  }

  predicate Exceeds(a: (int, int, int), received: int) { a.0 > received - a.1 - a.2 }

  /** The supply count of normalizeTreatmentRequest. */
  method CountSupplied(request: TreatmentRequest) returns (supplied: int)
    ensures supplied == 0 <==> NothingSupplied(request)
    ensures supplied == 3 <==> AllSupplied(request)
  {
    var amounts := [request.reusedKg, request.recycledKg, request.disposedKg];
    supplied := 0;
    for i := 0 to 3
      invariant 0 <= supplied <= i
      invariant supplied == 0 <==> forall k :: 0 <= k < i ==> amounts[k].None?
      invariant supplied == i <==> forall k :: 0 <= k < i ==> amounts[k].Some?
    {
      if amounts[i].Some? { supplied := supplied + 1; }
    }
    assert amounts[0] == request.reusedKg && amounts[1] == request.recycledKg && amounts[2] == request.disposedKg;
  }

  /** The balance of normalizeTreatmentRequest in int64: on parsed amounts no operation overflows. */
  method BalanceCents(received: int64, reused: int64, recycled: int64, disposed: int64, evidence: Option<string>)
    returns (r: Result<Treatment, TreatmentError>)
    requires 1 <= received <= 5_000_000_099
    requires 0 <= reused <= 5_000_000_099 && 0 <= recycled <= 5_000_000_099 && 0 <= disposed <= 5_000_000_099
    ensures r == SplitReceived(received as int, Some((reused as int, recycled as int, disposed as int)), evidence)
  {
    if reused > received - recycled - disposed { return Err(ExceedsReceivedWeight); }
    var unknown := received - reused - recycled - disposed;
    var diverted := reused + recycled;
    if evidence == Some("") { return Err(EvidenceEmpty); }
    return Ok(Treatment(GoMoney(received as int), Some(GoMoney(reused as int)), Some(GoMoney(recycled as int)),
                        Some(GoMoney(disposed as int)), GoMoney(unknown as int), Some(GoMoney(diverted as int)),
                        if unknown != 0 then Partial else Complete, evidence));
  }

  /** normalizeTreatmentRequest. */
  method NormalizeTreatmentRequest(request: TreatmentRequest, receivedWeight: string)
    returns (r: Result<Treatment, TreatmentError>)
    ensures r == NormalizedTreatment(request, receivedWeight)
  {
    var received := TreatmentCents(receivedWeight);
    if received.None? || received.value < 1 { return Err(ReceivedWeightInvalid); }
    var supplied := CountSupplied(request);
    if supplied != 0 && supplied != 3 { return Err(SuppliedInPart); }
    var evidence := TrimmedEvidence(request);
    if supplied == 0 {
      return if evidence == Some("") then Err(EvidenceEmpty) else Ok(MissingTreatment(received.value, evidence));
    }
    var amounts := Allocation(request);
    if amounts.None? { return Err(AmountInvalid); }
    var (reused, recycled, disposed) := amounts.value;
    r := BalanceCents(received.value as int64, reused as int64, recycled as int64, disposed as int64, evidence);
  }

  // The text is the canonical print of this many cents.
  predicate Prints(s: string, cents: int) { 0 <= cents && s == Money(cents) }

  ghost predicate PrintsOptional(s: Option<string>, cents: int) { s.Some? && Prints(s.value, cents) }

  // Mass balance of a stored treatment over the amounts its texts denote.
  ghost predicate Balanced(t: Treatment, received: int, a: Option<(int, int, int)>, unknown: int) {
    && received > 0 && Prints(t.receivedKg, received) && Prints(t.unknownKg, unknown)
    && match a
       case None =>
         t.quality == Missing && unknown == received && t.reusedKg == t.recycledKg == t.disposedKg == t.divertedKg == None
       case Some((x, y, z)) =>
         && x + y + z + unknown == received
         && PrintsOptional(t.reusedKg, x) && PrintsOptional(t.recycledKg, y) && PrintsOptional(t.disposedKg, z)
         && PrintsOptional(t.divertedKg, x + y)
         && t.quality == if unknown == 0 then Complete else Partial
  }

  function Unaccounted(received: int, a: Option<(int, int, int)>): int {
    match a
    case None => received
    case Some((x, y, z)) => received - x - y - z
  }

  lemma SplitConservesMass(received: int, a: Option<(int, int, int)>, evidence: Option<string>)
    requires received <= MAX_INT64
    requires a.Some? ==> a.value.0 >= 0 && a.value.1 >= 0 && a.value.2 >= 0
    requires SplitReceived(received, a, evidence).Ok?
    ensures Balanced(SplitReceived(received, a, evidence).value, received, a, Unaccounted(received, a))
  {
  }

  /** Mass is conserved: what a recorded treatment reuses, recycles, disposes of and cannot account
      for adds up to what was received. */
  lemma TreatmentConservesMass(request: TreatmentRequest, receivedWeight: string)
    requires NormalizedTreatment(request, receivedWeight).Ok?
    ensures TreatmentCents(receivedWeight).Some?
    ensures var received, a := TreatmentCents(receivedWeight).value, Allocation(request);
            Balanced(NormalizedTreatment(request, receivedWeight).value, received, a, Unaccounted(received, a))
  {
    SplitConservesMass(TreatmentCents(receivedWeight).value, Allocation(request), TrimmedEvidence(request));
  }

  /** A request is recorded exactly when it allocates nothing, or three readable amounts whose sum
      stays within the received weight. */
  lemma TreatmentAccepted(request: TreatmentRequest, receivedWeight: string)
    ensures NormalizedTreatment(request, receivedWeight).Ok? <==>
            && TreatmentCents(receivedWeight).Some? && TreatmentCents(receivedWeight).value > 0
            && TrimmedEvidence(request) != Some("")
            && (NothingSupplied(request) ||
                (Allocation(request).Some? &&
                 var a := Allocation(request).value; a.0 + a.1 + a.2 <= TreatmentCents(receivedWeight).value))
  {
  }

  // The text is read as this many cents.
  predicate ReadsAs(text: Option<string>, cents: int) { text.Some? && TreatmentCents(text.value) == Some(cents) }

  // The evidence identifier is kept without the spaces around it, and is never empty.
  ghost predicate EvidenceKept(given: Option<string>, kept: Option<string>) {
    && (given.None? <==> kept.None?)
    && (given.Some? ==> kept.value != "" && exists i: nat, j: nat :: Stripped(given.value, GoSpace, kept.value, i, j))
  }

  // Every amount of the treatment is the request's own text of that name, printed again; what is
  // diverted is reused and recycled, what is unknown is the rest of the received weight.
  ghost predicate AmountsKept(request: TreatmentRequest, received: int, t: Treatment, x: int, y: int, z: int) {
    && ReadsAs(request.reusedKg, x) && ReadsAs(request.recycledKg, y) && ReadsAs(request.disposedKg, z) && x + y + z <= received
    && t.reusedKg == Some(Money(x)) && t.recycledKg == Some(Money(y)) && t.disposedKg == Some(Money(z))
    && t.divertedKg == Some(Money(x + y)) && t.unknownKg == Money(received - x - y - z)
    && t.quality == if x + y + z == received then Complete else Partial
  }

  ghost predicate TreatmentTells(request: TreatmentRequest, received: int, t: Treatment) {
    && received > 0 && t.receivedKg == Money(received) && EvidenceKept(request.evidenceId, t.evidenceId)
    && if request.reusedKg.None? && request.recycledKg.None? && request.disposedKg.None? then
         && t.reusedKg.None? && t.recycledKg.None? && t.disposedKg.None? && t.divertedKg.None?
         && t.unknownKg == Money(received) && t.quality == Missing
       else exists x, y, z :: AmountsKept(request, received, t, x, y, z)
  }

  predicate Readable(text: Option<string>) { text.Some? && TreatmentCents(text.value).Some? }

  // The first thing wrong with the request.
  function TreatmentRefusal(request: TreatmentRequest, received: int): TreatmentError {
    if request.reusedKg.None? && request.recycledKg.None? && request.disposedKg.None? then EvidenceEmpty
    else if request.reusedKg.None? || request.recycledKg.None? || request.disposedKg.None? then SuppliedInPart
    else if !Readable(request.reusedKg) || !Readable(request.recycledKg) || !Readable(request.disposedKg) then AmountInvalid
    else if TreatmentCents(request.reusedKg.value).value + TreatmentCents(request.recycledKg.value).value +
      TreatmentCents(request.disposedKg.value).value > received then ExceedsReceivedWeight
    else EvidenceEmpty
  }

  lemma AllocationReads(request: TreatmentRequest)
    ensures Allocation(request).Some? <==>
              Readable(request.reusedKg) && Readable(request.recycledKg) && Readable(request.disposedKg)
    ensures Allocation(request).Some? ==>
              var a := Allocation(request).value;
              ReadsAs(request.reusedKg, a.0) && ReadsAs(request.recycledKg, a.1) && ReadsAs(request.disposedKg, a.2)
  {
  }

  lemma EvidenceSays(request: TreatmentRequest)
    requires TrimmedEvidence(request) != Some("")
    ensures EvidenceKept(request.evidenceId, TrimmedEvidence(request))
  {
    if request.evidenceId.Some? { var i, j := TrimStrips(request.evidenceId.value, GoSpace); }
  }

  lemma RecordedSays(request: TreatmentRequest, received: int, a: Option<(int, int, int)>, t: Treatment)
    requires Balanced(t, received, a, Unaccounted(received, a)) && EvidenceKept(request.evidenceId, t.evidenceId)
    requires a.None? <==> NothingSupplied(request)
    requires a.Some? ==> ReadsAs(request.reusedKg, a.value.0) && ReadsAs(request.recycledKg, a.value.1) && ReadsAs(request.disposedKg, a.value.2)
    ensures TreatmentTells(request, received, t)
  {
    if a.Some? { assert AmountsKept(request, received, t, a.value.0, a.value.1, a.value.2); }
  }

  // The split of the received weight, once the request's texts have been read.
  lemma SplitSays(request: TreatmentRequest, received: int, done: Result<Treatment, TreatmentError>)
    requires 1 <= received <= 5_000_000_099 && (NothingSupplied(request) || Allocation(request).Some?)
    requires done == SplitReceived(received, Allocation(request), TrimmedEvidence(request))
    ensures done.Ok? ==> TreatmentTells(request, received, done.value)
    ensures done.Err? ==> done.error == TreatmentRefusal(request, received)
  {
    AllocationReads(request);
    if done.Ok? {
      SplitConservesMass(received, Allocation(request), TrimmedEvidence(request));
      EvidenceSays(request);
      RecordedSays(request, received, Allocation(request), done.value);
    }
  }

  /** A recorded treatment says what the request says, amount by amount; a refused one is refused for the
      first thing that is wrong. */
  lemma TreatmentSays(request: TreatmentRequest, receivedWeight: string)
    ensures match NormalizedTreatment(request, receivedWeight)
            case Ok(t) => TreatmentCents(receivedWeight).Some? && TreatmentTells(request, TreatmentCents(receivedWeight).value, t)
            case Err(e) =>
              e == if TreatmentCents(receivedWeight).None? || TreatmentCents(receivedWeight).value == 0 then ReceivedWeightInvalid
                   else TreatmentRefusal(request, TreatmentCents(receivedWeight).value)
  {
    var received := TreatmentCents(receivedWeight);
    if received.Some? && received.value > 0 {
      if NothingSupplied(request) || Allocation(request).Some? {
        var done := SplitReceived(received.value, Allocation(request), TrimmedEvidence(request));
        assert NormalizedTreatment(request, receivedWeight) == done by { AllocationReads(request); }
        SplitSays(request, received.value, done);
      } else {
        AllocationReads(request);
      }
    }
  }

  // ---------------------------------------------------------------- the frozen event

  datatype Measures = Measures(
    declaredCategory: string, declaredQuantity: int, declaredWeightKg: string,
    actualCategory: string, actualItemCount: int, actualWeightKg: string,
    reusedKg: Option<string>, recycledKg: Option<string>, disposedKg: Option<string>,
    unknownKg: Option<string>, divertedKg: Option<string>, quality: Quality)

  datatype Provenance = Provenance(
    treatmentId: string, receiptId: string, receiptVersion: nat, treatmentVersion: nat, batchId: string,
    facilityOrgId: string, actorUserId: string, evidenceId: Option<string>, claimEpoch: nat)

  datatype EventData = EventData(measures: Measures, provenance: Provenance, ruleVersion: string)

  datatype Recycled = Recycled(
    eventId: string, batchId: string, aggregateVersion: nat, correlationId: string, data: EventData)

  // analyticsCanonicalInput: the frozen input, which also stands for its injective digest.
  datatype Frozen = Frozen(data: EventData, sourceEventId: string, aggregateVersion: nat, correlationId: string)

  function CanonicalInput(e: Recycled): Frozen {
    Frozen(e.data, e.eventId, e.aggregateVersion, e.correlationId)
  }

  datatype Declared = Declared(category: string, quantity: int, weightKg: string)
  datatype Receipt = Receipt(category: string, itemCount: int, weightKg: string)

  // What validateStoredBatch and normalizeReceiptRequest guarantee of a stored row.
  predicate ValidFigures(category: string, count: int, weightKg: string) {
    category in CATEGORIES && 1 <= count <= 100000 && IsMoney(weightKg) && 10 <= Amount(weightKg) <= 5_000_000
  }

  // buildRecyclingCompletedPayload: the measured part of the event a treatment produces.
  function EventMeasures(d: Declared, r: Receipt, t: Treatment): Measures {
    Measures(d.category, d.quantity, d.weightKg, r.category, r.itemCount, r.weightKg,
             t.reusedKg, t.recycledKg, t.disposedKg, Some(t.unknownKg), t.divertedKg, t.quality)
  }

  // ---------------------------------------------------------------- Python

  datatype Metrics = Metrics(
    declaredWeightKg: Option<string>, actualWeightKg: Option<string>,
    declaredQuantity: Option<int>, actualItemCount: Option<int>, categoryMatch: Option<bool>,
    weightDeltaKg: Option<string>, countDelta: Option<int>,
    reusedKg: Option<string>, recycledKg: Option<string>, disposedKg: Option<string>,
    unknownKg: Option<string>, divertedKg: Option<string>)

  datatype ImpactResult = ImpactResult(ruleVersion: string, quality: Quality, metrics: Metrics, anomalies: seq<Anomaly>)

  datatype ImpactError =
    | UnsupportedRuleVersion | InvalidCategory | InvalidItemCount | WeightRejected(cause: WeightError)
    | InvalidWeightRange | IncompleteAllocationObject | OutcomeExceedsReceivedWeight | FrozenTotalMismatch

  function Mismatches(m: Measures, declared: real, actual: real): seq<Anomaly> {
    (if m.declaredCategory != m.actualCategory then [CategoryMismatch] else []) +
    (if m.actualItemCount != m.declaredQuantity then [CountMismatch] else []) +
    (if actual != declared then [WeightMismatch] else [])
  }

  // The printer kg is a parameter, so that the arithmetic is proved apart from the text.
  function BaseMetrics(m: Measures, declared: real, actual: real, kg: real -> string): Metrics {
    Metrics(Some(kg(declared)), Some(kg(actual)), Some(m.declaredQuantity), Some(m.actualItemCount),
            Some(m.declaredCategory == m.actualCategory), Some(kg(actual - declared)),
            Some(m.actualItemCount - m.declaredQuantity), None, None, None, Some(kg(actual)), None)
  }

  // What weight makes of an optional text; an absent one is absent.
  function PyOptional(s: Option<string>): Option<Result<real, WeightError>> {
    if s.None? then None else Some(PyWeight(s.value))
  }

  // The allocation as decimals; None when the event carries no outcome at all.
  function PyAllocationOf(reused: Option<Result<real, WeightError>>, recycled: Option<Result<real, WeightError>>,
                          disposed: Option<Result<real, WeightError>>)
    : Result<Option<(real, real, real)>, ImpactError>
  {
    if reused.None? && recycled.None? && disposed.None? then Ok(None)
    else if reused.None? || recycled.None? || disposed.None? then Err(IncompleteAllocationObject)
    else if reused.value.Err? then Err(WeightRejected(reused.value.error))
    else if recycled.value.Err? then Err(WeightRejected(recycled.value.error))
    else if disposed.value.Err? then Err(WeightRejected(disposed.value.error))
    else Ok(Some((reused.value.value, recycled.value.value, disposed.value.value)))
  }

  function PyAllocation(m: Measures): Result<Option<(real, real, real)>, ImpactError> {
    PyAllocationOf(PyOptional(m.reusedKg), PyOptional(m.recycledKg), PyOptional(m.disposedKg))
  }

  // The second half of analytics.evaluate: quality, outcome metrics and flags.
  function PyOutcome(m: Measures, declared: real, actual: real, allocation: Option<(real, real, real)>,
                     kg: real -> string)
    : Result<ImpactResult, ImpactError>
  {
    var base, flags := BaseMetrics(m, declared, actual, kg), Mismatches(m, declared, actual);
    match allocation
    case None => Ok(ImpactResult(RULE_VERSION, Missing, base, flags + [MissingOutcome]))
    case Some((reused, recycled, disposed)) =>
      var unknown := actual - reused - recycled - disposed;
      if unknown < 0.0 then Err(OutcomeExceedsReceivedWeight) else
      var metrics := base.(reusedKg := Some(kg(reused)), recycledKg := Some(kg(recycled)),
                           disposedKg := Some(kg(disposed)), unknownKg := Some(kg(unknown)),
                           divertedKg := Some(kg(reused + recycled)));
      Ok(ImpactResult(RULE_VERSION, if unknown != 0.0 then Partial else Complete, metrics,
                      flags + if unknown != 0.0 then [UnallocatedWeight] else []))
  }

  predicate InWeightRange(x: real) { 0.10 <= x <= 50000.0 }

  // analytics.evaluate on what weight made of the texts.
  function PyImpactOf(m: Measures, ruleVersion: string, declared: Result<real, WeightError>,
                      actual: Result<real, WeightError>, allocation: Result<Option<(real, real, real)>, ImpactError>)
    : Result<ImpactResult, ImpactError>
  {
    if ruleVersion != RULE_VERSION then Err(UnsupportedRuleVersion)
    else if m.declaredCategory !in CATEGORIES || m.actualCategory !in CATEGORIES then Err(InvalidCategory)
    else if !(1 <= m.declaredQuantity <= 100000) || !(1 <= m.actualItemCount <= 100000) then Err(InvalidItemCount)
    else if declared.Err? then Err(WeightRejected(declared.error))
    else if actual.Err? then Err(WeightRejected(actual.error))
    else if !InWeightRange(declared.value) || !InWeightRange(actual.value) then Err(InvalidWeightRange)
    else if allocation.Err? then Err(allocation.error)
    else PyOutcome(m, declared.value, actual.value, allocation.value, PyKg)
  }

  function PyImpact(m: Measures, ruleVersion: string): Result<ImpactResult, ImpactError> {
    PyImpactOf(m, ruleVersion, PyWeight(m.declaredWeightKg), PyWeight(m.actualWeightKg), PyAllocation(m))
  }

  /** The flag loop of analytics.evaluate. */
  method FlagMismatches(m: Measures, declared: real, actual: real) returns (flags: seq<Anomaly>)
    ensures flags == Mismatches(m, declared, actual)
  {
    var checks := [(m.declaredCategory != m.actualCategory, CategoryMismatch),
                   (m.actualItemCount != m.declaredQuantity, CountMismatch),
                   (actual != declared, WeightMismatch)];
    flags := [];
    for i := 0 to 3
      invariant i == 0 ==> flags == []
      invariant i == 1 ==> flags == if checks[0].0 then [CategoryMismatch] else []
      invariant i == 2 ==> flags == (if checks[0].0 then [CategoryMismatch] else []) +
                                    (if checks[1].0 then [CountMismatch] else [])
      invariant i == 3 ==> flags == Mismatches(m, declared, actual)
    {
      if checks[i].0 { flags := flags + [checks[i].1]; }
    }
  }

  /** The second half of analytics.evaluate: metrics and flags are built step by step. */
  method EvaluateOutcome(m: Measures, declared: real, actual: real, allocation: Option<(real, real, real)>,
                         kg: real -> string)
    returns (r: Result<ImpactResult, ImpactError>)
    ensures r == PyOutcome(m, declared, actual, allocation, kg)
  {
    var metrics := BaseMetrics(m, declared, actual, kg);
    var flags := FlagMismatches(m, declared, actual);
    if allocation.None? {
      return Ok(ImpactResult(RULE_VERSION, Missing, metrics, flags + [MissingOutcome]));
    }
    var (reused, recycled, disposed) := allocation.value;
    var unknown := actual - reused - recycled - disposed;
    if unknown < 0.0 { return Err(OutcomeExceedsReceivedWeight); }
    metrics := metrics.(reusedKg := Some(kg(reused)), recycledKg := Some(kg(recycled)), disposedKg := Some(kg(disposed)));
    metrics := metrics.(divertedKg := Some(kg(reused + recycled)), unknownKg := Some(kg(unknown)));
    var quality := Complete;
    assert flags == flags + [];
    if unknown != 0.0 {
      quality := Partial;
      flags := flags + [UnallocatedWeight];
    }
    return Ok(ImpactResult(RULE_VERSION, quality, metrics, flags));
  }

  // The re-check acknowledgement makes of the frozen quality and totals.
  predicate TotalsMatch(m: Measures, r: ImpactResult) {
    && m.quality == r.quality
    && m.reusedKg == r.metrics.reusedKg && m.recycledKg == r.metrics.recycledKg
    && m.disposedKg == r.metrics.disposedKg && m.unknownKg == r.metrics.unknownKg
    && m.divertedKg == r.metrics.divertedKg
    && Some(m.declaredWeightKg) == r.metrics.declaredWeightKg && Some(m.actualWeightKg) == r.metrics.actualWeightKg
  }

  // acknowledgement, from the frozen input on.
  function Acknowledgement(data: EventData): Result<ImpactResult, ImpactError> {
    match PyImpact(data.measures, data.ruleVersion)
    case Err(e) => Err(e)
    case Ok(r) => if TotalsMatch(data.measures, r) then Ok(r) else Err(FrozenTotalMismatch)
  }

  // ---------------------------------------------------------------- Go validator

  function Upper(s: string): string {
    seq(|s|, i requires 0 <= i < |s| => if 'a' <= s[i] <= 'z' then (s[i] as int - 32) as char else s[i])
  }

  // strings.EqualFold on ASCII.
  predicate EqualFold(a: string, b: string) { Upper(a) == Upper(b) }

  function DifferenceOf(left: Option<int>, right: Option<int>): Option<string> {
    if left.Some? && right.Some? then Some(FormatSignedCents(Wrap64(left.value - right.value))) else None
  }

  function SignedDifference(left: string, right: string): Option<string> {
    DifferenceOf(SignedCents(left), SignedCents(right))
  }

  predicate OptionalAmount(s: Option<string>) { s.Some? ==> IsAmount(s.value) }

  predicate SignedAmount(s: string) { IsAmount(s) || (s != "" && s[0] == '-' && IsAmount(s[1..])) }

  // validateAnalyticsMetrics.
  predicate MetricsWellFormed(m: Metrics) {
    && OptionalAmount(m.declaredWeightKg) && OptionalAmount(m.actualWeightKg)
    && OptionalAmount(m.reusedKg) && OptionalAmount(m.recycledKg) && OptionalAmount(m.disposedKg)
    && OptionalAmount(m.unknownKg) && OptionalAmount(m.divertedKg)
    && (m.weightDeltaKg.Some? ==> SignedAmount(m.weightDeltaKg.value))
    && (m.declaredQuantity.Some? ==> m.declaredQuantity.value >= 0)
    && (m.actualItemCount.Some? ==> m.actualItemCount.value >= 0)
  }

  predicate Distinct<T(==)>(s: seq<T>) { forall i, j :: 0 <= i < j < |s| ==> s[i] != s[j] }

  // expectedAnalyticsAnomalyCodes on the compared weights and the unknown cents; None is its error.
  function FlagsFrom(m: Measures, delta: Option<string>, unknown: Option<int>): Option<set<Anomaly>> {
    var category := if m.declaredCategory != "" && m.actualCategory != "" && !EqualFold(m.declaredCategory, m.actualCategory)
                    then {CategoryMismatch} else {};
    var count := if m.declaredQuantity != m.actualItemCount then {CountMismatch} else {};
    var compared := m.declaredWeightKg != "" && m.actualWeightKg != "";
    if compared && delta.None? then None else
    var weight := if compared && delta.value != "0.00" then {WeightMismatch} else {};
    match m.quality
    case Complete => Some(category + count + weight)
    case Missing => Some(category + count + weight + {MissingOutcome})
    case Partial =>
      if unknown.None? || unknown.value <= 0 then None
      else Some(category + count + weight + {UnallocatedWeight})
  }

  function UnknownCents(m: Measures): Option<int> {
    if m.unknownKg.None? then None else SignedCents(m.unknownKg.value)
  }

  function WeightDelta(m: Measures): Option<string> { SignedDifference(m.actualWeightKg, m.declaredWeightKg) }

  function ExpectedFlags(m: Measures): Option<set<Anomaly>> { FlagsFrom(m, WeightDelta(m), UnknownCents(m)) }

  function InOrder(flags: set<Anomaly>, order: seq<Anomaly>): seq<Anomaly> {
    if order == [] then [] else (if order[0] in flags then [order[0]] else []) + InOrder(flags, order[1..])
  }

  function ExpectedCodes(m: Measures): Option<seq<Anomaly>> {
    match ExpectedFlags(m)
    case None => None
    case Some(flags) => Some(InOrder(flags, CANONICAL_ORDER))
  }

  lemma InOrderSnoc(flags: set<Anomaly>, order: seq<Anomaly>, last: Anomaly)
    ensures InOrder(flags, order + [last]) == InOrder(flags, order) + if last in flags then [last] else []
  {
    if order != [] {
      assert (order + [last])[1..] == order[1..] + [last];
      InOrderSnoc(flags, order[1..], last);
    }
  }

  /** expectedAnalyticsAnomalyCodes: the flag set is emitted by a walk over the canonical order. */
  method ExpectedAnomalyCodes(m: Measures) returns (codes: Option<seq<Anomaly>>)
    ensures codes == ExpectedCodes(m)
  {
    var flags := ExpectedFlags(m);
    if flags.None? { return None; }
    var out: seq<Anomaly> := [];
    var i := 0;
    while i < |CANONICAL_ORDER|
      invariant 0 <= i <= |CANONICAL_ORDER|
      invariant out == InOrder(flags.value, CANONICAL_ORDER[..i])
    {
      InOrderSnoc(flags.value, CANONICAL_ORDER[..i], CANONICAL_ORDER[i]);
      assert CANONICAL_ORDER[..i + 1] == CANONICAL_ORDER[..i] + [CANONICAL_ORDER[i]];
      if CANONICAL_ORDER[i] in flags.value { out := out + [CANONICAL_ORDER[i]]; }
      i := i + 1;
    }
    assert CANONICAL_ORDER[..i] == CANONICAL_ORDER;
    return Some(out);
  }

  // validateAnalyticsMetricsAgainstFrozenInput, given the recomputed delta and codes.
  predicate MatchesWith(m: Measures, r: ImpactResult, delta: Option<string>, codes: Option<seq<Anomaly>>) {
    && r.quality == m.quality
    && r.metrics.declaredWeightKg == Some(m.declaredWeightKg) && r.metrics.actualWeightKg == Some(m.actualWeightKg)
    && r.metrics.reusedKg == m.reusedKg && r.metrics.recycledKg == m.recycledKg
    && r.metrics.disposedKg == m.disposedKg && r.metrics.unknownKg == m.unknownKg
    && r.metrics.divertedKg == m.divertedKg
    && r.metrics.declaredQuantity == Some(m.declaredQuantity) && r.metrics.actualItemCount == Some(m.actualItemCount)
    && r.metrics.categoryMatch == Some(EqualFold(m.declaredCategory, m.actualCategory))
    && (delta.Some? ==> r.metrics.weightDeltaKg == delta)
    && r.metrics.countDelta == Some(m.actualItemCount - m.declaredQuantity)
    && codes == Some(r.anomalies)
  }

  predicate MatchesFrozen(m: Measures, r: ImpactResult) { MatchesWith(m, r, WeightDelta(m), ExpectedCodes(m)) }

  // validateAnalyticsRequest, validateSourceEvent and validateAnalyticsMetricsAgainstFrozenInput together.
  predicate GoAccepts(data: EventData, r: ImpactResult) {
    && r.ruleVersion == data.ruleVersion && 1 <= |r.ruleVersion| <= 64
    && MetricsWellFormed(r.metrics)
    && Distinct(r.anomalies)
    && MatchesFrozen(data.measures, r)
  }

  // ---------------------------------------------------------------- agreement

  /** Go accepts at most one quality, metric set and anomaly list for a frozen event. */
  lemma AcceptedResultUnique(data: EventData, r: ImpactResult, s: ImpactResult)
    requires GoAccepts(data, r) && GoAccepts(data, s)
    ensures r == s
  {
    var m := data.measures;
    assert IsAmount(m.declaredWeightKg) && IsAmount(m.actualWeightKg);
    AmountUntrimmed(m.declaredWeightKg);
    AmountUntrimmed(m.actualWeightKg);
    assert SignedDifference(m.actualWeightKg, m.declaredWeightKg).Some?;
  }

  // Case folding decides categories as plain equality does.
  ghost predicate FoldsExactly(m: Measures) {
    && m.declaredCategory != "" && m.actualCategory != ""
    && (EqualFold(m.declaredCategory, m.actualCategory) <==> m.declaredCategory == m.actualCategory)
  }

  lemma KnownCategoriesFold(m: Measures)
    requires KnownCategories(m)
    ensures FoldsExactly(m)
  {
  }

  function CentsFlags(m: Measures, declared: int, actual: int): seq<Anomaly> {
    (if m.declaredCategory != m.actualCategory then [CategoryMismatch] else []) +
    (if m.actualItemCount != m.declaredQuantity then [CountMismatch] else []) +
    (if actual != declared then [WeightMismatch] else [])
  }

  // The result both sides arrive at, in cents.
  function CentsResult(m: Measures, declared: int, actual: int, a: Option<(int, int, int)>): ImpactResult {
    var unknown := Unaccounted(actual, a);
    var metrics := Metrics(Some(m.declaredWeightKg), Some(m.actualWeightKg), Some(m.declaredQuantity),
                           Some(m.actualItemCount), Some(m.declaredCategory == m.actualCategory),
                           Some(FormatSignedCents(actual - declared)), Some(m.actualItemCount - m.declaredQuantity),
                           m.reusedKg, m.recycledKg, m.disposedKg, m.unknownKg, m.divertedKg);
    ImpactResult(RULE_VERSION, m.quality, metrics,
                 CentsFlags(m, declared, actual) + if a.None? then [MissingOutcome] else if unknown != 0 then [UnallocatedWeight] else [])
  }

  // The counts and cents of an event that balances.
  ghost predicate Consistent(m: Measures, declared: int, actual: int, a: Option<(int, int, int)>) {
    && 1 <= m.declaredQuantity <= 100000 && 1 <= m.actualItemCount <= 100000
    && 10 <= declared <= 5_000_000 && 10 <= actual <= 5_000_000
    && match a
       case None => m.quality == Missing && m.reusedKg == m.recycledKg == m.disposedKg == m.divertedKg == None
       case Some((x, y, z)) =>
         && 0 <= x && 0 <= y && 0 <= z && x + y + z <= actual
         && m.quality == if x + y + z == actual then Complete else Partial
  }

  predicate KnownCategories(m: Measures) { m.declaredCategory in CATEGORIES && m.actualCategory in CATEGORIES }

  // The event's texts print those cents.
  ghost predicate Denotes(m: Measures, declared: int, actual: int, a: Option<(int, int, int)>) {
    && Prints(m.declaredWeightKg, declared) && Prints(m.actualWeightKg, actual)
    && PrintsOptional(m.unknownKg, Unaccounted(actual, a))
    && (a.Some? ==>
        && PrintsOptional(m.reusedKg, a.value.0) && PrintsOptional(m.recycledKg, a.value.1)
        && PrintsOptional(m.disposedKg, a.value.2) && PrintsOptional(m.divertedKg, a.value.0 + a.value.1))
  }

  function Decimals3(a: Option<(int, int, int)>): Option<(real, real, real)> {
    match a
    case None => None
    case Some((x, y, z)) => Some((Kg(x), Kg(y), Kg(z)))
  }

  // A batch weight is short enough for Python's eight characters.
  lemma PyReadsMoney(c: int)
    requires 0 <= c <= 5_000_000
    ensures PyWeight(Money(c)) == Ok(Kg(c))
  {
    PyRoundTrip(c);
    PyKgOfCents(c);
  }

  lemma PyReadsOptional(s: Option<string>, c: int)
    requires PrintsOptional(s, c) && c <= 5_000_000
    ensures PyOptional(s) == Some(Ok(Kg(c)))
  {
    PyReadsMoney(c);
  }

  lemma PyReadsAllocation(m: Measures, declared: int, actual: int, a: Option<(int, int, int)>)
    requires Consistent(m, declared, actual, a) && Denotes(m, declared, actual, a)
    ensures PyAllocation(m) == Ok(Decimals3(a))
  {
    if a.Some? {
      var (x, y, z) := a.value;
      assert PyOptional(m.reusedKg) == Some(Ok(Kg(x))) by { PyReadsOptional(m.reusedKg, x); }
      assert PyOptional(m.recycledKg) == Some(Ok(Kg(y))) by { PyReadsOptional(m.recycledKg, y); }
      assert PyOptional(m.disposedKg) == Some(Ok(Kg(z))) by { PyReadsOptional(m.disposedKg, z); }
    }
  }

  lemma PyReads(m: Measures, declared: int, actual: int, a: Option<(int, int, int)>)
    requires Consistent(m, declared, actual, a) && Denotes(m, declared, actual, a)
    ensures PyWeight(m.declaredWeightKg) == Ok(Kg(declared)) && PyWeight(m.actualWeightKg) == Ok(Kg(actual))
    ensures PyAllocation(m) == Ok(Decimals3(a))
  {
    PyReadsMoney(declared);
    PyReadsMoney(actual);
    PyReadsAllocation(m, declared, actual, a);
  }

  // A printer that renders each figure of the event as the event's own text.
  ghost predicate Renders(kg: real -> string, m: Measures, declared: int, actual: int, a: Option<(int, int, int)>) {
    && kg(Kg(declared)) == m.declaredWeightKg && kg(Kg(actual)) == m.actualWeightKg
    && kg(Kg(actual - declared)) == FormatSignedCents(actual - declared)
    && Some(kg(Kg(Unaccounted(actual, a)))) == m.unknownKg
    && (a.Some? ==>
        && Some(kg(Kg(a.value.0))) == m.reusedKg && Some(kg(Kg(a.value.1))) == m.recycledKg
        && Some(kg(Kg(a.value.2))) == m.disposedKg && Some(kg(Kg(a.value.0 + a.value.1))) == m.divertedKg)
  }

  lemma PyKgRenders(m: Measures, declared: int, actual: int, a: Option<(int, int, int)>)
    requires Consistent(m, declared, actual, a) && Denotes(m, declared, actual, a)
    ensures Renders(PyKg, m, declared, actual, a)
  {
    PyKgOfCents(declared);
    PyKgOfCents(actual);
    PrintersAgree(actual - declared);
    PyKgOfCents(Unaccounted(actual, a));
    if a.Some? {
      PyKgOfCents(a.value.0);
      PyKgOfCents(a.value.1);
      PyKgOfCents(a.value.2);
      PyKgOfCents(a.value.0 + a.value.1);
    }
  }

  // On a balanced event Python computes the cents result.
  lemma PyOutcomeAgrees(m: Measures, declared: int, actual: int, a: Option<(int, int, int)>, kg: real -> string)
    requires Consistent(m, declared, actual, a) && Renders(kg, m, declared, actual, a)
    ensures PyOutcome(m, Kg(declared), Kg(actual), Decimals3(a), kg) == Ok(CentsResult(m, declared, actual, a))
  {
  }

  lemma InRange(c: int)
    requires 10 <= c <= 5_000_000
    ensures InWeightRange(Kg(c))
  {
  }

  lemma PyImpactOfAgrees(m: Measures, declared: int, actual: int, a: Option<(int, int, int)>)
    requires KnownCategories(m)
    requires Consistent(m, declared, actual, a) && Renders(PyKg, m, declared, actual, a)
    ensures PyImpactOf(m, RULE_VERSION, Ok(Kg(declared)), Ok(Kg(actual)), Ok(Decimals3(a))) ==
            Ok(CentsResult(m, declared, actual, a))
  {
    InRange(declared);
    InRange(actual);
    PyOutcomeAgrees(m, declared, actual, a, PyKg);
  }

  lemma PyImpactAgrees(m: Measures, declared: int, actual: int, a: Option<(int, int, int)>)
    requires KnownCategories(m)
    requires Consistent(m, declared, actual, a) && Denotes(m, declared, actual, a)
    ensures PyImpact(m, RULE_VERSION) == Ok(CentsResult(m, declared, actual, a))
  {
    PyReads(m, declared, actual, a);
    PyKgRenders(m, declared, actual, a);
    PyImpactOfAgrees(m, declared, actual, a);
  }

  function Kept(f: set<Anomaly>, code: Anomaly): seq<Anomaly> { if code in f then [code] else [] }

  lemma InCanonicalOrder(f: set<Anomaly>)
    ensures InOrder(f, CANONICAL_ORDER) ==
            Kept(f, CategoryMismatch) + Kept(f, CountMismatch) + Kept(f, WeightMismatch) +
            Kept(f, MissingOutcome) + Kept(f, UnallocatedWeight)
  {
    var o := CANONICAL_ORDER;
    var s: seq<Anomaly> := [];
    for i := 0 to 5
      invariant s == CANONICAL_ORDER[..i]
      invariant i == 0 ==> InOrder(f, s) == []
      invariant i == 1 ==> InOrder(f, s) == Kept(f, o[0])
      invariant i == 2 ==> InOrder(f, s) == Kept(f, o[0]) + Kept(f, o[1])
      invariant i == 3 ==> InOrder(f, s) == Kept(f, o[0]) + Kept(f, o[1]) + Kept(f, o[2])
      invariant i == 4 ==> InOrder(f, s) == Kept(f, o[0]) + Kept(f, o[1]) + Kept(f, o[2]) + Kept(f, o[3])
      invariant i == 5 ==> InOrder(f, s) == Kept(f, o[0]) + Kept(f, o[1]) + Kept(f, o[2]) + Kept(f, o[3]) + Kept(f, o[4])
    {
      InOrderSnoc(f, s, o[i]);
      s := s + [o[i]];
    }
    assert s == CANONICAL_ORDER;
  }

  lemma GoReadsMoney(c: int)
    requires 0 <= c <= 5_000_000
    ensures SignedCents(Money(c)) == Some(c) && IsAmount(Money(c))
  {
    MoneyShape(c);
    SignedCentsExact(Money(c));
  }

  lemma DifferenceReads(actual: int, declared: int)
    requires 0 <= declared <= 5_000_000 && 0 <= actual <= 5_000_000
    ensures SignedDifference(Money(actual), Money(declared)) == Some(FormatSignedCents(actual - declared))
  {
    GoReadsMoney(declared);
    GoReadsMoney(actual);
  }

  lemma ZeroDelta(delta: int)
    requires IsInt64(delta)
    ensures FormatSignedCents(delta) == "0.00" <==> delta == 0
  {
    assert Money(0) == "0.00" by { assert Numeral(0) == "0"; }
    SignedRoundTrip(delta);
    SignedRoundTrip(0);
  }

  // The flag set itself, once the compared texts are known.
  lemma FlagsAgree(m: Measures, declared: int, actual: int, a: Option<(int, int, int)>, delta: string)
    requires Consistent(m, declared, actual, a) && FoldsExactly(m)
    requires m.declaredWeightKg != "" && m.actualWeightKg != ""
    requires delta == "0.00" <==> actual == declared
    ensures var flags := FlagsFrom(m, Some(delta), Some(Unaccounted(actual, a)));
            && flags.Some?
            && (CategoryMismatch in flags.value <==> m.declaredCategory != m.actualCategory)
            && (CountMismatch in flags.value <==> m.actualItemCount != m.declaredQuantity)
            && (WeightMismatch in flags.value <==> actual != declared)
            && (MissingOutcome in flags.value <==> a.None?)
            && (UnallocatedWeight in flags.value <==> a.Some? && Unaccounted(actual, a) != 0)
  {
  }

  lemma CodesAgree(m: Measures, declared: int, actual: int, a: Option<(int, int, int)>)
    requires Consistent(m, declared, actual, a) && FoldsExactly(m)
    requires m.declaredWeightKg != "" && m.actualWeightKg != ""
    ensures var flags := FlagsFrom(m, Some(FormatSignedCents(actual - declared)), Some(Unaccounted(actual, a)));
            flags.Some? && InOrder(flags.value, CANONICAL_ORDER) == CentsResult(m, declared, actual, a).anomalies
  {
    var delta := FormatSignedCents(actual - declared);
    assert delta == "0.00" <==> actual == declared by { ZeroDelta(actual - declared); }
    FlagsAgree(m, declared, actual, a, delta);
    InCanonicalOrder(FlagsFrom(m, Some(delta), Some(Unaccounted(actual, a))).value);
  }

  lemma SignedAmountOfCents(delta: int)
    requires -5_000_000 <= delta <= 5_000_000
    ensures SignedAmount(FormatSignedCents(delta))
  {
    SignedIsMoney(delta);
    MoneyShape(if delta < 0 then -delta else delta);
    assert delta < 0 ==> FormatSignedCents(delta)[1..] == Money(-delta);
  }

  lemma PrintedOptional(s: Option<string>, c: int)
    requires PrintsOptional(s, c)
    ensures OptionalAmount(s)
  {
    MoneyShape(c);
  }

  predicate AmountsWellFormed(m: Measures) {
    && OptionalAmount(Some(m.declaredWeightKg)) && OptionalAmount(Some(m.actualWeightKg))
    && OptionalAmount(m.reusedKg) && OptionalAmount(m.recycledKg) && OptionalAmount(m.disposedKg)
    && OptionalAmount(m.unknownKg) && OptionalAmount(m.divertedKg)
  }

  lemma DenotedWeights(m: Measures, declared: int, actual: int, a: Option<(int, int, int)>)
    requires Denotes(m, declared, actual, a)
    ensures OptionalAmount(Some(m.declaredWeightKg)) && OptionalAmount(Some(m.actualWeightKg))
    ensures OptionalAmount(m.unknownKg)
  {
    PrintedOptional(Some(m.declaredWeightKg), declared);
    PrintedOptional(Some(m.actualWeightKg), actual);
    PrintedOptional(m.unknownKg, Unaccounted(actual, a));
  }

  lemma DenotedOutcome(m: Measures, declared: int, actual: int, x: int, y: int, z: int)
    requires Denotes(m, declared, actual, Some((x, y, z)))
    ensures OptionalAmount(m.reusedKg) && OptionalAmount(m.recycledKg)
    ensures OptionalAmount(m.disposedKg) && OptionalAmount(m.divertedKg)
  {
    PrintedOptional(m.reusedKg, x);
    PrintedOptional(m.recycledKg, y);
    PrintedOptional(m.disposedKg, z);
    PrintedOptional(m.divertedKg, x + y);
  }

  lemma DenotedAmounts(m: Measures, declared: int, actual: int, a: Option<(int, int, int)>)
    requires Consistent(m, declared, actual, a) && Denotes(m, declared, actual, a)
    ensures AmountsWellFormed(m)
  {
    DenotedWeights(m, declared, actual, a);
    match a
    case None =>
    case Some((x, y, z)) => DenotedOutcome(m, declared, actual, x, y, z);
  }

  // What Go recomputes from the frozen texts is what the cents result says.
  lemma GoRecomputes(m: Measures, declared: int, actual: int, a: Option<(int, int, int)>)
    requires Consistent(m, declared, actual, a) && Denotes(m, declared, actual, a) && FoldsExactly(m)
    ensures WeightDelta(m) == Some(FormatSignedCents(actual - declared))
    ensures ExpectedCodes(m) == Some(CentsResult(m, declared, actual, a).anomalies)
  {
    DifferenceReads(actual, declared);
    GoReadsMoney(Unaccounted(actual, a));
    assert m.declaredWeightKg != "" && m.actualWeightKg != "" by {
      AmountEnds(m.declaredWeightKg) by { MoneyShape(declared); }
      AmountEnds(m.actualWeightKg) by { MoneyShape(actual); }
    }
    CodesAgree(m, declared, actual, a);
  }

  lemma CentsMatches(m: Measures, declared: int, actual: int, a: Option<(int, int, int)>, delta: Option<string>,
                     codes: Option<seq<Anomaly>>)
    requires FoldsExactly(m) && delta == Some(FormatSignedCents(actual - declared))
    requires codes == Some(CentsResult(m, declared, actual, a).anomalies)
    ensures MatchesWith(m, CentsResult(m, declared, actual, a), delta, codes)
    ensures Distinct(CentsResult(m, declared, actual, a).anomalies)
  {
  }

  lemma CentsWellFormed(m: Measures, declared: int, actual: int, a: Option<(int, int, int)>)
    requires AmountsWellFormed(m) && 0 <= m.declaredQuantity && 0 <= m.actualItemCount
    requires 0 <= declared <= 5_000_000 && 0 <= actual <= 5_000_000
    ensures MetricsWellFormed(CentsResult(m, declared, actual, a).metrics)
  {
    SignedAmountOfCents(actual - declared);
  }

  lemma GoAcceptsCents(data: EventData, declared: int, actual: int, a: Option<(int, int, int)>)
    requires KnownCategories(data.measures) && data.ruleVersion == RULE_VERSION
    requires Consistent(data.measures, declared, actual, a) && Denotes(data.measures, declared, actual, a)
    ensures GoAccepts(data, CentsResult(data.measures, declared, actual, a))
  {
    var m, r := data.measures, CentsResult(data.measures, declared, actual, a);
    DenotedAmounts(m, declared, actual, a);
    CentsWellFormed(m, declared, actual, a);
    assert MatchesFrozen(m, r) && Distinct(r.anomalies) by {
      KnownCategoriesFold(m);
      GoRecomputes(m, declared, actual, a);
      CentsMatches(m, declared, actual, a, WeightDelta(m), ExpectedCodes(m));
    }
    assert |RULE_VERSION| == 5;
  }

  lemma TreatmentDenotes(d: Declared, r: Receipt, request: TreatmentRequest)
    requires ValidFigures(d.category, d.quantity, d.weightKg) && ValidFigures(r.category, r.itemCount, r.weightKg)
    requires NormalizedTreatment(request, r.weightKg).Ok?
    ensures var m, a := EventMeasures(d, r, NormalizedTreatment(request, r.weightKg).value), Allocation(request);
            KnownCategories(m) && Consistent(m, Amount(d.weightKg), Amount(r.weightKg), a) && Denotes(m, Amount(d.weightKg), Amount(r.weightKg), a)
  {
    TreatmentCentsReads(r.weightKg);
    MoneyUnique(d.weightKg);
    MoneyUnique(r.weightKg);
    TreatmentConservesMass(request, r.weightKg);
  }

  /** Every event a treatment can produce is acknowledged by Python exactly when it froze the d3-v1
      rule, and then Go accepts that acknowledgement and no other. */
  lemma TreatmentEventAcknowledged(d: Declared, r: Receipt, request: TreatmentRequest, data: EventData)
    requires ValidFigures(d.category, d.quantity, d.weightKg) && ValidFigures(r.category, r.itemCount, r.weightKg)
    requires NormalizedTreatment(request, r.weightKg).Ok?
    requires data.measures == EventMeasures(d, r, NormalizedTreatment(request, r.weightKg).value)
    ensures Acknowledgement(data).Ok? <==> data.ruleVersion == RULE_VERSION
    ensures data.ruleVersion == RULE_VERSION ==>
              forall s :: GoAccepts(data, s) <==> s == Acknowledgement(data).value
  {
    TreatmentDenotes(d, r, request);
    var declared, actual, a := Amount(d.weightKg), Amount(r.weightKg), Allocation(request);
    if data.ruleVersion == RULE_VERSION {
      PyImpactAgrees(data.measures, declared, actual, a);
      GoAcceptsCents(data, declared, actual, a);
      forall s | GoAccepts(data, s) ensures s == CentsResult(data.measures, declared, actual, a) {
        AcceptedResultUnique(data, s, CentsResult(data.measures, declared, actual, a));
      }
    }
  }
}
