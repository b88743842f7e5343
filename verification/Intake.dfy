/** What a batch and a receipt must pass before their figures are stored: the donor's submission and the
    facility's receipt. */
module Intake {
  import opened Wrappers
  import opened Vocabulary
  import opened Decimals
  import opened Snapshots
  import Impact

  // ---------------------------------------------------------------- batch.go: validateStoredBatch

  // The weight column holds two decimals.
  predicate StoredValid(d: Details) {
    && 1 <= d.quantity <= 100000 && d.category in CATEGORIES && d.condition in CONDITIONS && d.zone in ZONES
    && IsMoney(d.weightKg) && 10 <= Amount(d.weightKg) <= 5_000_000
    && d.submittedAt + 48 * HOUR <= d.deadline <= d.submittedAt + 90 * DAY
  }

  // ---------------------------------------------------------------- receipt.go: normalizeReceiptRequest

  datatype ReceiptError = CategoryUnsupported | ItemCountOutOfRange | WeightMalformed | WeightOutOfRange

  function Spaceless(s: string): string { Trim(s, GoSpace) }

  // Two-decimal texts and the bounds round to doubles in order, so that the range is one of cents.
  function NormalizedReceipt(raw: Impact.Receipt): Result<Impact.Receipt, ReceiptError> {
    var category, weight := Impact.Upper(Spaceless(raw.category)), Spaceless(raw.weightKg);
    if category !in CATEGORIES then Err(CategoryUnsupported)
    else if !(1 <= raw.itemCount <= 100000) then Err(ItemCountOutOfRange)
    else if !IsAmount(weight) then Err(WeightMalformed)
    else if !(10 <= Amount(weight) <= 5_000_000) then Err(WeightOutOfRange)
    else Ok(Impact.Receipt(category, raw.itemCount, Money(Amount(weight))))
  }

  predicate Receivable(f: Impact.Receipt) { Impact.ValidFigures(f.category, f.itemCount, f.weightKg) }

  lemma CategoryUntouched(s: string)
    requires s in CATEGORIES
    ensures Impact.Upper(Spaceless(s)) == s
  {
    var k :| 0 <= k < |CATEGORIES| && s == CATEGORIES[k];
    assert k == 0 || k == 1 || k == 2 || k == 3;
    TrimExact(s, GoSpace);
  }

  /** A normalised receipt has valid figures of the same amount, and normalising it again changes
      nothing: the receivable figures are exactly the normalised ones. */
  lemma NormalizedReceivable(raw: Impact.Receipt)
    ensures NormalizedReceipt(raw).Ok? ==>
              var f := NormalizedReceipt(raw).value;
              && Receivable(f) && Amount(f.weightKg) == Amount(Spaceless(raw.weightKg))
              && f.itemCount == raw.itemCount && f.category == Impact.Upper(Spaceless(raw.category))
    ensures Receivable(raw) <==> NormalizedReceipt(raw) == Ok(raw)
  {
    var weight := Spaceless(raw.weightKg);
    if IsAmount(weight) { MoneyShape(Amount(weight)); }
    if Receivable(raw) {
      CategoryUntouched(raw.category);
      AmountUntrimmed(raw.weightKg);
      MoneyUnique(raw.weightKg);
    }
  }
}
