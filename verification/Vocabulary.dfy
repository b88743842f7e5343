/** The closed vocabularies shared by the batch, matching and analytics contracts. */
module Vocabulary {
  const CATEGORIES := ["ICT_EQUIPMENT", "LARGE_APPLIANCE", "BATTERIES", "CONSUMER_ELECTRONICS"]
  const CONDITIONS := ["FUNCTIONAL", "REPAIRABLE", "END_OF_LIFE"]
  const ZONES := ["NORTH", "SOUTH", "EAST", "WEST", "CENTRAL"]

  const MAX_UINT32: int := 0xFFFF_FFFF
  const MAX_UINT64: int := 0xFFFF_FFFF_FFFF_FFFF

  datatype BatchStatus =
    | Draft | Submitted | MatchedBatch | Approved | Assigned | Collected | FailedCollection
    | Verified | Recycled | Completed

  // Instants are microseconds since 1000-01-01T00:00:00Z; the contract's four-digit years end here.
  const MINUTE: int := 60_000_000
  const HOUR: int := 60 * MINUTE
  const DAY: int := 24 * HOUR
  const END_OF_TIME: int := 3_287_182 * DAY

  predicate IsInstant(t: int) { 0 <= t < END_OF_TIME }
}
