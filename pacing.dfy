/** Reply pacing: which "typing" delay range applies to a reply, chosen by its
    length in characters. The random draw inside the range is not modelled. */
module Pacing {

  datatype Bucket = Short | Medium | Long

  /** The length bucket of a reply: under 30 characters, under 100, or longer.
      The buckets split the lengths into three consecutive ranges. */
  function TypingBucket(reply: string): (r: Bucket)
    ensures r == Short <==> |reply| < 30
    ensures r == Long <==> |reply| >= 100
    ensures r == Medium <==> 30 <= |reply| < 100
  {
    if |reply| < 30 then Short else if |reply| < 100 then Medium else Long
  }

  /** The bounds, in milliseconds, of the uniform typing delay of each bucket. */
  function DelayRangeMillis(b: Bucket): (r: (nat, nat))
    ensures 1000 <= r.0 < r.1 <= 3000
  {
    match b
    case Short => (1000, 1500)
    case Medium => (1500, 2500)
    case Long => (2500, 3000)
  }

  /** A longer reply never gets a shorter delay range. */
  lemma TypingDelayMonotone(a: string, b: string)
    requires |a| <= |b|
    ensures DelayRangeMillis(TypingBucket(a)).0 <= DelayRangeMillis(TypingBucket(b)).0
    ensures DelayRangeMillis(TypingBucket(a)).1 <= DelayRangeMillis(TypingBucket(b)).1
  {
  }
}
