/**
 * The channel identifier domain: a bounded unsigned integer with one
 * reserved "invalid" value.
 */
module ChannelIds {

  /** Largest value of the identifier type, taken to be a 32-bit unsigned integer. */
  const CHANNEL_ID_MAX: nat := 0xFFFF_FFFF

  /** A hardware readout channel identifier. */
  type ChannelId = c: nat | c <= CHANNEL_ID_MAX

  /**
   * The invalid sentinel. Its definition lives in a header that is not part of
   * this model; it is assumed to be the largest representable identifier.
   */
  const INVALID_CHANNEL: ChannelId := CHANNEL_ID_MAX

  /** The sole validity test: every identifier but the sentinel is valid. */
  predicate IsValid(c: ChannelId) {
    c != INVALID_CHANNEL
  }

  /**
   * The lowest valid identifier, the point where an upward search from 0 for a
   * valid identifier stops. Because the sentinel is the largest value, that
   * search stops at once.
   */
  function FirstValidId(): (r: ChannelId)
    ensures IsValid(r)
    ensures forall c: ChannelId :: c < r ==> !IsValid(c)
  {
    0
  }
}
