/** Quality negotiation between the configured quality and the preferred container. */
module Quality {

  /** Fidelity rank of the tiers the service knows; other strings have no rank. */
  function Rank(q: string): int
  {
    if q == "standard" then 0
    else if q == "exhigh" then 1
    else if q == "lossless" then 2
    else if q == "hires" then 3
    else -1
  }

  /**
   * The level requested from the legacy audio endpoint: an MP3 preference clamps lossless
   * tiers down to "exhigh", a FLAC preference raises lossy tiers to "lossless", and every
   * other pair leaves the configured quality as it is.
   */
  function NegotiateQuality(preferredFormat: string, quality: string): (r: string)
    ensures preferredFormat == "mp3" && quality in {"lossless", "hires"} ==> r == "exhigh"
    ensures preferredFormat == "flac" && quality in {"standard", "exhigh"} ==> r == "lossless"
    ensures (!(preferredFormat == "mp3" && quality in {"lossless", "hires"})
             && !(preferredFormat == "flac" && quality in {"standard", "exhigh"})) ==> r == quality
    // the result never asks for a tier the preferred container cannot hold
    ensures preferredFormat == "mp3" ==> r != "lossless" && r != "hires"
    ensures preferredFormat == "flac" ==> r != "standard" && r != "exhigh"
    // MP3 only ever lowers fidelity, FLAC only ever raises it
    ensures preferredFormat == "mp3" ==> Rank(r) <= Rank(quality)
    ensures preferredFormat == "flac" ==> Rank(r) >= Rank(quality)
  {
    if preferredFormat == "mp3" then
      if quality in ["lossless", "hires"] then "exhigh" else quality
    else if preferredFormat == "flac" then
      if quality in ["standard", "exhigh"] then "lossless" else quality
    else quality
  }

  /** Negotiating twice changes nothing more than negotiating once. */
  lemma NegotiateIdempotent(preferredFormat: string, quality: string)
    ensures NegotiateQuality(preferredFormat, NegotiateQuality(preferredFormat, quality))
         == NegotiateQuality(preferredFormat, quality)
  {
  }
}
