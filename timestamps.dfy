/** Points in time as the synchronisation job stores and prints them. */
module Timestamps {
  import opened Common
  import opened Strings

  /** A point in time, counted in ticks from the earliest representable
    * datetime; the order of ticks is the order of datetimes. */
  type Timestamp = nat

  /** Python `datetime.min`: the watermark of a kind never synchronised. */
  const DatetimeMin: Timestamp := 0

  /** The text `str(datetime)` gives for a timestamp, as decimal ticks. */
  function DateText(t: Timestamp): (s: string)
    ensures 1 <= |s| && AllDigits(s)
  {
    NatToString(t)
  }

  /** Distinct timestamps print differently. */
  lemma DateTextInjective(a: Timestamp, b: Timestamp)
    requires DateText(a) == DateText(b)
    ensures a == b
  {
    ParseNatToString(a);
    ParseNatToString(b);
  }

  /** `datetime.fromisoformat`: the text a watermark was stored as, read
    * back; any other text is rejected (a ValueError). */
  function FromIsoFormat(s: string): Option<Timestamp>
  {
    if 1 <= |s| && AllDigits(s) then Some(ParseNat(s)) else None
  }

  /** What `isoformat` writes, `fromisoformat` reads back unchanged. */
  lemma IsoFormatRoundTrip(t: Timestamp)
    ensures FromIsoFormat(DateText(t)) == Some(t)
  {
    ParseNatToString(t);
  }
}
