/**
 * Timestamps as JavaScript's `Date` objects carry them, reduced to what the
 * stores observe: a `Date` either holds a time value (milliseconds since the
 * epoch) or is an "Invalid Date" whose time value is NaN.
 */
module Timestamps {
  import opened Wrappers

  /** ECMAScript's TimeClip bound: a time value whose magnitude exceeds
      8.64e15 milliseconds makes an invalid `Date`. */
  const MaxTimeMillis: int := 8_640_000_000_000_000

  /** A `Date`: a valid instant, or the invalid sentinel. */
  datatype Timestamp = Valid(instant: int) | Invalid

  /** The `timestamp` field of a message as it arrives from the relay: a
      number of milliseconds, a date string, JSON `null`, or no field at all. */
  datatype WireTime = Millis(ms: int) | Text(text: string) | Null | Missing

  /** The host's `Date.parse`: the time value a date string denotes, or
      `None` where it yields NaN.  Its grammar is not part of this model. */
  type DateParser = string -> Option<int>

  predicate InRange(ms: int) {
    -MaxTimeMillis <= ms <= MaxTimeMillis
  }

  /** TimeClip: keep an in-range time value, otherwise the invalid sentinel. */
  function Clip(ms: int): Timestamp {
    if InRange(ms) then Valid(ms) else Invalid
  }

  /** `new Date(w)`, the normalisation the App.js store applies to every
      received timestamp.  It never fails: whatever cannot be read becomes
      the invalid sentinel. */
  function ToDate(w: WireTime, parse: DateParser): (t: Timestamp)
    ensures t.Valid? ==> InRange(t.instant)
    ensures t.Valid? <==> Readable(w, parse)
    ensures w.Millis? && InRange(w.ms) ==> t == Valid(w.ms)
    ensures w.Text? && parse(w.text).Some? && InRange(parse(w.text).value) ==> t == Valid(parse(w.text).value)
    ensures w.Null? ==> t == Valid(0)
  {
    match w
    case Millis(ms) => Clip(ms)
    case Text(s) => if parse(s).Some? then Clip(parse(s).value) else Invalid
    case Null => Valid(0)
    case Missing => Invalid
  }

  /** The wire values that denote an instant `Date` can hold: an in-range
      number, a string the parser reads to an in-range value, or `null`
      (which JavaScript reads as the epoch). */
  predicate Readable(w: WireTime, parse: DateParser) {
    || (w.Millis? && InRange(w.ms))
    || (w.Text? && parse(w.text).Some? && InRange(parse(w.text).value))
    || w.Null?
  }

  /** Normalising is idempotent: a normalised instant sent again as a
      number of milliseconds comes back unchanged. */
  lemma ToDateIdempotent(w: WireTime, parse: DateParser)
    ensures var t := ToDate(w, parse);
            t.Valid? ==> ToDate(Millis(t.instant), parse) == t
  {
  }
}
