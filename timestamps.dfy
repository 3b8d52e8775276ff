/** The time normaliser of the tconnect parser.
    The three raw encodings the pump's cloud uses (epoch seconds, a naive
    local ISO-8601 string, and epoch milliseconds inside a `/Date(...)/`
    envelope) are all reduced to one of two raw times, which are then
    handed to the configured local-time converter.  The converter itself
    (zone database, DST rules, formatting) is a parameter of the model, and
    nothing here assumes it keeps the instant: the pump's clock may be
    printed as wall time with the configured zone's offset. */
module Timestamps {
  import opened Wrappers

  /** A local timestamp as the parser prints it, `YYYY-MM-DD HH:MM:SS+HH:MM`. */
  type Timestamp = string

  /** The two raw times the converter accepts: an instant, or a wall-clock reading. */
  datatype RawTime =
    | EpochSeconds(seconds: real)   // seconds since the Unix epoch (may carry a fraction)
    | NaiveLocal(text: string)      // ISO-8601 wall-clock time in the pump's zone, no offset

  /** The configured local-time converter; `None` is a value the converter rejects. */
  type Localizer = RawTime -> Option<Timestamp>

  /** A raw time field as it appears in a record, by encoding. */
  datatype TimeField =
    | EpochField(x: int)              // e.g. "x": 1615878000
    | IsoField(text: string)          // e.g. "EventDateTime": "2021-10-12T00:01:12"
    | EnvelopeField(text: string)     // e.g. "EventDateTime": "/Date(1638663490000-0000)/"

  predicate IsDigit(c: char) {
    '0' <= c <= '9'
  }

  predicate AllDigits(s: string) {
    forall i :: 0 <= i < |s| ==> IsDigit(s[i])
  }

  function DigitValue(c: char): (d: nat)
    requires IsDigit(c)
    ensures d < 10
  {
    (c as int) - ('0' as int)
  }

  function DigitChar(d: nat): (c: char)
    requires d < 10
    ensures IsDigit(c) && DigitValue(c) == d
  {
    (('0' as int) + d) as char
  }

  /** The number a string of decimal digits denotes (most significant first). */
  function DigitsValue(s: string): (v: nat)
    requires AllDigits(s)
    decreases |s|
  {
    if s == [] then 0 else DigitsValue(s[..|s| - 1]) * 10 + DigitValue(s[|s| - 1])
  }

  /** The shortest decimal rendering of `n`. */
  function NatToDigits(n: nat): (s: string)
    ensures 1 <= |s| && AllDigits(s)
    ensures n == 0 || s[0] != '0'
    decreases n
  {
    if n < 10 then [DigitChar(n)] else NatToDigits(n / 10) + [DigitChar(n % 10)]
  }

  lemma {:induction false} DigitsRoundTrip(n: nat)
    ensures DigitsValue(NatToDigits(n)) == n
    decreases n
  {
    if n >= 10 {
      var s := NatToDigits(n);
      assert s[..|s| - 1] == NatToDigits(n / 10);
      DigitsRoundTrip(n / 10);
    }
  }

  const DatePrefix: string := "/Date("
  const DateSuffix: string := "-0000)/"

  /** The envelope the cloud wraps a millisecond epoch in. */
  function DateEnvelope(ms: nat): (s: string) {
    DatePrefix + NatToDigits(ms) + DateSuffix
  }

  /** Strips the `/Date(` … `-0000)/` envelope and reads the milliseconds;
      `None` when the envelope or the digits are missing. */
  function ParseDateEnvelope(s: string): (ms: Option<nat>)
    ensures ms.Some? ==>
      && |s| > |DatePrefix| + |DateSuffix|
      && s[..|DatePrefix|] == DatePrefix
      && s[|s| - |DateSuffix|..] == DateSuffix
  {
    if |s| >= |DatePrefix| + |DateSuffix|
       && s[..|DatePrefix|] == DatePrefix
       && s[|s| - |DateSuffix|..] == DateSuffix
    then
      var digits := s[|DatePrefix|..|s| - |DateSuffix|];
      if digits != [] && AllDigits(digits) then Some(DigitsValue(digits)) else None
    else
      None
  }

  /** Reading back a rendered envelope gives the milliseconds that were rendered. */
  lemma EnvelopeRoundTrip(ms: nat)
    ensures ParseDateEnvelope(DateEnvelope(ms)) == Some(ms)
  {
    var s := DateEnvelope(ms);
    var d := NatToDigits(ms);
    assert s[..|DatePrefix|] == DatePrefix;
    assert s[|s| - |DateSuffix|..] == DateSuffix;
    assert s[|DatePrefix|..|s| - |DateSuffix|] == d;
    DigitsRoundTrip(ms);
  }

  /** Only enveloped, non-empty digit strings are accepted, and the value read is theirs. */
  lemma EnvelopeSound(s: string, ms: nat)
    requires ParseDateEnvelope(s) == Some(ms)
    ensures exists digits: string ::
      digits != [] && AllDigits(digits) && s == DatePrefix + digits + DateSuffix && DigitsValue(digits) == ms
  {
    var digits := s[|DatePrefix|..|s| - |DateSuffix|];
    assert s == s[..|DatePrefix|] + digits + s[|s| - |DateSuffix|..];
  }

  /** The raw time a time field denotes; only an envelope can be malformed here. */
  function RawTimeOf(field: TimeField): (t: Option<RawTime>) {
    match field
    case EpochField(x) => Some(EpochSeconds(x as real))
    case IsoField(text) => Some(NaiveLocal(text))
    case EnvelopeField(text) =>
      match ParseDateEnvelope(text)
      case Some(ms) => Some(EpochSeconds(ms as real / 1000.0))
      case None => None
  }

  /** The local timestamp of a time field, or `None` when the field is malformed
      or the zone converter rejects it. */
  function Normalize(localize: Localizer, field: TimeField): (t: Option<Timestamp>)
    ensures !field.EnvelopeField? ==> RawTimeOf(field).Some? && t == localize(RawTimeOf(field).value)
    ensures field.EnvelopeField? && t.Some? ==> ParseDateEnvelope(field.text).Some?
  {
    match RawTimeOf(field)
    case Some(t) => localize(t)
    case None => None
  }

  /** Every accepted envelope is converted as the milliseconds it holds divided by 1000,
      given as epoch seconds. */
  lemma EnvelopeNormalizesAsEpoch(localize: Localizer, s: string, ms: nat)
    requires ParseDateEnvelope(s) == Some(ms)
    ensures Normalize(localize, EnvelopeField(s)) == localize(EpochSeconds(ms as real / 1000.0))
  {
  }

  /** The envelope rendered from a millisecond epoch is normalised exactly as its value
      divided by 1000 given as epoch seconds: all encodings share one offset rule. */
  lemma EnvelopeAgreesWithEpoch(localize: Localizer, ms: nat)
    ensures Normalize(localize, EnvelopeField(DateEnvelope(ms))) == localize(EpochSeconds(ms as real / 1000.0))
    ensures ms % 1000 == 0 ==>
      Normalize(localize, EnvelopeField(DateEnvelope(ms))) == Normalize(localize, EpochField(ms / 1000))
  {
    EnvelopeRoundTrip(ms);
    EnvelopeNormalizesAsEpoch(localize, DateEnvelope(ms), ms);
    if ms % 1000 == 0 {
      assert (ms / 1000) as real == ms as real / 1000.0;
    }
  }

  /** A field without the envelope is a malformed timestamp, whatever the converter does. */
  lemma UnwrappedMillisRejected(localize: Localizer, s: string)
    requires |s| < |DatePrefix| || s[..|DatePrefix|] != DatePrefix
    ensures Normalize(localize, EnvelopeField(s)) == None
  {
  }
}
