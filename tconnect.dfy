/** The record normalisation layer of the t:connect parser (`TConnectEntry`):
    each raw telemetry record kind has its own input datatype, and each entry
    point is a pure function from that record to a canonical event.  A raised
    exception is an `Err`, a skipped record is `Ok(None)`. */
module TConnectEntry {
  import opened Wrappers
  import opened Timestamps

  datatype ParseError =
    | MalformedTimestamp(field: TimeField)
    | UnknownCiqActivityEvent(eventType: int)
    | UnknownBasalSuspensionEvent(suspendReason: string)

  /** The local time of a record's time field, or the error the parser raises. */
  function TimeOf(localize: Localizer, field: TimeField): (r: Result<Timestamp, ParseError>)
    ensures r.Ok? <==> Normalize(localize, field).Some?
    ensures r.Ok? ==> r.value == Normalize(localize, field).value
    ensures r.Err? ==> r.error == MalformedTimestamp(field)
  {
    match Normalize(localize, field)
    case Some(t) => Ok(t)
    case None => Err(MalformedTimestamp(field))
  }

  /** Minutes, as an exact (unrounded) quotient of seconds. */
  function Minutes(seconds: int): (m: real)
    ensures m * 60.0 == seconds as real
    ensures seconds % 60 == 0 ==> m == (seconds / 60) as real
  {
    seconds as real / 60.0
  }

  // ---------------------------------------------------------------- basal

  /** A Control-IQ basal rate sample: `y` units/hour, for `duration` seconds, from epoch `x`. */
  datatype CiqBasalRecord = CiqBasalRecord(y: real, duration: int, x: int)

  datatype BasalEntry = BasalEntry(time: Timestamp, deliveryType: string, durationMins: real, basalRate: real)

  const ManualSuspension: string := "manual suspension"

  /** `parse_ciq_basal_entry`: the delivery type is the caller's label, "" unless given. */
  function ParseCiqBasalEntry(localize: Localizer, data: CiqBasalRecord, deliveryType: string := ""): (r: Result<BasalEntry, ParseError>)
    ensures r.Err? <==> Normalize(localize, EpochField(data.x)) == None
    ensures r.Err? ==> r.error == MalformedTimestamp(EpochField(data.x))
    ensures r.Ok? ==>
      && Some(r.value.time) == Normalize(localize, EpochField(data.x))
      && r.value.durationMins * 60.0 == data.duration as real
      && r.value.basalRate == data.y
      && r.value.deliveryType == deliveryType
  {
    match TimeOf(localize, EpochField(data.x))
    case Err(e) => Err(e)
    case Ok(time) => Ok(BasalEntry(time, deliveryType, Minutes(data.duration), data.y))
  }

  /** A Control-IQ suspension sample; `continuation` is `None` or a marker such as "previous". */
  datatype CiqSuspensionRecord = CiqSuspensionRecord(suspendReason: string, continuation: Option<string>, x: int)

  datatype SuspensionEntry = SuspensionEntry(time: Timestamp, continuation: Option<string>, suspendReason: string)

  /** `parse_suspension_entry`: reason and continuation are copied verbatim. */
  function ParseSuspensionEntry(localize: Localizer, data: CiqSuspensionRecord): (r: Result<SuspensionEntry, ParseError>)
    ensures r.Err? <==> Normalize(localize, EpochField(data.x)) == None
    ensures r.Err? ==> r.error == MalformedTimestamp(EpochField(data.x))
    ensures r.Ok? ==>
      && Some(r.value.time) == Normalize(localize, EpochField(data.x))
      && r.value.continuation == data.continuation
      && r.value.suspendReason == data.suspendReason
  {
    match TimeOf(localize, EpochField(data.x))
    case Err(e) => Err(e)
    case Ok(time) => Ok(SuspensionEntry(time, data.continuation, data.suspendReason))
  }

  /** `manual_suspension_to_basal_entry`: a suspended interval is a zero-rate basal segment
      starting at the suspension's own (already normalised) time. */
  function ManualSuspensionToBasalEntry(suspension: SuspensionEntry, seconds: int): (r: BasalEntry)
    ensures r.time == suspension.time
    ensures r.basalRate == 0.0
    ensures r.deliveryType == ManualSuspension
    ensures r.durationMins * 60.0 == seconds as real
  {
    BasalEntry(suspension.time, ManualSuspension, Minutes(seconds), 0.0)
  }

  /** Parsing a suspension and turning it into a basal segment gives exactly the basal
      segment of a zero-rate sample at the same instant, labelled "manual suspension". */
  lemma SuspensionIsZeroRateBasal(localize: Localizer, data: CiqSuspensionRecord, seconds: int)
    ensures ParseSuspensionEntry(localize, data).Ok? == ParseCiqBasalEntry(localize, CiqBasalRecord(0.0, seconds, data.x)).Ok?
    ensures ParseSuspensionEntry(localize, data).Ok? ==>
      ManualSuspensionToBasalEntry(ParseSuspensionEntry(localize, data).value, seconds)
      == ParseCiqBasalEntry(localize, CiqBasalRecord(0.0, seconds, data.x), ManualSuspension).value
  {
  }

  // ------------------------------------------------------- CGM, readings, IOB

  /** A row of the therapy timeline's CGM/BGM reading table. */
  datatype ReadingRecord = ReadingRecord(
    deviceType: string,
    serialNumber: string,
    description: string,     // "Description", e.g. "EGV"
    eventDateTime: string,   // naive local ISO-8601
    readings: string)        // "Readings (CGM / BGM)", may be non-numeric

  datatype CgmEntry = CgmEntry(time: Timestamp, reading: string, readingType: string)

  /** The output of `parse_reading_entry`; `bgType` is the key `type`. */
  datatype ReadingEntry = ReadingEntry(time: Timestamp, bg: string, bgType: string)

  /** `parse_cgm_entry`: keys `reading` and `reading_type`. */
  function ParseCgmEntry(localize: Localizer, data: ReadingRecord): (r: Result<CgmEntry, ParseError>)
    ensures r.Err? <==> Normalize(localize, IsoField(data.eventDateTime)) == None
    ensures r.Err? ==> r.error == MalformedTimestamp(IsoField(data.eventDateTime))
    ensures r.Ok? ==>
      && Some(r.value.time) == Normalize(localize, IsoField(data.eventDateTime))
      && r.value.reading == data.readings
      && r.value.readingType == data.description
  {
    match TimeOf(localize, IsoField(data.eventDateTime))
    case Err(e) => Err(e)
    case Ok(time) => Ok(CgmEntry(time, data.readings, data.description))
  }

  /** `parse_reading_entry`: the same record, keys `bg` and `type`. */
  function ParseReadingEntry(localize: Localizer, data: ReadingRecord): (r: Result<ReadingEntry, ParseError>)
    ensures r.Err? <==> Normalize(localize, IsoField(data.eventDateTime)) == None
    ensures r.Err? ==> r.error == MalformedTimestamp(IsoField(data.eventDateTime))
    ensures r.Ok? ==>
      && Some(r.value.time) == Normalize(localize, IsoField(data.eventDateTime))
      && r.value.bg == data.readings
      && r.value.bgType == data.description
  {
    match TimeOf(localize, IsoField(data.eventDateTime))
    case Err(e) => Err(e)
    case Ok(time) => Ok(ReadingEntry(time, data.readings, data.description))
  }

  /** The two reading parsers differ only in their output keys: they fail together,
      and the CGM entry's fields are the reading entry's fields renamed. */
  lemma ReadingAgreesWithCgm(localize: Localizer, data: ReadingRecord)
    ensures ParseReadingEntry(localize, data).Ok? == ParseCgmEntry(localize, data).Ok?
    ensures ParseReadingEntry(localize, data).Ok? ==>
      var g := ParseReadingEntry(localize, data).value;
      ParseCgmEntry(localize, data).value == CgmEntry(g.time, g.bg, g.bgType)
  {
  }

  /** A row of the therapy timeline's insulin-on-board table. */
  datatype IobRecord = IobRecord(recordType: string, eventId: string, eventDateTime: string, iob: string)

  datatype IobEntry = IobEntry(time: Timestamp, iob: string, eventId: string)

  /** `parse_iob_entry`: `iob` and `event_id` are copied verbatim. */
  function ParseIobEntry(localize: Localizer, data: IobRecord): (r: Result<IobEntry, ParseError>)
    ensures r.Err? <==> Normalize(localize, IsoField(data.eventDateTime)) == None
    ensures r.Err? ==> r.error == MalformedTimestamp(IsoField(data.eventDateTime))
    ensures r.Ok? ==>
      && Some(r.value.time) == Normalize(localize, IsoField(data.eventDateTime))
      && r.value.iob == data.iob
      && r.value.eventId == data.eventId
  {
    match TimeOf(localize, IsoField(data.eventDateTime))
    case Err(e) => Err(e)
    case Ok(time) => Ok(IobEntry(time, data.iob, data.eventId))
  }

  // ---------------------------------------------------------------- bolus

  /** The fields of a bolus row that the parser reads (the row has about forty). */
  datatype BolusRecord = BolusRecord(
    description: string,               // "Description"
    bg: string,                        // "BG", "" when not measured
    requestDateTime: string,           // "RequestDateTime", naive local ISO-8601
    completionDateTime: string,        // "CompletionDateTime"
    insulinDelivered: string,          // "InsulinDelivered"
    completionStatusDesc: string,      // "CompletionStatusDesc", e.g. "User Aborted"
    bolusIsComplete: string,           // "BolusIsComplete", "1" or "0"
    bolexCompletionId: string,         // "BolexCompletionID", "" for a simple bolus
    bolexStartDateTime: string,        // "BolexStartDateTime"
    bolexCompletionDateTime: string,   // "BolexCompletionDateTime"
    duration: string,                  // "Duration", extension length in minutes
    carbSize: string,                  // "CarbSize"
    userOverride: string,              // "UserOverride"
    actualTotalBolusRequested: string) // "ActualTotalBolusRequested"

  /** The canonical bolus; absent times are `None`. */
  datatype Bolus = Bolus(
    description: string,
    complete: string,
    completion: string,
    requestTime: Option<Timestamp>,
    completionTime: Option<Timestamp>,
    insulin: string,
    requestedInsulin: string,
    carbs: string,
    bg: string,
    userOverride: string,
    extendedBolus: string,
    bolexCompletionTime: Option<Timestamp>,
    bolexStartTime: Option<Timestamp>)

  /** The extension rule: an extended-phase completion id and a non-zero duration. */
  function IsExtended(data: BolusRecord): (extended: bool)
    ensures extended ==> data.bolexCompletionId != ""
    ensures data.bolexCompletionId == "" || data.duration == "0" ==> !extended
  {
    data.bolexCompletionId != "" && data.duration != "0"
  }

  /** The pump's completion flag as a boolean-as-string: "1" or "". */
  function CompleteFlag(bolusIsComplete: string): (flag: string)
    ensures flag == "1" || flag == ""
    ensures flag == "1" <==> bolusIsComplete == "1"
  {
    if bolusIsComplete == "1" then "1" else ""
  }

  /** `parse_bolus_entry`.  A simple bolus carries its request/completion times, an extended
      one its extended-phase start/completion times; the other pair is absent. */
  function ParseBolusEntry(localize: Localizer, data: BolusRecord): (r: Result<Bolus, ParseError>)
    ensures !IsExtended(data) ==>
      (r.Ok? <==> Normalize(localize, IsoField(data.requestDateTime)).Some?
                  && Normalize(localize, IsoField(data.completionDateTime)).Some?)
    ensures IsExtended(data) ==>
      (r.Ok? <==> Normalize(localize, IsoField(data.bolexStartDateTime)).Some?
                  && Normalize(localize, IsoField(data.bolexCompletionDateTime)).Some?)
    ensures r.Err? ==> r.error.MalformedTimestamp?
    ensures r.Ok? ==>
      var b := r.value;
      && b.description == data.description
      && b.complete == CompleteFlag(data.bolusIsComplete)
      && b.completion == data.completionStatusDesc
      && b.insulin == data.insulinDelivered
      && b.requestedInsulin == data.actualTotalBolusRequested
      && b.carbs == data.carbSize
      && b.bg == data.bg
      && b.userOverride == data.userOverride
      && (b.extendedBolus == "1" <==> IsExtended(data))
      && (b.extendedBolus == "" <==> !IsExtended(data))
      && (IsExtended(data) ==>
            && b.requestTime == None && b.completionTime == None
            && b.bolexStartTime == Normalize(localize, IsoField(data.bolexStartDateTime))
            && b.bolexCompletionTime == Normalize(localize, IsoField(data.bolexCompletionDateTime)))
      && (!IsExtended(data) ==>
            && b.requestTime == Normalize(localize, IsoField(data.requestDateTime))
            && b.completionTime == Normalize(localize, IsoField(data.completionDateTime))
            && b.bolexStartTime == None && b.bolexCompletionTime == None)
  {
    var complete := CompleteFlag(data.bolusIsComplete);
    if IsExtended(data) then
      match TimeOf(localize, IsoField(data.bolexStartDateTime))
      case Err(e) => Err(e)
      case Ok(start) =>
        match TimeOf(localize, IsoField(data.bolexCompletionDateTime))
        case Err(e) => Err(e)
        case Ok(end) =>
          Ok(Bolus(data.description, complete, data.completionStatusDesc, None, None,
                   data.insulinDelivered, data.actualTotalBolusRequested, data.carbSize, data.bg,
                   data.userOverride, "1", Some(end), Some(start)))
    else
      match TimeOf(localize, IsoField(data.requestDateTime))
      case Err(e) => Err(e)
      case Ok(request) =>
        match TimeOf(localize, IsoField(data.completionDateTime))
        case Err(e) => Err(e)
        case Ok(completion) =>
          Ok(Bolus(data.description, complete, data.completionStatusDesc, Some(request), Some(completion),
                   data.insulinDelivered, data.actualTotalBolusRequested, data.carbSize, data.bg,
                   data.userOverride, "", None, None))
  }

  /** Which of the two time pairs a bolus carries, as a tagged variant. */
  datatype BolusTiming =
    | SimpleTiming(request: Timestamp, completion: Timestamp)
    | ExtendedTiming(start: Timestamp, completion: Timestamp)

  /** The timing a well-formed bolus carries: `None` unless exactly one pair is fully
      populated, the other fully absent, and `extended_bolus` names the populated pair. */
  function TimingOf(b: Bolus): (timing: Option<BolusTiming>) {
    if b.extendedBolus == "" && b.requestTime.Some? && b.completionTime.Some?
       && b.bolexStartTime == None && b.bolexCompletionTime == None
    then Some(SimpleTiming(b.requestTime.value, b.completionTime.value))
    else if b.extendedBolus == "1" && b.bolexStartTime.Some? && b.bolexCompletionTime.Some?
       && b.requestTime == None && b.completionTime == None
    then Some(ExtendedTiming(b.bolexStartTime.value, b.bolexCompletionTime.value))
    else None
  }

  /** Every parsed bolus is well-formed: exactly one time pair, never both, never neither,
      and it is the extended pair exactly when the extension rule holds. */
  lemma BolusTimingExclusive(localize: Localizer, data: BolusRecord)
    requires ParseBolusEntry(localize, data).Ok?
    ensures TimingOf(ParseBolusEntry(localize, data).value).Some?
    ensures TimingOf(ParseBolusEntry(localize, data).value).value.ExtendedTiming? <==> IsExtended(data)
    ensures var b := ParseBolusEntry(localize, data).value;
      (b.requestTime.Some? && b.completionTime.Some?) != (b.bolexStartTime.Some? && b.bolexCompletionTime.Some?)
  {
  }

  /** `complete` follows the flag field alone and `completion` the status text alone:
      a record whose flag and text disagree keeps both as they are. */
  lemma CompleteIndependentOfStatus(localize: Localizer, data: BolusRecord, flag: string, status: string)
    requires ParseBolusEntry(localize, data).Ok?
    ensures var r := ParseBolusEntry(localize, data.(bolusIsComplete := flag, completionStatusDesc := status));
      && r.Ok?
      && r.value.complete == CompleteFlag(flag)
      && r.value.completion == status
      && r.value == ParseBolusEntry(localize, data).value.(complete := CompleteFlag(flag), completion := status)
  {
  }

  // ---------------------------------------------------------- classifiers

  /** A Control-IQ activity record (sleep or exercise mode). */
  datatype CiqActivityRecord = CiqActivityRecord(
    continuation: Option<string>,
    duration: int,          // seconds
    eventType: int,         // 1 sleep, 2 exercise
    timeZoneId: string,     // reported by the cloud, not used for the offset
    x: int)                 // epoch seconds

  datatype ActivityEvent = ActivityEvent(time: Timestamp, durationMins: real, eventType: string)

  const Sleep: string := "Sleep"
  const Exercise: string := "Exercise"

  /** The closed activity vocabulary. */
  function ActivityLabel(eventType: int): (l: Option<string>)
    ensures l.Some? <==> eventType == 1 || eventType == 2
    ensures eventType == 1 ==> l == Some(Sleep)
    ensures eventType == 2 ==> l == Some(Exercise)
  {
    if eventType == 1 then Some(Sleep)
    else if eventType == 2 then Some(Exercise)
    else None
  }

  /** `parse_ciq_activity_event`: the time is normalised first; an unknown code raises
      `UnknownCIQActivityEventException`. */
  function ParseCiqActivityEvent(localize: Localizer, data: CiqActivityRecord): (r: Result<ActivityEvent, ParseError>)
    ensures Normalize(localize, EpochField(data.x)) == None ==> r == Err(MalformedTimestamp(EpochField(data.x)))
    ensures Normalize(localize, EpochField(data.x)).Some? ==>
      && (r.Ok? <==> data.eventType == 1 || data.eventType == 2)
      && (r.Err? ==> r.error == UnknownCiqActivityEvent(data.eventType))
    ensures r.Ok? ==>
      && Some(r.value.time) == Normalize(localize, EpochField(data.x))
      && r.value.durationMins * 60.0 == data.duration as real
      && (data.eventType == 1 ==> r.value.eventType == Sleep)
      && (data.eventType == 2 ==> r.value.eventType == Exercise)
  {
    match TimeOf(localize, EpochField(data.x))
    case Err(e) => Err(e)
    case Ok(time) =>
      match ActivityLabel(data.eventType)
      case None => Err(UnknownCiqActivityEvent(data.eventType))
      case Some(kind) => Ok(ActivityEvent(time, Minutes(data.duration), kind))
  }

  /** The offset comes from the configured zone: the record's own `timeZoneId` never
      changes the outcome. */
  lemma ActivityIgnoresTimeZoneId(localize: Localizer, data: CiqActivityRecord, zone: string)
    ensures ParseCiqActivityEvent(localize, data.(timeZoneId := zone)) == ParseCiqActivityEvent(localize, data)
  {
  }

  /** A basal-suspension row of the pump event report. */
  datatype BasalSuspensionRecord = BasalSuspensionRecord(
    eventDateTime: string,           // "/Date(<ms>-0000)/"
    suspendReason: string,
    continuation: Option<string>)

  datatype BasalSuspensionEvent = BasalSuspensionEvent(time: Timestamp, eventType: string)

  const SiteCartridgeChange: string := "Site/Cartridge Change"
  const EmptyCartridge: string := "Empty Cartridge/Pump Shutdown"
  const UserSuspended: string := "User Suspended"
  const BasalRateChange: string := "Basal Rate Change"

  /** The four suspension reasons that produce an event. */
  function SuspendReasonLabel(reason: string): (l: Option<string>)
    ensures l.Some? <==> reason in ["site-cart", "alarm", "manual", "temp-profile"]
    ensures l.Some? ==> l.value in [SiteCartridgeChange, EmptyCartridge, UserSuspended, BasalRateChange]
  {
    if reason == "site-cart" then Some(SiteCartridgeChange)
    else if reason == "alarm" then Some(EmptyCartridge)
    else if reason == "manual" then Some(UserSuspended)
    else if reason == "temp-profile" then Some(BasalRateChange)
    else None
  }

  /** The two reasons that mark duplicate or continuation rows: skipped, not an error. */
  function IsSkippedReason(reason: string): (skipped: bool)
    ensures skipped ==> SuspendReasonLabel(reason) == None
    ensures skipped <==> reason in ["basal-profile", "previous"]
  {
    reason == "basal-profile" || reason == "previous"
  }

  /** `parse_basalsuspension_event`: `Ok(Some(event))`, `Ok(None)` for a skipped reason,
      or `UnknownBasalSuspensionEventException`; the time is normalised first. */
  function ParseBasalSuspensionEvent(localize: Localizer, data: BasalSuspensionRecord): (r: Result<Option<BasalSuspensionEvent>, ParseError>)
    ensures Normalize(localize, EnvelopeField(data.eventDateTime)) == None ==>
      r == Err(MalformedTimestamp(EnvelopeField(data.eventDateTime)))
    ensures r.Ok? && r.value.Some? ==>
      && Some(r.value.value.time) == Normalize(localize, EnvelopeField(data.eventDateTime))
      && Some(r.value.value.eventType) == SuspendReasonLabel(data.suspendReason)
  {
    match TimeOf(localize, EnvelopeField(data.eventDateTime))
    case Err(e) => Err(e)
    case Ok(time) =>
      match SuspendReasonLabel(data.suspendReason)
      case Some(kind) => Ok(Some(BasalSuspensionEvent(time, kind)))
      case None =>
        if IsSkippedReason(data.suspendReason) then Ok(None)
        else Err(UnknownBasalSuspensionEvent(data.suspendReason))
  }

  /** With a readable timestamp the outcome depends on the reason alone: the four known
      reasons map to their fixed labels, the two skip reasons give no event, and every
      other reason raises the typed error carrying that reason. */
  lemma BasalSuspensionClassification(localize: Localizer, data: BasalSuspensionRecord)
    requires Normalize(localize, EnvelopeField(data.eventDateTime)).Some?
    ensures var r := ParseBasalSuspensionEvent(localize, data);
      var reason := data.suspendReason;
      && (reason == "site-cart" <==> r.Ok? && r.value.Some? && r.value.value.eventType == SiteCartridgeChange)
      && (reason == "alarm" <==> r.Ok? && r.value.Some? && r.value.value.eventType == EmptyCartridge)
      && (reason == "manual" <==> r.Ok? && r.value.Some? && r.value.value.eventType == UserSuspended)
      && (reason == "temp-profile" <==> r.Ok? && r.value.Some? && r.value.value.eventType == BasalRateChange)
      && (IsSkippedReason(reason) <==> r == Ok(None))
      && (r.Err? <==> SuspendReasonLabel(reason) == None && !IsSkippedReason(reason))
      && (r.Err? ==> r.error == UnknownBasalSuspensionEvent(reason))
  {
  }
}
