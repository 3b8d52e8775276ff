/** The records of the parser's unit tests, stated as lemmas about the parsers.
    The zone converter is left open, so each expected timestamp appears as the
    converter's value at the raw time the parser hands it. */
module TConnectFixtures {
  import opened Wrappers
  import opened Timestamps
  import opened TConnectEntry

  /** A converter that accepts every raw time it is given. */
  ghost predicate AcceptsAll(localize: Localizer) {
    forall t :: localize(t).Some?
  }

  lemma CiqBasalFixtures(localize: Localizer)
    requires AcceptsAll(localize)
    ensures ParseCiqBasalEntry(localize, CiqBasalRecord(0.8, 1221, 1615878000))
      == Ok(BasalEntry(localize(EpochSeconds(1615878000.0)).value, "", 20.35, 0.8))
    ensures ParseCiqBasalEntry(localize, CiqBasalRecord(0.797, 300, 1615879521), "algorithmDelivery")
      == Ok(BasalEntry(localize(EpochSeconds(1615879521.0)).value, "algorithmDelivery", 5.0, 0.797))
  {
    assert localize(EpochSeconds(1615878000.0)).Some?;
    assert localize(EpochSeconds(1615879521.0)).Some?;
  }

  lemma SuspensionFixtures(localize: Localizer)
    requires AcceptsAll(localize)
    ensures ParseSuspensionEntry(localize, CiqSuspensionRecord("control-iq", None, 1615879821))
      == Ok(SuspensionEntry(localize(EpochSeconds(1615879821.0)).value, None, "control-iq"))
    ensures ParseSuspensionEntry(localize, CiqSuspensionRecord("control-iq", Some("previous"), 1634022000))
      == Ok(SuspensionEntry(localize(EpochSeconds(1634022000.0)).value, Some("previous"), "control-iq"))
  {
    assert localize(EpochSeconds(1615879821.0)).Some?;
    assert localize(EpochSeconds(1634022000.0)).Some?;
  }

  lemma ManualSuspensionFixture()
    ensures ManualSuspensionToBasalEntry(SuspensionEntry("2021-03-16 00:30:21-04:00", None, "manual"), 300)
      == BasalEntry("2021-03-16 00:30:21-04:00", "manual suspension", 5.0, 0.0)
  {
  }

  lemma CgmFixture(localize: Localizer)
    requires AcceptsAll(localize)
    ensures ParseCgmEntry(localize, ReadingRecord("t:slim X2 Insulin Pump", "11111111", "EGV", "2021-10-12T00:01:12", "131"))
      == Ok(CgmEntry(localize(NaiveLocal("2021-10-12T00:01:12")).value, "131", "EGV"))
  {
    assert localize(NaiveLocal("2021-10-12T00:01:12")).Some?;
  }

  lemma IobFixtures(localize: Localizer)
    requires AcceptsAll(localize)
    ensures ParseIobEntry(localize, IobRecord("IOB", "81", "2021-10-12T00:00:30", "6.91"))
      == Ok(IobEntry(localize(NaiveLocal("2021-10-12T00:00:30")).value, "6.91", "81"))
    ensures ParseIobEntry(localize, IobRecord("IOB", "9", "2021-10-12T00:10:30", "6.80"))
      == Ok(IobEntry(localize(NaiveLocal("2021-10-12T00:10:30")).value, "6.80", "9"))
  {
    assert localize(NaiveLocal("2021-10-12T00:00:30")).Some?;
    assert localize(NaiveLocal("2021-10-12T00:10:30")).Some?;
  }

  lemma ReadingFixtures(localize: Localizer)
    requires AcceptsAll(localize)
    ensures ParseReadingEntry(localize, ReadingRecord("t:slim X2 Insulin Pump", "90556643", "EGV", "2021-10-23T12:55:53", "135"))
      == Ok(ReadingEntry(localize(NaiveLocal("2021-10-23T12:55:53")).value, "135", "EGV"))
    ensures ParseReadingEntry(localize, ReadingRecord("t:slim X2 Insulin Pump", "90556643", "EGV", "2021-10-23T16:15:52", "93"))
      == Ok(ReadingEntry(localize(NaiveLocal("2021-10-23T16:15:52")).value, "93", "EGV"))
    ensures ParseReadingEntry(localize, ReadingRecord("t:slim X2 Insulin Pump", "90556643", "EGV", "2021-10-23T16:20:52", "100"))
      == Ok(ReadingEntry(localize(NaiveLocal("2021-10-23T16:20:52")).value, "100", "EGV"))
    ensures ParseReadingEntry(localize, ReadingRecord("t:slim X2 Insulin Pump", "90556643", "EGV", "2021-10-23T16:25:52", "107"))
      == Ok(ReadingEntry(localize(NaiveLocal("2021-10-23T16:25:52")).value, "107", "EGV"))
  {
    assert localize(NaiveLocal("2021-10-23T12:55:53")).Some?;
    assert localize(NaiveLocal("2021-10-23T16:15:52")).Some?;
    assert localize(NaiveLocal("2021-10-23T16:20:52")).Some?;
    assert localize(NaiveLocal("2021-10-23T16:25:52")).Some?;
  }

  const ExtendedComplete: BolusRecord := BolusRecord(
    description := "Extended 50.00%/0.00",
    bg := "131",
    requestDateTime := "2022-08-09T23:19:15",
    completionDateTime := "2022-08-09T23:20:04",
    insulinDelivered := "0.20",
    completionStatusDesc := "Completed",
    bolusIsComplete := "1",
    bolexCompletionId := "16757133",
    bolexStartDateTime := "2022-08-09T23:20:04",
    bolexCompletionDateTime := "2022-08-09T23:35:03",
    duration := "15",
    carbSize := "0",
    userOverride := "1",
    actualTotalBolusRequested := "0.40")

  const StandardIncompleteZero: BolusRecord := BolusRecord(
    description := "Standard",
    bg := "144",
    requestDateTime := "2021-10-08T15:46:56",
    completionDateTime := "2021-10-08T15:47:02",
    insulinDelivered := "0.00",
    completionStatusDesc := "User Aborted",
    bolusIsComplete := "0",
    bolexCompletionId := "",
    bolexStartDateTime := "",
    bolexCompletionDateTime := "",
    duration := "0",
    carbSize := "0",
    userOverride := "1",
    actualTotalBolusRequested := "0.50")

  const StandardAutomatic: BolusRecord := BolusRecord(
    description := "Automatic Bolus/Correction",
    bg := "",
    requestDateTime := "2021-04-02T00:59:13",
    completionDateTime := "2021-04-02T01:00:47",
    insulinDelivered := "1.70",
    completionStatusDesc := "Completed",
    bolusIsComplete := "1",
    bolexCompletionId := "",
    bolexStartDateTime := "",
    bolexCompletionDateTime := "",
    duration := "0",
    carbSize := "0",
    userOverride := "0",
    actualTotalBolusRequested := "1.70")

  lemma BolusFixtures(localize: Localizer)
    requires AcceptsAll(localize)
    ensures ParseBolusEntry(localize, ExtendedComplete) == Ok(Bolus(
      description := "Extended 50.00%/0.00", complete := "1", completion := "Completed",
      requestTime := None, completionTime := None,
      insulin := "0.20", requestedInsulin := "0.40", carbs := "0", bg := "131", userOverride := "1",
      extendedBolus := "1",
      bolexCompletionTime := localize(NaiveLocal("2022-08-09T23:35:03")),
      bolexStartTime := localize(NaiveLocal("2022-08-09T23:20:04"))))
    ensures ParseBolusEntry(localize, StandardIncompleteZero) == Ok(Bolus(
      description := "Standard", complete := "", completion := "User Aborted",
      requestTime := localize(NaiveLocal("2021-10-08T15:46:56")),
      completionTime := localize(NaiveLocal("2021-10-08T15:47:02")),
      insulin := "0.00", requestedInsulin := "0.50", carbs := "0", bg := "144", userOverride := "1",
      extendedBolus := "", bolexCompletionTime := None, bolexStartTime := None))
    ensures ParseBolusEntry(localize, StandardAutomatic) == Ok(Bolus(
      description := "Automatic Bolus/Correction", complete := "1", completion := "Completed",
      requestTime := localize(NaiveLocal("2021-04-02T00:59:13")),
      completionTime := localize(NaiveLocal("2021-04-02T01:00:47")),
      insulin := "1.70", requestedInsulin := "1.70", carbs := "0", bg := "", userOverride := "0",
      extendedBolus := "", bolexCompletionTime := None, bolexStartTime := None))
  {
    assert localize(NaiveLocal("2022-08-09T23:35:03")).Some?;
    assert localize(NaiveLocal("2022-08-09T23:20:04")).Some?;
    assert localize(NaiveLocal("2021-10-08T15:46:56")).Some?;
    assert localize(NaiveLocal("2021-10-08T15:47:02")).Some?;
    assert localize(NaiveLocal("2021-04-02T00:59:13")).Some?;
    assert localize(NaiveLocal("2021-04-02T01:00:47")).Some?;
  }

  lemma CiqActivityFixtures(localize: Localizer)
    requires AcceptsAll(localize)
    ensures ParseCiqActivityEvent(localize, CiqActivityRecord(None, 30661, 1, "America/Los_Angeles", 1638091836))
      == Ok(ActivityEvent(localize(EpochSeconds(1638091836.0)).value, 30661.0 / 60.0, "Sleep"))
    ensures ParseCiqActivityEvent(localize, CiqActivityRecord(None, 1200, 2, "America/Los_Angeles", 1619901912))
      == Ok(ActivityEvent(localize(EpochSeconds(1619901912.0)).value, 20.0, "Exercise"))
    ensures ParseCiqActivityEvent(localize, CiqActivityRecord(None, 1200, 5, "America/Los_Angeles", 1619901912))
      == Err(UnknownCiqActivityEvent(5))
  {
    assert localize(EpochSeconds(1638091836.0)).Some?;
    assert localize(EpochSeconds(1619901912.0)).Some?;
  }

  /** One digit more of a decimal rendering. */
  lemma RenderStep(n: nat, s: string)
    requires n >= 10 && NatToDigits(n / 10) == s
    ensures NatToDigits(n) == s + [DigitChar(n % 10)]
  {
  }

  /** The millisecond strings of the basal-suspension tests are decimal renderings. */
  lemma RenderSiteCartMillis()
    ensures NatToDigits(1638663490000) == "1638663490000"
  {
    RenderStep(16, "1");
    RenderStep(163, "16");
    RenderStep(1638, "163");
    RenderStep(16386, "1638");
    RenderStep(163866, "16386");
    RenderStep(1638663, "163866");
    RenderStep(16386634, "1638663");
    RenderStep(163866349, "16386634");
    RenderStep(1638663490, "163866349");
    RenderStep(16386634900, "1638663490");
    RenderStep(163866349000, "16386634900");
    RenderStep(1638663490000, "163866349000");
  }

  lemma RenderBasalProfileMillis()
    ensures NatToDigits(1638659343000) == "1638659343000"
  {
    RenderStep(16, "1");
    RenderStep(163, "16");
    RenderStep(1638, "163");
    RenderStep(16386, "1638");
    RenderStep(163865, "16386");
    RenderStep(1638659, "163865");
    RenderStep(16386593, "1638659");
    RenderStep(163865934, "16386593");
    RenderStep(1638659343, "163865934");
    RenderStep(16386593430, "1638659343");
    RenderStep(163865934300, "16386593430");
    RenderStep(1638659343000, "163865934300");
  }

  lemma RenderPreviousMillis()
    ensures NatToDigits(1638604800000) == "1638604800000"
  {
    RenderStep(16, "1");
    RenderStep(163, "16");
    RenderStep(1638, "163");
    RenderStep(16386, "1638");
    RenderStep(163860, "16386");
    RenderStep(1638604, "163860");
    RenderStep(16386048, "1638604");
    RenderStep(163860480, "16386048");
    RenderStep(1638604800, "163860480");
    RenderStep(16386048000, "1638604800");
    RenderStep(163860480000, "16386048000");
    RenderStep(1638604800000, "163860480000");
  }

  /** The `EventDateTime` strings of the basal-suspension tests are the envelopes of
      their milliseconds. */
  const SiteCartMillis: nat := 1638663490000
  const BasalProfileMillis: nat := 1638659343000
  const PreviousMillis: nat := 1638604800000

  lemma SiteCartEnvelope()
    ensures DateEnvelope(SiteCartMillis) == "/Date(1638663490000-0000)/"
  {
    RenderSiteCartMillis();
  }

  lemma BasalProfileEnvelope()
    ensures DateEnvelope(BasalProfileMillis) == "/Date(1638659343000-0000)/"
  {
    RenderBasalProfileMillis();
  }

  lemma PreviousEnvelope()
    ensures DateEnvelope(PreviousMillis) == "/Date(1638604800000-0000)/"
  {
    RenderPreviousMillis();
  }

  lemma SiteCartFixture(localize: Localizer)
    requires AcceptsAll(localize)
    ensures ParseBasalSuspensionEvent(localize, BasalSuspensionRecord(DateEnvelope(SiteCartMillis), "site-cart", None))
      == Ok(Some(BasalSuspensionEvent(localize(EpochSeconds(1638663490.0)).value, "Site/Cartridge Change")))
  {
    EnvelopeAgreesWithEpoch(localize, SiteCartMillis);
    assert localize(EpochSeconds(1638663490.0)).Some?;
  }

  lemma BasalProfileSkippedFixture(localize: Localizer)
    requires AcceptsAll(localize)
    ensures ParseBasalSuspensionEvent(localize, BasalSuspensionRecord(DateEnvelope(BasalProfileMillis), "basal-profile", None))
      == Ok(None)
  {
    EnvelopeAgreesWithEpoch(localize, BasalProfileMillis);
    assert localize(EpochSeconds(1638659343.0)).Some?;
  }

  lemma PreviousSkippedFixture(localize: Localizer)
    requires AcceptsAll(localize)
    ensures ParseBasalSuspensionEvent(localize, BasalSuspensionRecord(DateEnvelope(PreviousMillis), "previous", Some("continuation")))
      == Ok(None)
  {
    EnvelopeAgreesWithEpoch(localize, PreviousMillis);
    assert localize(EpochSeconds(1638604800.0)).Some?;
  }

  lemma UnknownReasonFixture(localize: Localizer)
    requires AcceptsAll(localize)
    ensures ParseBasalSuspensionEvent(localize, BasalSuspensionRecord(DateEnvelope(PreviousMillis), "unknown", None))
      == Err(UnknownBasalSuspensionEvent("unknown"))
  {
    EnvelopeAgreesWithEpoch(localize, PreviousMillis);
    assert localize(EpochSeconds(1638604800.0)).Some?;
  }
}
