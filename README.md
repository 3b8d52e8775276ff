# tconnectsync: record normalisation and feature selection

This project models two pieces of tconnectsync, the tool that copies Tandem
t:slim X2 pump data from the t:connect cloud into Nightscout.

- **`TConnectEntry`** is the parser layer. It turns each raw record kind of the
  t:connect and Control-IQ endpoints into one canonical event:
  - basal samples and suspensions;
  - CGM readings and BG readings;
  - insulin-on-board rows;
  - boluses;
  - Control-IQ activity events;
  - basal-suspension rows of the pump event report.

  Each parser is a pure function from the record to `Ok(event)`. A record the
  parser raises on gives `Err(error)`. A basal-suspension row the parser skips
  gives `Ok(None)`. Every timestamp is handed, as a raw time, to one
  local-time converter, which is a parameter (`Localizer`). The record's time arrives in
  one of three encodings:
  - epoch seconds;
  - a naive local ISO-8601 string;
  - epoch milliseconds inside a `/Date(<ms>-0000)/` envelope.

  The envelope is read back to milliseconds and divided by 1000 before the
  converter sees it.
- **`features`** holds the list of synchronisation features. It has the ten
  feature names, the default list and the list of all features. `BOLUS_BG`
  joins the list of all features only in testing modes. The `FEATURES`
  environment value overrides the defaults with its comma-separated,
  whitespace-stripped, non-empty names.

Files:
- `wrappers.dfy` holds `Option` and `Result`.
- `timestamps.dfy` (module `Timestamps`) holds the time encodings, the envelope
  and normalisation.
- `tconnect.dfy` (module `TConnectEntry`) holds the parsers.
- `tconnect_fixtures.dfy` (module `TConnectFixtures`) holds the unit-test
  records, stated as lemmas about the parsers.
- `features.dfy` (module `Features`) holds the feature lists. It also models
  Python's `str.strip()` and `str.split(",")`.

## Model

| member | source | states |
|---|---|---|
| Timestamps.EnvelopeRoundTrip | tests/parser/test_tconnect.py:627-637 | reading back the `/Date(<ms>-0000)/` envelope of any millisecond count gives that count |
| Timestamps.EnvelopeSound | tests/parser/test_tconnect.py:627-700 | an accepted envelope is exactly the prefix `/Date(`, a non-empty run of decimal digits and the suffix `-0000)/`, and the value read is the value of those digits |
| Timestamps.EnvelopeNormalizesAsEpoch | tests/parser/test_tconnect.py:627-637 | every accepted envelope, leading zeros included, is converted as the milliseconds it holds divided by 1000, given as epoch seconds |
| Timestamps.EnvelopeAgreesWithEpoch | tests/parser/test_tconnect.py:627-637 | the envelope rendered from a millisecond count normalises as its milliseconds divided by 1000 given as epoch seconds, and as the whole-second epoch field when the count is a multiple of 1000 |
| Timestamps.UnwrappedMillisRejected | tests/parser/test_tconnect.py:627-637 | a basal-suspension time without the `/Date(` prefix is malformed, whatever the zone converter does |
| Timestamps.ParseDateEnvelope | tests/parser/test_tconnect.py:627-637 | only a string with the `/Date(` prefix, the `-0000)/` suffix and something between them is read as milliseconds; `EnvelopeRoundTrip` makes it a left inverse of the envelope, and `EnvelopeSound` pins down what it accepts, leading zeros included |
| Timestamps.Normalize | tests/parser/test_tconnect.py:8-35 | epoch-second and ISO times go to the converter unchanged, and an envelope reaches it only when it reads as milliseconds; `EnvelopeNormalizesAsEpoch` ties every accepted envelope to epoch seconds |
| Timestamps.DigitsRoundTrip | tests/parser/test_tconnect.py:627-637 | the decimal rendering of a millisecond count reads back as that count |
| TConnectEntry.TimeOf | tests/parser/test_tconnect.py:8-35 | a time field yields its local time exactly when it normalises, and otherwise the malformed-timestamp error naming that field |
| TConnectEntry.Minutes | tests/parser/test_tconnect.py:8-35 | minutes times 60 are the seconds (1221 s is 20.35 min), and whole minutes when the seconds divide by 60 |
| TConnectEntry.ParseCiqBasalEntry | tests/parser/test_tconnect.py:8-35 | fails exactly when `x` does not normalise; otherwise its time is `x` localised, the duration is seconds/60, the rate is `y` and the delivery type is the caller's label ("" by default) |
| TConnectEntry.ParseSuspensionEntry | tests/parser/test_tconnect.py:38-62 | fails exactly when `x` does not normalise; otherwise it keeps the time, the continuation (None or "previous") and the suspend reason |
| TConnectEntry.ManualSuspensionToBasalEntry | tests/parser/test_tconnect.py:65-82 | a manual suspension becomes a zero-rate basal segment labelled "manual suspension", at the suspension's own time, lasting seconds/60 minutes |
| TConnectEntry.SuspensionIsZeroRateBasal | tests/parser/test_tconnect.py:38-82 | parsing a suspension and converting it equals parsing a zero-rate basal sample at the same `x` with the "manual suspension" label, and the two fail together |
| TConnectEntry.ParseCgmEntry | tests/parser/test_tconnect.py:84-99 | fails exactly when `EventDateTime` does not normalise; otherwise `reading` is the Readings column and `reading_type` the Description |
| TConnectEntry.ParseReadingEntry | tests/parser/test_tconnect.py:510-577 | fails exactly when `EventDateTime` does not normalise; otherwise `bg` is the Readings column, kept as text even when it is not numeric, and `type` the Description |
| TConnectEntry.ReadingAgreesWithCgm | tests/parser/test_tconnect.py:84-99 | the reading and CGM parsers fail together, and the CGM entry is the reading entry with its keys renamed |
| TConnectEntry.ParseIobEntry | tests/parser/test_tconnect.py:101-132 | fails exactly when `EventDateTime` does not normalise; otherwise `iob` and `event_id` are copied verbatim from IOB and EventID |
| TConnectEntry.CompleteFlag | tests/parser/test_tconnect.py:364-443 | the `complete` flag is "1" exactly when BolusIsComplete is "1", and "" otherwise |
| TConnectEntry.IsExtended | tests/parser/test_tconnect.py:446-506 | an extended bolus has an extended-phase completion id, and a record with `Duration` "0" or no such id is never extended; `BolusTimingExclusive` shows the rule picks the time pair |
| TConnectEntry.ParseBolusEntry | tests/parser/test_tconnect.py:134-506 | a simple bolus carries its request and completion times and no extended times; an extended bolus carries the reverse, with `extended_bolus` "1"; it succeeds exactly when that pair normalises; the other fields are copied |
| TConnectEntry.BolusTimingExclusive | tests/parser/test_tconnect.py:489-506 | every parsed bolus carries exactly one fully populated time pair, and it is the extended pair exactly when the record is extended |
| TConnectEntry.CompleteIndependentOfStatus | tests/parser/test_tconnect.py:364-424 | `complete` follows BolusIsComplete alone and `completion` follows the status text alone; changing either changes only its own output field |
| TConnectEntry.ActivityLabel | tests/parser/test_tconnect.py:580-624 | only event types 1 and 2 have a label, and they are "Sleep" and "Exercise" |
| TConnectEntry.ParseCiqActivityEvent | tests/parser/test_tconnect.py:580-624 | a bad time is the malformed-timestamp error; with a good time it succeeds exactly for event types 1 and 2 and otherwise raises the unknown-activity error carrying the type; the duration is seconds/60 |
| TConnectEntry.ActivityIgnoresTimeZoneId | tests/parser/test_tconnect.py:580-611 | the record's `timeZoneId` never changes the outcome |
| TConnectEntry.SuspendReasonLabel | tests/parser/test_tconnect.py:626-673 | exactly site-cart, alarm, manual and temp-profile have a label, and each label is one of the four fixed event types |
| TConnectEntry.IsSkippedReason | tests/parser/test_tconnect.py:675-690 | exactly basal-profile and previous are skipped, and no skipped reason has a label |
| TConnectEntry.ParseBasalSuspensionEvent | tests/parser/test_tconnect.py:626-700 | a malformed or rejected envelope is the malformed-timestamp error; an event carries the localised envelope time and the fixed label of its reason |
| TConnectEntry.BasalSuspensionClassification | tests/parser/test_tconnect.py:626-700 | with a readable time: site-cart, alarm, manual and temp-profile map, each if and only if, to their four labels; basal-profile and previous give no event; every other reason raises the unknown-suspension error carrying it |
| TConnectFixtures.CiqBasalFixtures | tests/parser/test_tconnect.py:8-35 | both basal test records parse to their expected entries: 20.35 min at 0.8, and 5 min at 0.797 labelled algorithmDelivery |
| TConnectFixtures.SuspensionFixtures | tests/parser/test_tconnect.py:38-62 | both suspension test records parse with their reason and continuation |
| TConnectFixtures.ManualSuspensionFixture | tests/parser/test_tconnect.py:65-82 | the manual suspension test gives a 5-minute zero-rate "manual suspension" segment at its own time |
| TConnectFixtures.CgmFixture | tests/parser/test_tconnect.py:84-99 | the CGM test record gives reading "131" of type "EGV" at its local time |
| TConnectFixtures.IobFixtures | tests/parser/test_tconnect.py:101-132 | both IOB test records give their `iob` and `event_id` at their local times |
| TConnectFixtures.ReadingFixtures | tests/parser/test_tconnect.py:508-577 | the four reading test records give `bg` 135, 93, 100 and 107 of type "EGV" at their local times |
| TConnectFixtures.BolusFixtures | tests/parser/test_tconnect.py:302-506 | the extended-complete, incomplete-zero and automatic test boluses parse to their expected fields and time pairs |
| TConnectFixtures.CiqActivityFixtures | tests/parser/test_tconnect.py:580-624 | the sleep record gives 30661/60 min "Sleep", the exercise record 20 min "Exercise", and event type 5 the unknown-activity error |
| TConnectFixtures.RenderSiteCartMillis | tests/parser/test_tconnect.py:627-637 | 1638663490000 renders as the digits the test's envelope holds |
| TConnectFixtures.RenderBasalProfileMillis | tests/parser/test_tconnect.py:675-681 | 1638659343000 renders as the digits the test's envelope holds |
| TConnectFixtures.RenderPreviousMillis | tests/parser/test_tconnect.py:683-700 | 1638604800000 renders as the digits the test's envelope holds |
| TConnectFixtures.SiteCartEnvelope | tests/parser/test_tconnect.py:627-637 | the site-cart test's EventDateTime is the envelope of 1638663490000 ms |
| TConnectFixtures.BasalProfileEnvelope | tests/parser/test_tconnect.py:675-681 | the basal-profile test's EventDateTime is the envelope of 1638659343000 ms |
| TConnectFixtures.PreviousEnvelope | tests/parser/test_tconnect.py:683-700 | the previous and unknown-reason tests' EventDateTime is the envelope of 1638604800000 ms |
| TConnectFixtures.SiteCartFixture | tests/parser/test_tconnect.py:627-637 | the site-cart row gives a "Site/Cartridge Change" event at 1638663490 epoch seconds |
| TConnectFixtures.BasalProfileSkippedFixture | tests/parser/test_tconnect.py:675-681 | the basal-profile row is skipped, with no event and no error |
| TConnectFixtures.PreviousSkippedFixture | tests/parser/test_tconnect.py:683-690 | the previous row with a continuation is skipped |
| TConnectFixtures.UnknownReasonFixture | tests/parser/test_tconnect.py:692-700 | the reason "unknown" raises the unknown-suspension error carrying it |
| Features.AllFeatures | tconnectsync/features.py:24-40 | the list of all features is the nine stable features in source order, followed by BOLUS_BG only in testing modes |
| Features.LoadFeatures | tconnectsync/features.py:17-45 | the list of all features does not depend on FEATURES; the defaults are the four built-in ones when FEATURES is unset or empty; every default name is non-empty and stripped |
| Features.SkipSpaceFrom | tconnectsync/features.py:45 | the left scan of `strip()` stops at the first non-whitespace character, or at the end |
| Features.SkipSpaceBefore | tconnectsync/features.py:45 | the right scan of `strip()` stops after the last non-whitespace character, never before the left scan's stop |
| Features.Strip | tconnectsync/features.py:45 | the result of `strip()` has whitespace at neither end |
| Features.SkippedFromAreSpace | tconnectsync/features.py:45 | every character the left scan passes over is whitespace |
| Features.SkippedBeforeAreSpace | tconnectsync/features.py:45 | every character the right scan passes over is whitespace |
| Features.StripSpan | tconnectsync/features.py:45 | `strip()` is a slice of its input with only whitespace cut on each side |
| Features.StripEmptyIffAllSpace | tconnectsync/features.py:45 | `f.strip()` is falsy exactly when `f` is all whitespace, the empty string included |
| Features.StripOfStripped | tconnectsync/features.py:45 | a string with no surrounding whitespace is its own `strip()`, so `strip()` is idempotent |
| Features.Split | tconnectsync/features.py:45 | `split(",")` yields at least one piece and no piece holds a comma |
| Features.JoinSplit | tconnectsync/features.py:45 | joining the pieces of `split(",")` with commas gives back the value |
| Features.SplitAtComma | tconnectsync/features.py:45 | splitting `a,b` gives the pieces of `a` followed by the pieces of `b` |
| Features.SplitWithoutComma | tconnectsync/features.py:45 | a value without a comma is one piece |
| Features.StrippedNonEmpty | tconnectsync/features.py:45 | the comprehension keeps at most one name per piece, and every name is non-empty and stripped |
| Features.StrippedNonEmptyAppend | tconnectsync/features.py:45 | the comprehension distributes over concatenation of the pieces, keeping their order |
| Features.ParseFeaturesOverride | tconnectsync/features.py:42-45 | every override name is non-empty with no surrounding whitespace |
| Features.OverrideAtComma | tconnectsync/features.py:42-45 | the names before a comma come first, in the value's left-to-right order |
| Features.OverrideOfOneName | tconnectsync/features.py:42-45 | a comma-free value names exactly its stripped self, or nothing when it is blank |
| Features.StrippedNonEmptyMembers | tconnectsync/features.py:45 | a name is kept exactly when it is the non-empty stripped form of some piece |
| Features.OverrideNames | tconnectsync/features.py:42-45 | a name is in the override exactly when it is the non-empty stripped form of some comma-separated piece of the value |
| Features.OverrideNotValidated | tconnectsync/features.py:24-45 | override names are not checked against the list of all features: an unknown name becomes a default while staying outside that list |
| Features.DefaultsWithoutOverride | tconnectsync/features.py:17-45 | with FEATURES unset or empty the defaults are BASAL, BOLUS, PUMP_EVENTS and PROFILES, each of them in the list of all features |
| Features.OverrideReplacesDefaults | tconnectsync/features.py:42-45 | a set, non-empty FEATURES replaces the defaults with its parsed names, all non-empty and stripped |
| Features.BlankOverrideClearsDefaults | tconnectsync/features.py:42-45 | any non-empty FEATURES value of only whitespace is truthy, so it replaces the defaults with no feature at all |
| Features.BolusBgOnlyInTestingModes | tconnectsync/features.py:24-40 | BOLUS_BG is a feature exactly when testing modes are on, and then it comes last, after the nine stable features in their order |

## Left out

- The converter is not assumed to preserve the instant. The tests' expected values show the pump's wall-clock time in its own zone, printed with the configured zone's offset: `x` = 1615878000, which is 07:00Z, gives `2021-03-16 00:00:00-04:00`. So `Localizer` is left unconstrained.
- The zone converter is a parameter (`Localizer`). Its zone database, DST rules, offset arithmetic and output format are not modelled. So the literal expected strings of the tests (such as `2021-10-12 00:01:12-04:00`) appear as the converter's value at the raw time, not as text. Properties about conversion alone are not stated: monotonicity, stable offsets and DST handling.
- Python floats are modelled as exact reals. `duration_mins` is an exact quotient, not a rounded double.
- The implementation file of the parser, `tconnectsync/parser/tconnect.py`, is not part of this model. Its behaviour is taken from the unit tests. Three choices follow from that:
  - the extension rule (`BolexCompletionID` non-empty and `Duration` not "0");
  - which time of a bolus pair is normalised first;
  - the digit grammar of the `/Date(...)/` envelope: a non-empty run of decimal digits. Leading zeros are accepted, so `/Date(01000-0000)/` reads as 1000, like `/Date(1000-0000)/`.
- The `Bolus` class, the exception classes and their messages are not modelled. Exceptions become the `ParseError` variants.
- Bolus-row columns the parser does not read are not modelled (IOB, BolusRequestID, FoodDelivered and the rest).
- Records with a missing key are not modelled: every record datatype has every column as a string. The raise on a missing mandatory column, such as Description, is therefore not modelled. Neither is the "" fallback for a missing optional bolus column (BG, CarbSize, UserOverride).
- `TConnectFixtures.BolusFixtures` covers three of the six bolus tests. The three standard-correction, standard and incomplete-partial tests have the same shape as the incomplete-zero and automatic ones.
- `TConnectFixtures` states the alarm, manual and temp-profile basal-suspension tests through `TConnectEntry.BasalSuspensionClassification` rather than one lemma per millisecond value.
- Reading the `FEATURES` environment variable and importing `ENABLE_TESTING_MODES` from `.secret` are parameters of `Features.LoadFeatures`. Module loading, rebinding globals and the `+=` mutation of `ALL_FEATURES` are modelled as the values the lists hold once loading has finished.
- Python's `str` is a sequence of code points and is modelled as `seq<char>`. `isspace` is modelled by its fixed list of whitespace code points.
- A value such as `" , "`, whose comma-separated pieces are all blank, also clears the defaults. No lemma states it separately; it follows from `Features.OverrideNames`.
- Networking, the CLI, persistence and the Nightscout upload are outside this core.
