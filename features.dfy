/** The synchronisation feature lists.  At start-up the default list is
    replaced by the comma-separated `FEATURES` environment value when that is
    set and non-empty, and the list of all features gains `BOLUS_BG` when the
    testing modes are enabled.  The environment value and the testing flag are
    parameters of the model. */
module Features {
  import opened Wrappers

  const Basal: string := "BASAL"
  const Bolus: string := "BOLUS"
  const Iob: string := "IOB"
  const BolusBg: string := "BOLUS_BG"
  const Cgm: string := "CGM"
  const PumpEvents: string := "PUMP_EVENTS"
  const PumpEventsBasalSuspension: string := "PUMP_EVENTS_BASAL_SUSPENSION"
  const Profiles: string := "PROFILES"
  const CgmAlerts: string := "CGM_ALERTS"
  const DeviceStatus: string := "DEVICE_STATUS"

  /** The default list before any override. */
  const BuiltinDefaultFeatures: seq<string> := [Basal, Bolus, PumpEvents, Profiles]

  /** The list of all features before the testing modes are considered. */
  const StableFeatures: seq<string> :=
    [Basal, Bolus, Iob, PumpEvents, PumpEventsBasalSuspension, Profiles, Cgm, CgmAlerts, DeviceStatus]

  /** `ALL_FEATURES`: the stable features, then `BOLUS_BG` when testing modes are on. */
  function AllFeatures(enableTestingModes: bool): (all: seq<string>)
    ensures |all| == |StableFeatures| + (if enableTestingModes then 1 else 0)
    ensures all[..|StableFeatures|] == StableFeatures
    ensures enableTestingModes ==> all[|all| - 1] == BolusBg
  {
    if enableTestingModes then StableFeatures + [BolusBg] else StableFeatures
  }

  // ------------------------------------------------ Python string primitives

  /** The characters Python's `str.strip()` removes: those `str.isspace()` accepts. */
  predicate IsSpace(c: char) {
    var n := c as int;
    || 0x09 <= n <= 0x0D || 0x1C <= n <= 0x20
    || n == 0x85 || n == 0xA0 || n == 0x1680
    || 0x2000 <= n <= 0x200A
    || n == 0x2028 || n == 0x2029 || n == 0x202F || n == 0x205F || n == 0x3000
  }

  predicate AllSpace(s: string) {
    forall i :: 0 <= i < |s| ==> IsSpace(s[i])
  }

  /** No whitespace at either end. */
  predicate IsStripped(s: string) {
    s == [] || (!IsSpace(s[0]) && !IsSpace(s[|s| - 1]))
  }

  /** The index of the first non-whitespace character at or after `i` (or `|s|`). */
  function SkipSpaceFrom(s: string, i: nat): (j: nat)
    requires i <= |s|
    ensures i <= j <= |s|
    ensures j < |s| ==> !IsSpace(s[j])
    decreases |s| - i
  {
    if i < |s| && IsSpace(s[i]) then SkipSpaceFrom(s, i + 1) else i
  }

  /** The end of `s[lo..hi]` once its trailing whitespace is dropped. */
  function SkipSpaceBefore(s: string, lo: nat, hi: nat): (j: nat)
    requires lo <= hi <= |s|
    ensures lo <= j <= hi
    ensures j > lo ==> !IsSpace(s[j - 1])
    decreases hi - lo
  {
    if hi > lo && IsSpace(s[hi - 1]) then SkipSpaceBefore(s, lo, hi - 1) else hi
  }

  /** Python's `str.strip()` with no argument: scan from the left past whitespace, then
      from the right back to the last non-whitespace character. */
  function Strip(s: string): (r: string)
    ensures IsStripped(r)
  {
    var i := SkipSpaceFrom(s, 0);
    var j := SkipSpaceBefore(s, i, |s|);
    s[i..j]
  }

  /** Everything skipped from the left is whitespace. */
  lemma {:induction false} SkippedFromAreSpace(s: string, i: nat)
    requires i <= |s|
    ensures forall m :: i <= m < SkipSpaceFrom(s, i) ==> IsSpace(s[m])
    decreases |s| - i
  {
    if i < |s| && IsSpace(s[i]) {
      SkippedFromAreSpace(s, i + 1);
    }
  }

  /** Everything skipped from the right is whitespace. */
  lemma {:induction false} SkippedBeforeAreSpace(s: string, lo: nat, hi: nat)
    requires lo <= hi <= |s|
    ensures forall m :: SkipSpaceBefore(s, lo, hi) <= m < hi ==> IsSpace(s[m])
    decreases hi - lo
  {
    if hi > lo && IsSpace(s[hi - 1]) {
      SkippedBeforeAreSpace(s, lo, hi - 1);
    }
  }

  /** `strip()` removes exactly a whitespace prefix and a whitespace suffix. */
  lemma StripSpan(s: string)
    ensures exists i, j :: 0 <= i <= j <= |s| && Strip(s) == s[i..j] && AllSpace(s[..i]) && AllSpace(s[j..])
  {
    var i := SkipSpaceFrom(s, 0);
    var j := SkipSpaceBefore(s, i, |s|);
    SkippedFromAreSpace(s, 0);
    SkippedBeforeAreSpace(s, i, |s|);
    assert AllSpace(s[..i]);
    assert AllSpace(s[j..]);
  }

  /** `strip()` leaves nothing exactly when the string is all whitespace. */
  lemma StripEmptyIffAllSpace(s: string)
    ensures Strip(s) == [] <==> AllSpace(s)
  {
    var i := SkipSpaceFrom(s, 0);
    var j := SkipSpaceBefore(s, i, |s|);
    SkippedFromAreSpace(s, 0);
    SkippedBeforeAreSpace(s, i, |s|);
    if Strip(s) == [] {
      assert j == i;
    }
  }

  /** A string already without surrounding whitespace is its own `strip()`; hence
      `strip()` is idempotent. */
  lemma StripOfStripped(s: string)
    requires IsStripped(s)
    ensures Strip(s) == s
    ensures Strip(Strip(s)) == Strip(s)
  {
    assert SkipSpaceFrom(s, 0) == 0;
    assert SkipSpaceBefore(s, 0, |s|) == |s|;
    assert s[0..|s|] == s;
  }

  /** Python's `str.split(",")`: the pieces between commas, in order, empty ones kept. */
  function Split(s: string): (pieces: seq<string>)
    ensures |pieces| >= 1
    ensures forall k :: 0 <= k < |pieces| ==> ',' !in pieces[k]
    decreases |s|
  {
    if s == [] then [[]]
    else if s[0] == ',' then [[]] + Split(s[1..])
    else
      var rest := Split(s[1..]);
      [[s[0]] + rest[0]] + rest[1..]
  }

  /** Python's `",".join(pieces)`. */
  function Join(pieces: seq<string>): (s: string)
    requires |pieces| >= 1
  {
    if |pieces| == 1 then pieces[0] else pieces[0] + [','] + Join(pieces[1..])
  }

  /** Joining the pieces with commas gives back the string that was split. */
  lemma {:induction false} JoinSplit(s: string)
    ensures Join(Split(s)) == s
    decreases |s|
  {
    if s != [] {
      JoinSplit(s[1..]);
      var rest := Split(s[1..]);
      if s[0] == ',' {
        assert Split(s)[1..] == rest;
      } else {
        if |rest| == 1 {
          assert Join(Split(s)) == [s[0]] + rest[0];
        } else {
          assert Split(s)[1..] == rest[1..];
          assert Join(rest) == rest[0] + [','] + Join(rest[1..]);
        }
      }
    }
  }

  /** Splitting at a comma splits the pieces: the pieces of the left part, then those
      of the right part. */
  lemma {:induction false} SplitAtComma(a: string, b: string)
    ensures Split(a + [','] + b) == Split(a) + Split(b)
    decreases |a|
  {
    if a == [] {
      assert a + [','] + b == [','] + b;
      assert ([',']  + b)[1..] == b;
    } else {
      var s := a + [','] + b;
      assert s[0] == a[0];
      assert s[1..] == a[1..] + [','] + b;
      SplitAtComma(a[1..], b);
    }
  }

  /** A string without a comma is a single piece. */
  lemma {:induction false} SplitWithoutComma(s: string)
    requires ',' !in s
    ensures Split(s) == [s]
    decreases |s|
  {
    if s != [] {
      assert ',' !in s[1..];
      SplitWithoutComma(s[1..]);
      assert [s[0]] + s[1..] == s;
    }
  }

  // --------------------------------------------------------------- override

  /** The comprehension `[f.strip() for f in pieces if f.strip()]`. */
  function StrippedNonEmpty(pieces: seq<string>): (names: seq<string>)
    ensures |names| <= |pieces|
    ensures forall k :: 0 <= k < |names| ==> names[k] != [] && IsStripped(names[k])
  {
    if pieces == [] then []
    else
      var name := Strip(pieces[0]);
      (if name != [] then [name] else []) + StrippedNonEmpty(pieces[1..])
  }

  lemma {:induction false} StrippedNonEmptyAppend(p: seq<string>, q: seq<string>)
    ensures StrippedNonEmpty(p + q) == StrippedNonEmpty(p) + StrippedNonEmpty(q)
    decreases |p|
  {
    if p != [] {
      var head := if Strip(p[0]) != [] then [Strip(p[0])] else [];
      assert (p + q)[0] == p[0];
      assert (p + q)[1..] == p[1..] + q;
      StrippedNonEmptyAppend(p[1..], q);
      calc {
        StrippedNonEmpty(p + q);
        head + StrippedNonEmpty(p[1..] + q);
        head + (StrippedNonEmpty(p[1..]) + StrippedNonEmpty(q));
        (head + StrippedNonEmpty(p[1..])) + StrippedNonEmpty(q);
        StrippedNonEmpty(p) + StrippedNonEmpty(q);
      }
    } else {
      assert p + q == q;
    }
  }

  /** The `FEATURES` override: the stripped, non-empty comma-separated names. */
  function ParseFeaturesOverride(env: string): (names: seq<string>)
    ensures forall k :: 0 <= k < |names| ==> names[k] != [] && IsStripped(names[k])
  {
    StrippedNonEmpty(Split(env))
  }

  /** The override keeps left-to-right order: the names before a comma come first. */
  lemma OverrideAtComma(a: string, b: string)
    ensures ParseFeaturesOverride(a + [','] + b) == ParseFeaturesOverride(a) + ParseFeaturesOverride(b)
  {
    SplitAtComma(a, b);
    StrippedNonEmptyAppend(Split(a), Split(b));
  }

  /** A comma-free value names one feature, or none when it is all whitespace. */
  lemma OverrideOfOneName(s: string)
    requires ',' !in s
    ensures ParseFeaturesOverride(s) == if AllSpace(s) then [] else [Strip(s)]
  {
    SplitWithoutComma(s);
    StripEmptyIffAllSpace(s);
    assert [s][1..] == [];
  }

  /** `name` is the non-blank stripped form of one of the pieces. */
  predicate NamedByPiece(pieces: seq<string>, name: string) {
    name != [] && exists k :: 0 <= k < |pieces| && name == Strip(pieces[k])
  }

  /** The names the comprehension keeps are exactly the non-blank stripped pieces. */
  lemma {:induction false} StrippedNonEmptyMembers(pieces: seq<string>, name: string)
    ensures name in StrippedNonEmpty(pieces) <==> NamedByPiece(pieces, name)
    decreases |pieces|
  {
    if pieces != [] {
      var rest := pieces[1..];
      StrippedNonEmptyMembers(rest, name);
      var head := if Strip(pieces[0]) != [] then [Strip(pieces[0])] else [];
      assert StrippedNonEmpty(pieces) == head + StrippedNonEmpty(rest);
      if name in StrippedNonEmpty(pieces) {
        if name in head {
          assert name == Strip(pieces[0]);
        } else {
          var k :| 0 <= k < |rest| && name == Strip(rest[k]);
          assert name == Strip(pieces[k + 1]);
        }
      }
      if NamedByPiece(pieces, name) {
        var k :| 0 <= k < |pieces| && name == Strip(pieces[k]);
        if k > 0 {
          assert name == Strip(rest[k - 1]);
          assert NamedByPiece(rest, name);
        }
      }
    }
  }

  /** The override's names are exactly the non-blank stripped comma-separated pieces of
      the value. */
  lemma {:induction false} OverrideNames(env: string, name: string)
    ensures name in ParseFeaturesOverride(env) <==> NamedByPiece(Split(env), name)
  {
    StrippedNonEmptyMembers(Split(env), name);
  }

  /** Names are not checked against `ALL_FEATURES`: a value naming no feature at all is
      taken as it is. */
  lemma OverrideNotValidated(enableTestingModes: bool, name: string)
    requires ',' !in name && name != [] && IsStripped(name)
    requires name !in AllFeatures(enableTestingModes)
    ensures ParseFeaturesOverride(name) == [name]
    ensures name in LoadFeatures(enableTestingModes, Some(name)).defaultFeatures
    ensures name !in LoadFeatures(enableTestingModes, Some(name)).allFeatures
  {
    OverrideOfOneName(name);
    StripOfStripped(name);
    StripEmptyIffAllSpace(name);
  }

  // ----------------------------------------------------------- start-up

  /** The two lists as they stand once the module has been loaded. */
  datatype FeatureConfig = FeatureConfig(defaultFeatures: seq<string>, allFeatures: seq<string>)

  /** `featuresEnv` is `os.getenv("FEATURES")`: `None` when unset.  Python's truthiness
      test lets only a non-empty value replace the defaults. */
  function LoadFeatures(enableTestingModes: bool, featuresEnv: Option<string>): (config: FeatureConfig)
    ensures config.allFeatures == AllFeatures(enableTestingModes)
    ensures featuresEnv == None || featuresEnv == Some([]) ==> config.defaultFeatures == BuiltinDefaultFeatures
    ensures forall k :: 0 <= k < |config.defaultFeatures| ==>
      config.defaultFeatures[k] != [] && IsStripped(config.defaultFeatures[k])
  {
    var defaults :=
      if featuresEnv.Some? && featuresEnv.value != [] then ParseFeaturesOverride(featuresEnv.value)
      else BuiltinDefaultFeatures;
    FeatureConfig(defaults, AllFeatures(enableTestingModes))
  }

  /** Without an override the defaults are BASAL, BOLUS, PUMP_EVENTS and PROFILES, and
      each of them is one of all the features, whatever the testing flag. */
  lemma DefaultsWithoutOverride(enableTestingModes: bool, featuresEnv: Option<string>)
    requires featuresEnv == None || featuresEnv == Some([])
    ensures LoadFeatures(enableTestingModes, featuresEnv).defaultFeatures == [Basal, Bolus, PumpEvents, Profiles]
    ensures forall f :: f in LoadFeatures(enableTestingModes, featuresEnv).defaultFeatures ==>
      f in LoadFeatures(enableTestingModes, featuresEnv).allFeatures
  {
  }

  /** A set, non-empty value replaces the defaults with its parsed names. */
  lemma OverrideReplacesDefaults(enableTestingModes: bool, env: string)
    requires env != []
    ensures LoadFeatures(enableTestingModes, Some(env)).defaultFeatures == ParseFeaturesOverride(env)
    ensures forall k :: 0 <= k < |LoadFeatures(enableTestingModes, Some(env)).defaultFeatures| ==>
      var f := LoadFeatures(enableTestingModes, Some(env)).defaultFeatures[k];
      f != [] && IsStripped(f)
  {
  }

  /** A value of only whitespace is set, so it replaces the defaults, with no feature. */
  lemma BlankOverrideClearsDefaults(enableTestingModes: bool, env: string)
    requires env != [] && AllSpace(env)
    ensures LoadFeatures(enableTestingModes, Some(env)).defaultFeatures == []
  {
    forall i | 0 <= i < |env| ensures env[i] != ',' {
      assert IsSpace(env[i]);
    }
    OverrideOfOneName(env);
  }

  /** `BOLUS_BG` is a feature exactly when the testing modes are on, and then it is the
      last one, after the stable features in their order. */
  lemma BolusBgOnlyInTestingModes(enableTestingModes: bool, featuresEnv: Option<string>)
    ensures BolusBg in LoadFeatures(enableTestingModes, featuresEnv).allFeatures <==> enableTestingModes
    ensures var all := LoadFeatures(enableTestingModes, featuresEnv).allFeatures;
      && all[..|StableFeatures|] == StableFeatures
      && (enableTestingModes ==> |all| == |StableFeatures| + 1 && all[|all| - 1] == BolusBg)
  {
    var all := AllFeatures(enableTestingModes);
    assert all[..|StableFeatures|] == StableFeatures;
    if !enableTestingModes {
      assert forall k :: 0 <= k < |StableFeatures| ==> StableFeatures[k] != BolusBg;
    }
  }
}
