/** The preset table offered by the dashboard: six named configurations, kept
    in definition order, with a lookup that falls back to the original one. */
module Presets {
  import opened Numeric
  import Composer

  datatype Preset = Preset(name: string, description: string, config: Composer.Config)

  const OriginalUap: Preset := Preset(
    "Original UAP Dog Whistle",
    "Based on the original UAP Dog Whistle project with Schumann resonance",
    Composer.Config(100.0, 7.83, 528.0, 17000.0, 2500.0, 432.0, false, None, true, 0.5))

  const MusicEnhanced: Preset := Preset(
    "Music Enhanced Signal",
    "Combines music modulation with Schumann tremolo for intelligent signaling",
    Composer.Config(100.0, 7.83, 528.0, 17000.0, 2500.0, 432.0, true, None, true, 0.5))

  const HarmonicFocus: Preset := Preset(
    "Harmonic Focus",
    "Emphasizes Solfeggio frequencies (528 Hz, 432 Hz) with subtle modulation",
    Composer.Config(100.0, 7.83, 528.0, 17000.0, 2500.0, 432.0, true, None, true, 0.3))

  const EarthHeartbeat: Preset := Preset(
    "Earth Heartbeat",
    "Strong Schumann resonance with deep tremolo pulsing",
    Composer.Config(100.0, 7.83, 528.0, 17000.0, 2500.0, 432.0, false, None, true, 0.7))

  const PureCarriers: Preset := Preset(
    "Pure Carrier Waves",
    "Unmodulated carrier frequencies for maximum clarity",
    Composer.Config(100.0, 7.83, 528.0, 17000.0, 2500.0, 432.0, false, None, false, 0.0))

  const BiologicalMimic: Preset := Preset(
    "Biological Mimic",
    "Maximum organic 'alive' quality with music and tremolo",
    Composer.Config(100.0, 7.83, 528.0, 17000.0, 2500.0, 432.0, true, None, true, 0.6))

  /** `SIGNAL_PRESETS`: the dictionary as its entries in insertion order. */
  const SignalPresets: seq<(string, Preset)> := [
    ("original_uap", OriginalUap),
    ("music_enhanced", MusicEnhanced),
    ("harmonic_focus", HarmonicFocus),
    ("earth_heartbeat", EarthHeartbeat),
    ("pure_carriers", PureCarriers),
    ("biological_mimic", BiologicalMimic)]

  /** No key occurs twice. */
  predicate DistinctKeys(table: seq<(string, Preset)>) {
    forall i, j :: 0 <= i < j < |table| ==> table[i].0 != table[j].0
  }

  /** The keys of a table, in order. */
  function Keys(table: seq<(string, Preset)>): (ks: seq<string>)
    ensures |ks| == |table|
    ensures forall i :: 0 <= i < |table| ==> ks[i] == table[i].0
  {
    seq(|table|, i requires 0 <= i < |table| => table[i].0)
  }

  /** Dictionary lookup: the entry stored under `key`, if any. */
  function Lookup(table: seq<(string, Preset)>, key: string): (r: Option<Preset>)
    ensures r.None? <==> key !in Keys(table)
    ensures r.Some? ==> exists i :: 0 <= i < |table| && table[i] == (key, r.value)
    decreases |table|
  {
    if table == [] then None
    else if table[0].0 == key then Some(table[0].1)
    else
      var rest := Lookup(table[1..], key);
      assert Keys(table) == [table[0].0] + Keys(table[1..]);
      assert rest.Some? ==> exists i :: 0 <= i < |table[1..]| && table[1..][i] == (key, rest.value);
      rest
  }

  /** With distinct keys, the lookup of entry `i`'s key finds entry `i`'s value. */
  lemma {:induction false} LookupFindsEntry(table: seq<(string, Preset)>, i: nat)
    requires DistinctKeys(table) && i < |table|
    ensures Lookup(table, table[i].0) == Some(table[i].1)
    decreases |table|
  {
    if i > 0 {
      var rest := table[1..];
      assert rest[i - 1] == table[i];
      assert DistinctKeys(rest) by {
        forall a, b | 0 <= a < b < |rest| ensures rest[a].0 != rest[b].0 {
          assert rest[a] == table[a + 1] && rest[b] == table[b + 1];
        }
      }
      LookupFindsEntry(rest, i - 1);
    }
  }

  /** The table as a dictionary; a later entry overrides an earlier one with the same key. */
  function ToMap(table: seq<(string, Preset)>): (m: map<string, Preset>)
    ensures m.Keys == set k | k in Keys(table)
    ensures forall k :: k in m ==> Lookup(table, k).Some?
    decreases |table|
  {
    if table == [] then map[]
    else
      var init := table[..|table| - 1];
      var last := table[|table| - 1];
      assert Keys(table) == Keys(init) + [last.0];
      ToMap(init)[last.0 := last.1]
  }

  /** `get_preset`: the entry under the name, or `original_uap` for any other name. */
  function GetPreset(presetName: string): (p: Preset)
    ensures presetName in Keys(SignalPresets) ==> (presetName, p) in SignalPresets
    ensures presetName !in Keys(SignalPresets) ==> p == OriginalUap
  {
    match Lookup(SignalPresets, presetName)
    case Some(found) => found
    case None => OriginalUap
  }

  /** `get_all_presets`: the whole dictionary. */
  function GetAllPresets(): (m: map<string, Preset>)
    ensures m.Keys == set k | k in Keys(SignalPresets)
  {
    ToMap(SignalPresets)
  }

  /** `get_preset_names`: the keys in definition order. */
  function GetPresetNames(): (names: seq<string>)
    ensures |names| == |SignalPresets|
    ensures forall i :: 0 <= i < |names| ==> names[i] == SignalPresets[i].0
  {
    Keys(SignalPresets)
  }

  lemma PresetKeysDistinct()
    ensures DistinctKeys(SignalPresets)
  {
  }

  /** Every key finds its own entry, and the dictionary holds each entry under its key. */
  lemma GetPresetOfKey(i: nat)
    requires i < |SignalPresets|
    ensures GetPreset(SignalPresets[i].0) == SignalPresets[i].1
    ensures GetAllPresets()[SignalPresets[i].0] == SignalPresets[i].1
  {
    PresetKeysDistinct();
    LookupFindsEntry(SignalPresets, i);
    MapHoldsEntries(SignalPresets, i);
  }

  /** With distinct keys, the dictionary stores each entry's value under its key. */
  lemma {:induction false} MapHoldsEntries(table: seq<(string, Preset)>, i: nat)
    requires DistinctKeys(table) && i < |table|
    ensures table[i].0 in ToMap(table) && ToMap(table)[table[i].0] == table[i].1
    decreases |table|
  {
    var n := |table| - 1;
    var init := table[..n];
    ToMapStep(table);
    if i < n {
      assert init[i] == table[i];
      DistinctPrefix(table);
      MapHoldsEntries(init, i);
      assert table[i].0 != table[n].0;
    }
  }

  /** Dropping the last entry keeps the keys distinct. */
  lemma DistinctPrefix(table: seq<(string, Preset)>)
    requires DistinctKeys(table) && table != []
    ensures DistinctKeys(table[..|table| - 1])
  {
    var init := table[..|table| - 1];
    forall a, b | 0 <= a < b < |init| ensures init[a].0 != init[b].0 {
      assert init[a] == table[a] && init[b] == table[b];
    }
  }

  /** One unfolding of `ToMap`: the last entry is stored over the map of the others. */
  lemma ToMapStep(table: seq<(string, Preset)>)
    requires table != []
    ensures ToMap(table) == ToMap(table[..|table| - 1])[table[|table| - 1].0 := table[|table| - 1].1]
  {
  }

  /** The modulation switch, tremolo switch and tremolo depth of the presets,
      in table order. */
  const Settings: seq<(bool, bool, real)> := [
    (false, true, 0.5), (true, true, 0.5), (true, true, 0.3),
    (false, true, 0.7), (false, false, 0.0), (true, true, 0.6)]

  /** Each preset has its own modulation and tremolo settings, and leaves the
      foundation flag unset. */
  lemma PresetSettings(i: nat)
    requires i < |SignalPresets|
    ensures var c := SignalPresets[i].1.config;
            (c.useMusicModulation, c.useTremolo, c.tremoloDepth) == Settings[i] &&
            c.useMusicAsFoundation.None?
  {
  }

  /** The names, in order, are exactly the six keys of the table. */
  lemma PresetNamesInOrder()
    ensures GetPresetNames() ==
      ["original_uap", "music_enhanced", "harmonic_focus", "earth_heartbeat", "pure_carriers", "biological_mimic"]
  {
  }

  /** An unknown name falls back to the original preset and never fails. */
  lemma UnknownNameFallsBack(presetName: string)
    requires forall i :: 0 <= i < |SignalPresets| ==> SignalPresets[i].0 != presetName
    ensures GetPreset(presetName) == OriginalUap
  {
  }

  /** Every depth lies in [0, 1]. */
  lemma PresetDepthsInUnit(i: nat)
    requires i < |SignalPresets|
    ensures 0.0 <= SignalPresets[i].1.config.tremoloDepth <= 1.0
  {
  }

  /** Only `pure_carriers` turns tremolo off, and its depth is zero. */
  lemma OnlyPureCarriersLacksTremolo(i: nat)
    requires i < |SignalPresets|
    ensures !SignalPresets[i].1.config.useTremolo <==> SignalPresets[i].0 == "pure_carriers"
    ensures SignalPresets[i].0 == "pure_carriers" ==> SignalPresets[i].1.config.tremoloDepth == 0.0
  {
  }

  /** No preset carries the foundation flag, so the generator never uses a
      track as foundation under a preset and reports `music_as_foundation` false. */
  lemma PresetsNeverUseMusicFoundation(i: nat, probe: Composer.TrackProbe, durationMs: int)
    requires i < |SignalPresets|
    ensures !Composer.MakePlan(SignalPresets[i].1.config, Composer.Audible(probe)).musicFoundation
    ensures !Composer.Describe(SignalPresets[i].1.config, probe, durationMs).musicAsFoundation
  {
  }

  /** All presets share the carrier frequencies of the default configuration;
      they differ only in the modulation and tremolo switches and the depth. */
  lemma PresetsShareFrequencies(i: nat)
    requires i < |SignalPresets|
    ensures var c, d := SignalPresets[i].1.config, Composer.DefaultConfig;
            c.baseToneFreq == d.baseToneFreq && c.schumannFreq == d.schumannFreq &&
            c.dnaRepairFreq == d.dnaRepairFreq && c.ultrasonicFreq == d.ultrasonicFreq &&
            c.chirpFreq == d.chirpFreq && c.ambientFreq == d.ambientFreq
  {
  }

  /** `music_enhanced` plans exactly as the default configuration does. */
  lemma MusicEnhancedIsDefaultPlan(audible: bool)
    ensures Composer.MakePlan(MusicEnhanced.config, audible) == Composer.MakePlan(Composer.DefaultConfig, audible)
  {
  }
}
