/** The composition rules of `generate_hybrid_uap_signal`: which foundation
    is used, which layers are pulsed and how deeply, when the track modulates
    the enhancement tones, the fixed mix order, and the metadata record.
    Tone and noise synthesis, filtering, gain and the oscillator's sine values
    belong to the audio library and are supplied as a `Synth` value. */
module Composer {
  import opened Numeric
  import opened Segments
  import Modulation
  import Schedule

  /** The configuration record. Every key is read directly except
      `use_music_as_foundation`, which is read with a default and so may be absent. */
  datatype Config = Config(
    baseToneFreq: real,
    schumannFreq: real,
    dnaRepairFreq: real,
    ultrasonicFreq: real,
    chirpFreq: real,
    ambientFreq: real,
    useMusicModulation: bool,
    useMusicAsFoundation: Option<bool>,
    useTremolo: bool,
    tremoloDepth: real)

  /** The configuration used when the caller passes none. */
  const DefaultConfig: Config :=
    Config(100.0, 7.83, 528.0, 17000.0, 2500.0, 432.0, true, Some(false), true, 0.5)

  /** The configuration in use: the caller's, or else the defaults. */
  function ResolveConfig(config: Option<Config>): (c: Config)
    ensures config.Some? ==> c == config.value
    ensures config.None? ==>
              c.baseToneFreq == 100.0 && c.schumannFreq == 7.83 && c.dnaRepairFreq == 528.0 &&
              c.ultrasonicFreq == 17000.0 && c.chirpFreq == 2500.0 && c.ambientFreq == 432.0 &&
              c.useMusicModulation && c.useMusicAsFoundation == Some(false) &&
              c.useTremolo && c.tremoloDepth == 0.5
  {
    config.GetOr(DefaultConfig)
  }

  /** `config.get('use_music_as_foundation')`, read as a truth value. */
  function WantsMusicFoundation(c: Config): (b: bool)
    ensures b <==> c.useMusicAsFoundation.Some? && c.useMusicAsFoundation.value
    ensures c.useMusicAsFoundation.None? ==> !b
  {
    c.useMusicAsFoundation == Some(true)
  }

  /** What became of the optional track path: none given (or empty), a path
      that does not exist, a decoded track, or an existing file the decoder
      rejects (its error propagates). */
  datatype TrackProbe = NoPath | Missing | Decoded(track: seq<Sample>) | Undecodable

  /** The track object exists (`music_file is not None`). */
  predicate Loaded(probe: TrackProbe)
    ensures !Loaded(probe) <==> probe.NoPath? || probe.Missing? || probe.Undecodable?
  {
    probe.Decoded?
  }

  /** The track is truthy (`if ... and music_file`): an audio segment is
      false when its length is zero. */
  predicate Audible(probe: TrackProbe)
    ensures Audible(probe) ==> Loaded(probe)
  {
    probe.Decoded? && |probe.track| > 0
  }

  /** A track that exists is truthy unless it is empty: the two tests differ
      exactly on a decoded empty track. */
  lemma PresenceAndTruthiness(probe: TrackProbe)
    ensures Audible(probe) ==> Loaded(probe)
    ensures Loaded(probe) && !Audible(probe) <==> probe == Decoded([])
  {
  }

  /** The duration every layer is built to: the track's when one was
      loaded, the requested one otherwise. */
  function SignalDuration(probe: TrackProbe, durationMs: int): (d: int)
    ensures probe.Decoded? ==> d == |probe.track|
    ensures !probe.Decoded? ==> d == durationMs
  {
    if probe.Decoded? then |probe.track| else durationMs
  }

  // ---- gains and fixed parameters -----------------------------------------

  const MusicFoundationGainDb: int := -3
  const ToneFoundationGainDb: int := -6
  const SchumannUnderMusicGainDb: int := -18
  const SchumannUnderToneGainDb: int := -12
  const EnhancementGainDb: int := -9
  const BurstGainDb: int := -3
  const BreathGainDb: int := -18
  const BreathCutoffHz: int := 300
  const TrackOverlayGainDb: int := -3
  const SchumannTremoloDepth: real := 0.3
  const BreathTremoloDepth: real := 0.4

  // ---- the layer plan -----------------------------------------------------

  /** Every decision the generator takes from the configuration and the track. */
  datatype Plan = Plan(
    musicFoundation: bool,          // the track is the foundation carrier
    foundationGainDb: int,
    schumannGainDb: int,
    schumannTremolo: Option<real>,  // depth of the pulse on the Schumann carrier, if any
    chirpTremolo: Option<real>,     // depth of the pulse on the chirp burst, if any
    breathTremolo: Option<real>,    // depth of the pulse on the breath layer, if any
    modulateEnhancement: bool,      // the track modulates the two enhancement tones
    overlayTrack: bool)             // the track is mixed in last

  function MakePlan(c: Config, audible: bool): (p: Plan)
    ensures p.musicFoundation || p.overlayTrack || p.modulateEnhancement ==> audible
    ensures audible ==> p.musicFoundation != p.overlayTrack
  {
    var musicFoundation := WantsMusicFoundation(c) && audible;
    Plan(
      musicFoundation,
      if musicFoundation then MusicFoundationGainDb else ToneFoundationGainDb,
      if musicFoundation then SchumannUnderMusicGainDb else SchumannUnderToneGainDb,
      if c.useTremolo then Some(SchumannTremoloDepth) else None,
      if c.useTremolo then Some(c.tremoloDepth) else None,
      if c.useTremolo then Some(BreathTremoloDepth) else None,
      audible && c.useMusicModulation,
      audible && !WantsMusicFoundation(c))
  }

  /** The track is the foundation, at -3 dB with the Schumann carrier at
      -18 dB, exactly when it is requested and the track is audible;
      otherwise the base tone is, at -6 dB with the carrier at -12 dB. */
  lemma FoundationChoice(c: Config, audible: bool)
    ensures var p := MakePlan(c, audible);
            (p.musicFoundation <==> WantsMusicFoundation(c) && audible) &&
            (p.musicFoundation ==> p.foundationGainDb == -3 && p.schumannGainDb == -18) &&
            (!p.musicFoundation ==> p.foundationGainDb == -6 && p.schumannGainDb == -12)
  {
  }

  /** The Schumann carrier is pulsed at depth 0.3 and the breath layer at 0.4
      whatever `tremolo_depth` says; only the chirp burst uses that depth, and
      with `use_tremolo` off nothing is pulsed. */
  lemma TremoloDepths(c: Config, audible: bool, otherDepth: real)
    ensures var p, q := MakePlan(c, audible), MakePlan(c.(tremoloDepth := otherDepth), audible);
            (c.useTremolo ==> p.schumannTremolo == Some(0.3) && p.breathTremolo == Some(0.4) &&
                              p.chirpTremolo == Some(c.tremoloDepth)) &&
            (!c.useTremolo ==> p.schumannTremolo.None? && p.chirpTremolo.None? && p.breathTremolo.None?) &&
            q.schumannTremolo == p.schumannTremolo && q.breathTremolo == p.breathTremolo &&
            (c.useTremolo ==> q.chirpTremolo == Some(otherDepth))
  {
  }

  /** Music modulation is applied exactly when the track is audible and
      `use_music_modulation` is set; the track is overlaid last exactly when
      it is audible and not the foundation. */
  lemma TrackUse(c: Config, audible: bool)
    ensures var p := MakePlan(c, audible);
            (p.modulateEnhancement <==> audible && c.useMusicModulation) &&
            (p.overlayTrack <==> audible && !WantsMusicFoundation(c))
  {
  }

  // ---- metadata ------------------------------------------------------------

  datatype Metadata = Metadata(
    durationMs: int,
    foundation: seq<string>,
    humanEnhancement: seq<string>,
    attention: seq<string>,
    lifeIndicator: seq<string>,
    musicModulation: bool,
    musicAsFoundation: bool,
    tremolo: bool,
    tremoloRate: real)

  /** The metadata dictionary built at the end of the generator. */
  function Describe(c: Config, probe: TrackProbe, durationMs: int): (md: Metadata)
    ensures md.tremolo == c.useTremolo && md.tremoloRate == c.schumannFreq
    ensures md.humanEnhancement == ["dna_repair_tone", "ambient_pad"]
    ensures md.attention == ["chirps", "ultrasonic_ping"] && md.lifeIndicator == ["breath_layer"]
  {
    Metadata(
      SignalDuration(probe, durationMs),
      if WantsMusicFoundation(c) && Audible(probe) then ["music_base", "schumann_carrier"]
      else ["base_tone", "schumann_carrier"],
      ["dna_repair_tone", "ambient_pad"],
      ["chirps", "ultrasonic_ping"],
      ["breath_layer"],
      c.useMusicModulation && Loaded(probe),
      c.useMusicAsFoundation.GetOr(false),
      c.useTremolo,
      c.schumannFreq)
  }

  /** The metadata agrees with the plan: the foundation list names the track
      exactly when the plan uses it as foundation, `music_as_foundation`
      echoes the configuration even without a track, and `music_modulation`
      matches the modulation actually applied unless the track is empty. */
  lemma MetadataMatchesPlan(c: Config, probe: TrackProbe, durationMs: int)
    ensures var md, p := Describe(c, probe, durationMs), MakePlan(c, Audible(probe));
            (md.foundation == ["music_base", "schumann_carrier"] <==> p.musicFoundation) &&
            (md.foundation != ["music_base", "schumann_carrier"] ==> md.foundation == ["base_tone", "schumann_carrier"]) &&
            md.musicAsFoundation == WantsMusicFoundation(c) &&
            (!(probe.Decoded? && |probe.track| == 0) ==> md.musicModulation == p.modulateEnhancement)
  {
    var md := Describe(c, probe, durationMs);
    assert ["music_base", "schumann_carrier"] != ["base_tone", "schumann_carrier"] by {
      assert ["music_base", "schumann_carrier"][0] != ["base_tone", "schumann_carrier"][0];
    }
  }

  /** A loaded but empty track is reported as modulating although the
      modulation step skips it (`is not None` versus truthiness). */
  lemma EmptyTrackReportedAsModulating(c: Config, durationMs: int)
    requires c.useMusicModulation
    ensures Describe(c, Decoded([]), durationMs).musicModulation
    ensures !MakePlan(c, Audible(Decoded([]))).modulateEnhancement
  {
  }

  /** A path that does not exist is treated exactly like no path at all. */
  lemma MissingTrackIsNoTrack(c: Config, durationMs: int)
    ensures Describe(c, Missing, durationMs) == Describe(c, NoPath, durationMs)
    ensures Describe(c, NoPath, durationMs).durationMs == durationMs
    ensures !Describe(c, NoPath, durationMs).musicModulation
  {
  }

  /** A decoded track's length overrides the requested duration. */
  lemma TrackOverridesDuration(c: Config, track: seq<Sample>, durationMs: int)
    ensures Describe(c, Decoded(track), durationMs).durationMs == |track|
  {
  }

  /** The ten-second scenario without a track: tone foundation, no music
      modulation, tremolo on at the Schumann rate. */
  lemma TenSecondScenarioMetadata()
    ensures var c := Config(100.0, 7.83, 528.0, 17000.0, 2500.0, 432.0, false, None, true, 0.5);
            Describe(c, NoPath, 10000) ==
              Metadata(10000, ["base_tone", "schumann_carrier"], ["dna_repair_tone", "ambient_pad"],
                       ["chirps", "ultrasonic_ping"], ["breath_layer"], false, false, true, 7.83)
  {
  }

  /** With no configuration the default one applies: a present track
      modulates the enhancement tones and is overlaid last, and every
      layer that can be pulsed is. */
  lemma DefaultConfigPlan(audible: bool)
    ensures var p := MakePlan(ResolveConfig(None), audible);
            p.modulateEnhancement == audible && p.overlayTrack == audible && !p.musicFoundation &&
            p.schumannTremolo == Some(0.3) && p.chirpTremolo == Some(0.5) && p.breathTremolo == Some(0.4)
  {
  }

  // ---- mixing ----------------------------------------------------------------

  /** Overlay each layer in turn, at position 0, onto the accumulated mix. */
  function OverlayAll(base: seq<Sample>, layers: seq<seq<Sample>>): (r: seq<Sample>)
    ensures |r| == |base|
    decreases |layers|
  {
    if layers == [] then base
    else Overlay(OverlayAll(base, layers[..|layers| - 1]), layers[|layers| - 1], 0)
  }

  /** The mix: onto the foundation, the Schumann carrier, the two enhancement
      tones, the breath layer, the chirp train and the ping train, in that
      order, then the track when it is overlaid. */
  method Mix(foundation: seq<Sample>, schumann: seq<Sample>, dnaRepair: seq<Sample>, ambient: seq<Sample>,
             breath: seq<Sample>, chirps: seq<Sample>, pings: seq<Sample>, track: Option<seq<Sample>>)
    returns (composite: seq<Sample>)
    ensures composite == OverlayAll(foundation,
              [schumann, dnaRepair, ambient, breath, chirps, pings] + (if track.Some? then [track.value] else []))
  {
    var layers := [schumann, dnaRepair, ambient, breath, chirps, pings];
    composite := Overlay(foundation, schumann, 0);
    assert composite == OverlayAll(foundation, layers[..1]);
    composite := Overlay(composite, dnaRepair, 0);
    assert layers[..2][..1] == layers[..1];
    assert composite == OverlayAll(foundation, layers[..2]);
    composite := Overlay(composite, ambient, 0);
    assert layers[..3][..2] == layers[..2];
    assert composite == OverlayAll(foundation, layers[..3]);
    composite := Overlay(composite, breath, 0);
    assert layers[..4][..3] == layers[..3];
    assert composite == OverlayAll(foundation, layers[..4]);
    composite := Overlay(composite, chirps, 0);
    assert layers[..5][..4] == layers[..4];
    assert composite == OverlayAll(foundation, layers[..5]);
    composite := Overlay(composite, pings, 0);
    assert layers[..6][..5] == layers[..5];
    assert layers[..6] == layers;
    assert composite == OverlayAll(foundation, layers);
    if track.Some? {
      composite := Overlay(composite, track.value, 0);
      assert (layers + [track.value])[..6] == layers;
    } else {
      assert layers + [] == layers;
    }
  }

  /** Running total of layer `j`'s contributions to sample `k`. */
  function Contribution(layers: seq<seq<Sample>>, k: nat): int
    decreases |layers|
  {
    if layers == [] then 0
    else
      var last := layers[|layers| - 1];
      Contribution(layers[..|layers| - 1], k) + (if k < |last| then last[k] else 0)
  }

  /** Sample `k` never leaves the 16-bit range while the layers are added one by one. */
  ghost predicate NoClipping(base: seq<Sample>, layers: seq<seq<Sample>>, k: nat)
    requires k < |base|
  {
    forall j :: 0 <= j <= |layers| ==> Int16Min <= base[k] + Contribution(layers[..j], k) <= Int16Max
  }

  /** When no partial sum saturates, the mix is the plain sum of the layers. */
  lemma {:induction false} MixIsSumWithoutClipping(base: seq<Sample>, layers: seq<seq<Sample>>, k: nat)
    requires k < |base| && NoClipping(base, layers, k)
    ensures OverlayAll(base, layers)[k] == base[k] + Contribution(layers, k)
    decreases |layers|
  {
    if layers != [] {
      var n := |layers| - 1;
      var init := layers[..n];
      assert NoClipping(base, init, k) by {
        forall j | 0 <= j <= |init| ensures Int16Min <= base[k] + Contribution(init[..j], k) <= Int16Max {
          assert init[..j] == layers[..j];
        }
      }
      MixIsSumWithoutClipping(base, init, k);
      assert layers[..|layers|] == layers;
    }
  }

  /** Saturation makes the order observable: the same two layers mixed in
      the two orders differ. */
  lemma MixOrderMatters()
    ensures OverlayAll([32767], [[1], [-1]]) == [32766]
    ensures OverlayAll([32767], [[-1], [1]]) == [32767]
  {
    assert [[1], [-1]][..1] == [[1]];
    assert [[-1], [1]][..1] == [[-1]];
  }

  // ---- the generator ---------------------------------------------------------

  /** The audio library as seen by the generator. */
  datatype Synth = Synth(
    sine: (real, int) -> seq<Sample>,         // Sine(freq).to_audio_segment(duration)
    whiteNoise: int -> seq<Sample>,           // WhiteNoise().to_audio_segment(duration)
    lowPass: (seq<Sample>, int) -> seq<Sample>, // low_pass_filter(segment, cutoff)
    gain: (seq<Sample>, int) -> seq<Sample>,    // segment.apply_gain(dB)
    lfoSine: (real, int) -> seq<real>)        // sin(2 pi rate t) over n samples

  /** The library keeps durations: generators produce the requested length,
      filters, gains and the oscillator match their input. A negative
      duration is taken to give an empty buffer. */
  ghost predicate KeepsLengths(s: Synth) {
    && (forall f, d :: |s.sine(f, d)| == NonNegative(d))
    && (forall d :: |s.whiteNoise(d)| == NonNegative(d))
    && (forall a, cutoff :: |s.lowPass(a, cutoff)| == |a|)
    && (forall a, g :: |s.gain(a, g)| == |a|)
    && (forall rate, n :: n >= 0 ==> |s.lfoSine(rate, n)| == n)
  }

  /** The oscillator is a sine sampled from t = 0 (`np.linspace(0, ...)`):
      every value lies in [-1, 1] and the first one is sin 0 = 0. */
  ghost predicate Oscillates(s: Synth) {
    && (forall rate, n, i :: 0 <= i < |s.lfoSine(rate, n)| ==> -1.0 <= s.lfoSine(rate, n)[i] <= 1.0)
    && (forall rate, n :: |s.lfoSine(rate, n)| > 0 ==> s.lfoSine(rate, n)[0] == 0.0)
  }

  /** `apply_tremolo(audio, rate, depth)`. */
  function Pulse(s: Synth, audio: seq<Sample>, rate: real, depth: real): (r: seq<Sample>)
    ensures KeepsLengths(s) ==> |r| == |audio|
  {
    Modulation.Tremolo(audio, depth, s.lfoSine(rate, |audio|))
  }

  /** A layer pulsed at the plan's depth for it, or left as it is without one. */
  function Pulsed(s: Synth, audio: seq<Sample>, rate: real, depth: Option<real>): (r: seq<Sample>)
    ensures KeepsLengths(s) ==> |r| == |audio|
    ensures depth.None? ==> r == audio
  {
    if depth.Some? then Pulse(s, audio, rate, depth.value) else audio
  }

  /** `segment.apply_gain(dB)`. */
  function Gain(s: Synth, a: seq<Sample>, gainDb: int): (r: seq<Sample>)
    ensures KeepsLengths(s) ==> |r| == |a|
  {
    s.gain(a, gainDb)
  }

  /** `Sine(freq).to_audio_segment(duration=d).apply_gain(dB)`. */
  function Tone(s: Synth, freq: real, durationMs: int, gainDb: int): (r: seq<Sample>)
    ensures KeepsLengths(s) ==> |r| == NonNegative(durationMs)
  {
    s.gain(s.sine(freq, durationMs), gainDb)
  }

  /** The breath layer before its pulse: white noise, low-passed at 300 Hz, at -18 dB. */
  function BreathNoise(s: Synth, durationMs: int): (r: seq<Sample>)
    ensures KeepsLengths(s) ==> |r| == NonNegative(durationMs)
  {
    s.gain(s.lowPass(s.whiteNoise(durationMs), BreathCutoffHz), BreathGainDb)
  }

  /** A pulsed buffer starts at 1 - depth of its first sample: the tremolo
      does not begin at full level. */
  lemma PulseAtBufferStart(s: Synth, audio: seq<Sample>, rate: real, depth: real)
    requires KeepsLengths(s) && Oscillates(s) && |audio| > 0
    ensures Pulse(s, audio, rate, depth)[0] == Modulation.PulseSample(audio[0], depth, 0.0)
    ensures Modulation.Envelope(depth, 0.0) == 1.0 - depth
  {
    Modulation.TremoloAtBufferStart(audio, depth, s.lfoSine(rate, |audio|));
  }

  /** With a depth in [0, 1], pulsing keeps the length and never makes a
      sample louder. */
  lemma PulsedNeverLouder(s: Synth, audio: seq<Sample>, rate: real, depth: Option<real>)
    requires KeepsLengths(s) && Oscillates(s)
    requires depth.Some? ==> 0.0 <= depth.value <= 1.0
    ensures |Pulsed(s, audio, rate, depth)| == |audio|
    ensures forall i :: 0 <= i < |audio| ==> Abs(Pulsed(s, audio, rate, depth)[i]) <= Abs(audio[i])
  {
    if depth.Some? {
      var sine := s.lfoSine(rate, |audio|);
      assert forall i :: 0 <= i < |sine| ==> -1.0 <= sine[i] <= 1.0;
    }
  }

  /** Every depth the plan uses lies in [0, 1] when the configured one does. */
  lemma PlanDepthsInUnit(c: Config, audible: bool)
    requires 0.0 <= c.tremoloDepth <= 1.0
    ensures var p := MakePlan(c, audible);
            forall d :: d in [p.schumannTremolo, p.chirpTremolo, p.breathTremolo] && d.Some? ==> 0.0 <= d.value <= 1.0
  {
  }

  /** The track's samples, or nothing when no track was decoded. */
  function TrackOf(probe: TrackProbe): (t: seq<Sample>)
    ensures probe.Decoded? ==> t == probe.track
    ensures !probe.Decoded? ==> t == []
  {
    if probe.Decoded? then probe.track else []
  }

  /** The layers overlaid onto the foundation, in mixing order. */
  function MixOrder(schumann: seq<Sample>, dnaRepair: seq<Sample>, ambient: seq<Sample>, breath: seq<Sample>,
                    chirps: seq<Sample>, pings: seq<Sample>, track: Option<seq<Sample>>): (r: seq<seq<Sample>>)
    ensures |r| == (if track.Some? then 7 else 6)
    ensures r[0] == schumann && r[1] == dnaRepair && r[2] == ambient && r[3] == breath
    ensures r[4] == chirps && r[5] == pings
    ensures track.Some? ==> r[6] == track.value
  {
    [schumann, dnaRepair, ambient, breath, chirps, pings] + (if track.Some? then [track.value] else [])
  }

  /** Layer 2: `apply_amplitude_modulation` of each enhancement tone by the
      track when `modulate` is set, or the tones as they are; nothing when a
      modulation fails. */
  method EnhancementLayers(dnaRepair: seq<Sample>, ambient: seq<Sample>, track: seq<Sample>, modulate: bool)
    returns (r: Option<(seq<Sample>, seq<Sample>)>)
    ensures !modulate ==> r == Some((dnaRepair, ambient))
    ensures modulate ==> (r.Some? <==> Modulation.AmplitudeModulate(dnaRepair, track).Success? &&
                                       Modulation.AmplitudeModulate(ambient, track).Success?)
    ensures modulate && r.Some? ==> Modulation.AmplitudeModulate(dnaRepair, track) == Success(r.value.0) &&
                                    Modulation.AmplitudeModulate(ambient, track) == Success(r.value.1)
  {
    if !modulate {
      return Some((dnaRepair, ambient));
    }
    var m1 := Modulation.AmplitudeModulate(dnaRepair, track);
    var m2 := Modulation.AmplitudeModulate(ambient, track);
    if m1.Failure? || m2.Failure? {
      return None;
    }
    return Some((m1.value, m2.value));
  }

  /** The layers the generator builds, named, as the plan for the
      configuration and the track prescribes them. */
  ghost predicate LayersFollow(s: Synth, c: Config, probe: TrackProbe, durationMs: int, foundation: seq<Sample>,
                               schumann: seq<Sample>, dnaRepair: seq<Sample>, ambient: seq<Sample>, breath: seq<Sample>,
                               chirps: seq<Sample>, pings: seq<Sample>, overlay: Option<seq<Sample>>)
    ensures LayersFollow(s, c, probe, durationMs, foundation, schumann, dnaRepair, ambient, breath, chirps, pings, overlay) ==>
              (overlay.Some? ==> Audible(probe)) &&
              (Audible(probe) && WantsMusicFoundation(c) ==> overlay.None?)
  {
    var d, track := SignalDuration(probe, durationMs), TrackOf(probe);
    var p := MakePlan(c, Audible(probe));
    // foundation: the track or the base tone, at the plan's gain
    && foundation == (if p.musicFoundation then Gain(s, track, p.foundationGainDb)
                      else Tone(s, c.baseToneFreq, d, p.foundationGainDb))
    // Schumann carrier, pulsed at the plan's depth
    && schumann == Pulsed(s, Tone(s, c.schumannFreq, d, p.schumannGainDb), c.schumannFreq, p.schumannTremolo)
    // enhancement tones, modulated by the track when the plan says so
    && (p.modulateEnhancement ==>
          Modulation.AmplitudeModulate(Tone(s, c.dnaRepairFreq, d, EnhancementGainDb), track) == Success(dnaRepair) &&
          Modulation.AmplitudeModulate(Tone(s, c.ambientFreq, d, EnhancementGainDb), track) == Success(ambient))
    && (!p.modulateEnhancement ==>
          dnaRepair == Tone(s, c.dnaRepairFreq, d, EnhancementGainDb) &&
          ambient == Tone(s, c.ambientFreq, d, EnhancementGainDb))
    // breath: low-passed noise, pulsed at the plan's depth
    && breath == Pulsed(s, BreathNoise(s, d), c.schumannFreq, p.breathTremolo)
    // chirp train: the pulsed chirp every 2000 ms below the duration
    && chirps == Schedule.PlaceAll(Silent(d),
                   Pulsed(s, Tone(s, c.chirpFreq, Schedule.ChirpLengthMs, BurstGainDb), c.schumannFreq, p.chirpTremolo),
                   Schedule.Starts(Schedule.ChirpIntervalMs, d))
    // ping train: the ping every 3500 ms below the duration less 500 ms
    && pings == Schedule.PlaceAll(Silent(d),
                  Tone(s, c.ultrasonicFreq, Schedule.PingLengthMs, BurstGainDb),
                  Schedule.Starts(Schedule.PingIntervalMs, d - Schedule.PingLengthMs))
    // the track last, at -3 dB, exactly when it is overlaid
    && (overlay.Some? <==> p.overlayTrack)
    && (overlay.Some? ==> overlay.value == Gain(s, track, TrackOverlayGainDb))
  }

  /** The foundation and the layers in mixing order are the ones the plan builds. */
  ghost predicate FollowsPlan(s: Synth, c: Config, probe: TrackProbe, durationMs: int,
                              foundation: seq<Sample>, layers: seq<seq<Sample>>)
    ensures FollowsPlan(s, c, probe, durationMs, foundation, layers) ==>
              |layers| == (if MakePlan(c, Audible(probe)).overlayTrack then 7 else 6)
  {
    && 6 <= |layers| <= 7
    && LayersFollow(s, c, probe, durationMs, foundation, layers[0], layers[1], layers[2], layers[3], layers[4], layers[5],
                    if |layers| == 7 then Some(layers[6]) else None)
  }

  /** Named layers that follow the plan, put in mixing order, follow the plan. */
  lemma MixOrderFollowsPlan(s: Synth, c: Config, probe: TrackProbe, durationMs: int, foundation: seq<Sample>,
                            schumann: seq<Sample>, dnaRepair: seq<Sample>, ambient: seq<Sample>, breath: seq<Sample>,
                            chirps: seq<Sample>, pings: seq<Sample>, overlay: Option<seq<Sample>>)
    requires LayersFollow(s, c, probe, durationMs, foundation, schumann, dnaRepair, ambient, breath, chirps, pings, overlay)
    ensures FollowsPlan(s, c, probe, durationMs, foundation, MixOrder(schumann, dnaRepair, ambient, breath, chirps, pings, overlay))
  {
    var layers := MixOrder(schumann, dnaRepair, ambient, breath, chirps, pings, overlay);
    assert layers[..6] == [schumann, dnaRepair, ambient, breath, chirps, pings];
    assert (if |layers| == 7 then Some(layers[6]) else None) == overlay;
  }

  /** In a signal built by the plan, the pulsed Schumann carrier and breath
      layer are nowhere louder than the tone and the noise they pulse. */
  lemma PlannedLayersNeverLouder(s: Synth, c: Config, probe: TrackProbe, durationMs: int,
                                 foundation: seq<Sample>, layers: seq<seq<Sample>>)
    requires KeepsLengths(s) && Oscillates(s)
    requires FollowsPlan(s, c, probe, durationMs, foundation, layers)
    ensures var d, p := SignalDuration(probe, durationMs), MakePlan(c, Audible(probe));
            && |layers[0]| == |Tone(s, c.schumannFreq, d, p.schumannGainDb)|
            && (forall i :: 0 <= i < |layers[0]| ==>
                  Abs(layers[0][i]) <= Abs(Tone(s, c.schumannFreq, d, p.schumannGainDb)[i]))
    ensures var d := SignalDuration(probe, durationMs);
            && |layers[3]| == |BreathNoise(s, d)|
            && (forall i :: 0 <= i < |layers[3]| ==> Abs(layers[3][i]) <= Abs(BreathNoise(s, d)[i]))
  {
    var d, p := SignalDuration(probe, durationMs), MakePlan(c, Audible(probe));
    PulsedNeverLouder(s, Tone(s, c.schumannFreq, d, p.schumannGainDb), c.schumannFreq, p.schumannTremolo);
    PulsedNeverLouder(s, BreathNoise(s, d), c.schumannFreq, p.breathTremolo);
  }

  /** The chirp and ping trains of the attention layer: the (pulsed) chirp
      every 2000 ms below the duration, the ping every 3500 ms below the
      duration less 500 ms, each on silence of the signal's length. */
  method AttentionBursts(s: Synth, c: Config, duration: int, chirpTremolo: Option<real>)
    returns (chirps: seq<Sample>, pings: seq<Sample>)
    ensures chirps == Schedule.PlaceAll(Silent(duration),
                        Pulsed(s, Tone(s, c.chirpFreq, Schedule.ChirpLengthMs, BurstGainDb), c.schumannFreq, chirpTremolo),
                        Schedule.Starts(Schedule.ChirpIntervalMs, duration))
    ensures pings == Schedule.PlaceAll(Silent(duration),
                       Tone(s, c.ultrasonicFreq, Schedule.PingLengthMs, BurstGainDb),
                       Schedule.Starts(Schedule.PingIntervalMs, duration - Schedule.PingLengthMs))
  {
    var ping := Tone(s, c.ultrasonicFreq, Schedule.PingLengthMs, BurstGainDb);
    var chirp := Tone(s, c.chirpFreq, Schedule.ChirpLengthMs, BurstGainDb);
    chirp := Pulsed(s, chirp, c.schumannFreq, chirpTremolo);
    chirps := Schedule.Tile(duration, chirp, Schedule.ChirpIntervalMs, duration);
    pings := Schedule.Tile(duration, ping, Schedule.PingIntervalMs, duration - Schedule.PingLengthMs);
  }

  datatype Generated = Generated(signal: seq<Sample>, metadata: Metadata)

  datatype GenerateError = TrackUnreadable | ModulationFailed

  /** `generate_hybrid_uap_signal`: build every layer as the plan says, tile
      the bursts, mix, and describe the result. The ghost results expose the
      foundation and the layers overlaid onto it. */
  method Generate(probe: TrackProbe, durationMs: int, config: Option<Config>, s: Synth)
    returns (r: Result<Generated, GenerateError>, ghost foundation: seq<Sample>, ghost layers: seq<seq<Sample>>)
    ensures probe.Undecodable? ==> r == Failure(TrackUnreadable)
    ensures r.Success? ==> r.value.metadata == Describe(ResolveConfig(config), probe, durationMs)
    ensures KeepsLengths(s) ==> (r.Success? <==> !probe.Undecodable?)
    ensures KeepsLengths(s) && r.Success? ==> |r.value.signal| == NonNegative(r.value.metadata.durationMs)
    // the mix: the foundation, then the layers in their fixed order
    ensures r.Success? ==> r.value.signal == OverlayAll(foundation, layers)
    ensures r.Success? ==> FollowsPlan(s, ResolveConfig(config), probe, durationMs, foundation, layers)
    ensures r == Failure(ModulationFailed) ==>
              var c, d, track := ResolveConfig(config), SignalDuration(probe, durationMs), TrackOf(probe);
              MakePlan(c, Audible(probe)).modulateEnhancement &&
              (Modulation.AmplitudeModulate(Tone(s, c.dnaRepairFreq, d, EnhancementGainDb), track).Failure? ||
               Modulation.AmplitudeModulate(Tone(s, c.ambientFreq, d, EnhancementGainDb), track).Failure?)
  {
    var c := ResolveConfig(config);
    if probe.Undecodable? {
      return Failure(TrackUnreadable), [], [];
    }
    var duration := SignalDuration(probe, durationMs);
    var track := TrackOf(probe);
    var plan := MakePlan(c, Audible(probe));

    // Layer 1: foundation
    var base := if plan.musicFoundation then Gain(s, track, plan.foundationGainDb)
                else Tone(s, c.baseToneFreq, duration, plan.foundationGainDb);
    var schumann := Tone(s, c.schumannFreq, duration, plan.schumannGainDb);
    schumann := Pulsed(s, schumann, c.schumannFreq, plan.schumannTremolo);

    // Layer 2: enhancement tones, optionally modulated by the track
    var dnaRepair := Tone(s, c.dnaRepairFreq, duration, EnhancementGainDb);
    var ambient := Tone(s, c.ambientFreq, duration, EnhancementGainDb);
    var enhanced := EnhancementLayers(dnaRepair, ambient, track, plan.modulateEnhancement);
    if enhanced.None? {
      return Failure(ModulationFailed), [], [];
    }
    dnaRepair, ambient := enhanced.value.0, enhanced.value.1;

    // Layer 3: attention bursts
    var chirps, pings := AttentionBursts(s, c, duration, plan.chirpTremolo);

    // Layer 4: breath
    var breath := BreathNoise(s, duration);
    breath := Pulsed(s, breath, c.schumannFreq, plan.breathTremolo);

    var overlay := if plan.overlayTrack then Some(Gain(s, track, TrackOverlayGainDb)) else None;
    var signal := Mix(base, schumann, dnaRepair, ambient, breath, chirps, pings, overlay);
    foundation, layers := base, MixOrder(schumann, dnaRepair, ambient, breath, chirps, pings, overlay);
    MixOrderFollowsPlan(s, c, probe, durationMs, base, schumann, dnaRepair, ambient, breath, chirps, pings, overlay);
    return Success(Generated(signal, Describe(c, probe, durationMs))), foundation, layers;
  }
}
