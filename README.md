# UAP signal generator: a verified model of the composition rules

This project models, in Dafny, the core logic of the Ultrasonic Sweep "UAP
signal generator". The generator layers synthetic tones, noise, pulsed
bursts and an optional music track into one composite signal. The core is
the logic around the audio-library calls:

- **The sample-level operators.** `apply_amplitude_modulation` scales a
  carrier by a modulator normalised to [0, 1]. `apply_tremolo` multiplies a
  buffer by the envelope `1 - depth + depth * sin`. Both cut their inputs to
  the shorter length and cast back to 16-bit samples.
- **The generator `generate_hybrid_uap_signal`.**
  - It chooses a foundation: the track, or a base tone.
  - It pulses the Schumann carrier, the chirp burst and the breath layer at
    their own depths.
  - It lets the track modulate the two enhancement tones.
  - It tiles a 300 ms chirp every 2000 ms and a 500 ms ping every 3500 ms.
  - It mixes the layers in a fixed order and describes the result in a
    metadata record.
- **The dashboard helpers.** `allowed_file` is the upload filter.
  `get_waveform_data` is the waveform preview downsampler.
- **The preset table.** Six named configurations, with lookup by name.

Conventions of the model:

- Time runs on a grid of one sample per millisecond. A buffer's length is
  its duration in milliseconds.
- A sample is an integer in [-32768, 32767].
- Factors and envelopes are reals.
- The library's synthesis, filtering and gain functions are supplied to the
  generator as a `Synth` value. The oscillator's sine values come from that
  value too, so no particular sine function is assumed.

Modules, one file each:

| file | module | models |
|---|---|---|
| numeric.dfy | `Numeric` | optional values, results, 16-bit samples, numpy's clip/cast, `max`/`min` |
| segments.dfy | `Segments` | silent buffers and overlay with 16-bit saturation |
| modulation.dfy | `Modulation` | `apply_amplitude_modulation`, `apply_tremolo` |
| schedule.dfy | `Schedule` | the two burst-tiling loops |
| composer.dfy | `Composer` | configuration, layer plan, metadata, mix, the generator |
| presets.dfy | `Presets` | `SIGNAL_PRESETS`, `get_preset`, `get_all_presets`, `get_preset_names` |
| uploads.dfy | `Uploads` | `ALLOWED_EXTENSIONS`, `allowed_file` |
| waveform.dfy | `Waveform` | `get_waveform_data`, as written and corrected |

Behaviours of the code worth noting:

- **Unloadable track** (uap_signal_generator.py:150-155). A track path that
  exists but cannot be decoded is not treated as absent:
  `AudioSegment.from_file` raises, and the generator does not catch the
  error. `Composer.Generate` returns `Failure(TrackUnreadable)`. Only a path
  that does not exist, or none at all, gives the no-track case.
- **Tremolo at the start of a buffer** (uap_signal_generator.py:97-98). The
  oscillator is sampled from t = 0, so the first sample of a pulsed layer is
  scaled by `1 - depth`, not by 1. `Composer.Oscillates` states this of the
  oscillator (first value sin 0 = 0, every value in [-1, 1]); the lemmas
  that need it take it as a hypothesis.
- **Empty track** (uap_signal_generator.py:181, :239, :256). A decoded but
  empty track is falsy, so the generator neither modulates with it nor
  overlays it. The metadata still reports `music_modulation` as true,
  because that entry tests `is not None`.
- **Amplitude modulation of an empty buffer** (uap_signal_generator.py:61)
  raises, because numpy's `max()` of an empty array fails. The generator
  never reaches that case: it modulates only with a non-empty track, and
  its tones then have the track's length.

## Model

| member | source | states |
|---|---|---|
| Numeric.Clip | uap_signal_generator.py:70 | the result is in the int16 range, equals the input inside it and saturates at the nearer bound outside it |
| Numeric.TruncateTowardZero | uap_signal_generator.py:70 | the cast drops the fraction: the result is the integer toward zero within one of the input, with the input's sign |
| Numeric.ToInt16 | uap_signal_generator.py:70 | clip then cast gives a sample that saturates beyond the range; inside the range its magnitude is within one of the input's and never larger, with the same sign |
| Numeric.ToInt16OfSample | uap_signal_generator.py:108 | a value that is already a sample survives the cast unchanged |
| Numeric.Saturate | uap_signal_generator.py:231-236 | the sum of two samples keeps its value in range and saturates at the bound it passes |
| Numeric.Max | uap_signal_generator.py:61-62 | the maximum is an element and bounds every element from above |
| Numeric.Min | uap_signal_generator.py:61-62 | the minimum is an element and bounds every element from below |
| Numeric.ConstantIffMaxIsMin | uap_signal_generator.py:61 | `max() != min()` holds exactly when the samples are not all equal |
| Segments.Silent | uap_signal_generator.py:200 | a silent buffer has the requested length, or is empty for a non-positive one, and holds only zeros |
| Segments.Overlay | uap_signal_generator.py:204 | an overlay keeps the length of the buffer it is laid on |
| Modulation.Factors | uap_signal_generator.py:60-64 | one factor per modulator sample, each in [0, 1] |
| Modulation.Normalise | uap_signal_generator.py:62 | `(v - min) / (max - min)` lies in [0, 1], is 0 at the minimum and 1 at the maximum |
| Modulation.FactorsAtExtremes | uap_signal_generator.py:61-62 | for a non-constant modulator the minimum sample maps to 0 and the maximum to 1 |
| Modulation.FactorsOfConstant | uap_signal_generator.py:63-64 | a constant modulator yields the factor 0.5 everywhere |
| Modulation.AmplitudeModulate | uap_signal_generator.py:52-70 | fails exactly when an input is empty; otherwise has the shorter input's length, and each output sample is no louder than the carrier's and has its sign |
| Modulation.Scale | uap_signal_generator.py:67-70 | a factor in [0, 1] never amplifies or flips a sample; factor 1 keeps it and factor 0 silences it |
| Modulation.ModulationFollowsModulator | uap_signal_generator.py:61-70 | where the modulator peaks the carrier passes unchanged; where it is at its minimum the output is silent |
| Modulation.ConstantModulatorHalves | uap_signal_generator.py:63-70 | a constant modulator halves each carrier sample, rounding toward zero |
| Modulation.EnvelopeRange | uap_signal_generator.py:98 | with depth in [0, 1] and sine in [-1, 1] the envelope lies in [1 - 2 depth, 1] and never below -1 |
| Modulation.Envelope | uap_signal_generator.py:98 | the envelope `1 - depth + depth * sin` is 1 - depth where the sine is 0, full level at the sine's peak or at depth 0, and the sine itself at depth 1 |
| Modulation.PulseSample | uap_signal_generator.py:105-108 | one sample times its envelope, clipped and cast: unchanged under an envelope of 1, silenced under an envelope of 0 |
| Modulation.Tremolo | uap_signal_generator.py:98-108 | the output has the shorter length of audio and oscillator, each sample is the input sample times its envelope, clipped and cast; for a depth in [0, 1] and sines in [-1, 1] no sample grows in magnitude |
| Modulation.PulseBound | uap_signal_generator.py:105-108 | one enveloped and cast sample is no louder than the input sample |
| Modulation.TremoloZeroDepthIsIdentity | uap_signal_generator.py:98-108 | at depth 0 the output is exactly the input prefix |
| Modulation.TremoloAtBufferStart | uap_signal_generator.py:97-108 | where the oscillator starts at sine 0, the first output sample is the first input sample under the envelope at sine 0, which is 1 - depth |
| Modulation.PulseAtZeroSine | uap_signal_generator.py:98-108 | at sine 0 a sample is scaled by 1 - depth, then clipped and cast |
| Modulation.FullDepthSilencesZeroCrossings | uap_signal_generator.py:98-108 | at depth 1 every sample where the sine is 0 is silenced |
| Schedule.PlaceAll | uap_signal_generator.py:200-205 | laying bursts onto a buffer keeps its length |
| Schedule.StartsFrom | uap_signal_generator.py:202-205 | the loop visits some position exactly when its current one is below the stop, and then visits the current one first |
| Schedule.Starts | uap_signal_generator.py:200-205 | bursts are placed exactly when the stop is positive, the first at offset 0 |
| Schedule.Tile | uap_signal_generator.py:200-205 | the tiling loop leaves the silent buffer with the burst overlaid at every start position, in order |
| Schedule.StartsFromShape | uap_signal_generator.py:202-205 | the loop visits `position + i * interval`, the last one below the stop and the next one not |
| Schedule.StartsCharacterised | uap_signal_generator.py:202-205 | the starts are exactly the multiples of the interval in [0, stop); none for a non-positive stop; their count is the ceiling of stop / interval |
| Schedule.StartsSpacing | uap_signal_generator.py:201-205 | the i-th start is i times the interval, so starts are an interval apart |
| Schedule.PlaceAllOnSilence | uap_signal_generator.py:200-205 | with non-overlapping bursts each sample is the burst sample under it, or silence where no burst covers it |
| Schedule.StartsSpacedFor | uap_signal_generator.py:201-205 | bursts no longer than the interval never overlap |
| Schedule.TrainContent | uap_signal_generator.py:200-225 | sample k of a train is the burst's sample k mod interval when it falls in a burst whose period began before the stop, otherwise silence |
| Schedule.TrainUnderBurst | uap_signal_generator.py:200-205 | under a placed burst the train carries the burst's sample |
| Schedule.TrainBetweenBursts | uap_signal_generator.py:200-205 | outside every placed burst the train is silent |
| Schedule.ChirpStarts | uap_signal_generator.py:200-205 | chirps start at exactly the multiples of 2000 below the duration, none for a non-positive duration, ceil(D / 2000) of them otherwise |
| Schedule.ChirpTrainRepeats | uap_signal_generator.py:193-205 | the chirp train repeats the burst in every 2000 ms period, the last included, and is silent in between |
| Schedule.PingTrainContent | uap_signal_generator.py:220-225 | the ping train carries the burst only in periods starting more than 500 ms before the end |
| Schedule.PingStarts | uap_signal_generator.py:220-225 | pings start at exactly the multiples of 3500 below D - 500, each ends before D, and none start for D <= 500 |
| Schedule.TenSecondSchedule | uap_signal_generator.py:200-225 | ten seconds give chirps at 0, 2000, 4000, 6000, 8000 and pings at 0, 3500, 7000 |
| Schedule.LastChirpMayOverrun | uap_signal_generator.py:200-205 | a 10100 ms signal gets a last chirp at 10000 whose 300 ms run past the end |
| Composer.ResolveConfig | uap_signal_generator.py:132-144 | a given configuration is used as it is; without one the defaults are 100, 7.83, 528, 17000, 2500 and 432 Hz, modulation on, foundation off, tremolo on at depth 0.5 |
| Composer.WantsMusicFoundation | uap_signal_generator.py:161 | `config.get('use_music_as_foundation')` asks for the track as foundation only when the key is present and true; an absent key reads as no |
| Composer.Loaded | uap_signal_generator.py:150-155 | no track object exists exactly for no path, a missing path or an undecodable file |
| Composer.Audible | uap_signal_generator.py:181 | a truthy track is always a loaded one |
| Composer.PresenceAndTruthiness | uap_signal_generator.py:161-256 | `music_file is not None` and `music_file` truthiness differ exactly on a decoded empty track |
| Composer.SignalDuration | uap_signal_generator.py:150-155 | the layers are built to the loaded track's length, or to the requested duration without one |
| Composer.MakePlan | uap_signal_generator.py:161-239 | the track is used only when audible, and then it is either the foundation or overlaid last, never both and never neither |
| Composer.FoundationChoice | uap_signal_generator.py:161-168 | the track is the foundation (-3 dB, Schumann -18 dB) exactly when requested and audible; otherwise the base tone is (-6 dB, Schumann -12 dB) |
| Composer.TremoloDepths | uap_signal_generator.py:171-217 | with tremolo on, the Schumann carrier and breath layer get 0.3 and 0.4 whatever the configured depth, and only the chirp follows it; with tremolo off nothing is pulsed |
| Composer.TrackUse | uap_signal_generator.py:181-240 | modulation is applied exactly when the track is audible and modulation is enabled; the track is overlaid exactly when audible and not the foundation |
| Composer.Describe | uap_signal_generator.py:246-261 | the metadata reports the tremolo switch and rate, and the fixed enhancement, attention and life-indicator layer lists |
| Composer.MetadataMatchesPlan | uap_signal_generator.py:246-257 | the foundation label names the track exactly when the plan uses it; `music_as_foundation` echoes the configuration; `music_modulation` matches the applied modulation unless the track is empty |
| Composer.EmptyTrackReportedAsModulating | uap_signal_generator.py:181-256 | an empty loaded track is reported as modulating though no modulation is applied |
| Composer.MissingTrackIsNoTrack | uap_signal_generator.py:150-155 | a path that does not exist gives the same metadata as no path: requested duration, no music modulation |
| Composer.TrackOverridesDuration | uap_signal_generator.py:150-152 | a loaded track's length replaces the requested duration |
| Composer.TenSecondScenarioMetadata | uap_signal_generator.py:246-261 | the ten-second, no-track scenario yields the tone foundation, no music modulation and tremolo at 7.83 |
| Composer.DefaultConfigPlan | uap_signal_generator.py:132-144 | without a configuration a track modulates and is overlaid, the tones are the foundation, and the depths are 0.3, 0.5 and 0.4 |
| Composer.OverlayAll | uap_signal_generator.py:231-240 | mixing layers keeps the foundation's length |
| Composer.Mix | uap_signal_generator.py:231-240 | the composite is the foundation overlaid with Schumann, DNA-repair, ambient, breath, chirps, pings, then the track if it is overlaid, in that order |
| Composer.MixIsSumWithoutClipping | uap_signal_generator.py:231-240 | where no partial sum saturates, a mixed sample is the plain sum of the layers' samples |
| Composer.MixOrderMatters | uap_signal_generator.py:231-236 | saturation makes the mix order observable: the same two layers in the two orders give different samples |
| Composer.Pulse | uap_signal_generator.py:92-108 | a pulsed layer keeps its length when the oscillator gives one value per sample |
| Composer.Pulsed | uap_signal_generator.py:171-172 | a layer without a tremolo depth is left exactly as it is; a pulsed one keeps its length |
| Composer.Gain | uap_signal_generator.py:163 | applying a gain keeps the segment's length under length-keeping synthesis |
| Composer.Tone | uap_signal_generator.py:164-168 | a gained sine tone lasts the requested duration, none for a non-positive one |
| Composer.BreathNoise | uap_signal_generator.py:211-214 | the low-passed, gained noise lasts the requested duration |
| Composer.MixOrder | uap_signal_generator.py:231-240 | the layers go Schumann, DNA-repair, ambient, breath, chirps, pings, then the track when it is overlaid: six layers, or seven with the track |
| Composer.LayersFollow | uap_signal_generator.py:160-240 | named layers built as the plan says carry the track only when it is audible, and never when it is the foundation |
| Composer.FollowsPlan | uap_signal_generator.py:160-240 | a layer list built as the plan says has seven layers when the track is overlaid and six otherwise |
| Composer.PulseAtBufferStart | uap_signal_generator.py:92-108 | for an oscillator starting at sine 0, the first sample of a pulsed layer is its first sample under the envelope 1 - depth |
| Composer.PulsedNeverLouder | uap_signal_generator.py:92-108 | with a depth in [0, 1] and an oscillator in [-1, 1], pulsing keeps the length and never makes a sample louder |
| Composer.PlanDepthsInUnit | uap_signal_generator.py:171-217 | with a configured depth in [0, 1] every depth the plan uses lies in [0, 1] |
| Composer.EnhancementLayers | uap_signal_generator.py:181-186 | without modulation the tones pass unchanged; with it the result exists exactly when both modulations succeed and holds the two modulated tones |
| Composer.AttentionBursts | uap_signal_generator.py:192-225 | the chirp train is the (pulsed) 300 ms chirp at every start below the duration, 2000 ms apart, and the ping train the 500 ms ping at every start below the duration less 500, 3500 ms apart, each on silence |
| Composer.MixOrderFollowsPlan | uap_signal_generator.py:160-240 | layers built as the plan says, put in mixing order, satisfy `FollowsPlan` |
| Composer.PlannedLayersNeverLouder | uap_signal_generator.py:170-217 | for every configuration, in a signal built by the plan the Schumann carrier and breath layer (fixed depths 0.3 and 0.4) are nowhere louder than the tone and noise they pulse |
| Composer.Generate | uap_signal_generator.py:118-263 | an undecodable track fails, and a failed modulation fails only when the plan modulates; a success carries exactly the described metadata and is the foundation overlaid with the layers in mixing order, where (`FollowsPlan`) the foundation is the gained track or base tone, the Schumann carrier and breath are pulsed at the plan's depths, the enhancement tones are track-modulated exactly when the plan says, the trains are the tiled chirp and ping, and the track comes last at -3 dB exactly when overlaid; with length-keeping synthesis it succeeds for every other track and lasts the reported duration |
| Presets.Keys | signal_presets.py:111-113 | one key per entry, in table order |
| Presets.Lookup | signal_presets.py:103 | finds nothing exactly when the key is absent, and otherwise a value stored under that key |
| Presets.LookupFindsEntry | signal_presets.py:103 | with distinct keys the lookup of an entry's key returns that entry's value |
| Presets.ToMap | signal_presets.py:7-98 | the dictionary's keys are exactly the table's keys, each findable by lookup |
| Presets.MapHoldsEntries | signal_presets.py:7-98 | with distinct keys the dictionary stores each entry's value under its key |
| Presets.GetPreset | signal_presets.py:101-103 | a known name gives its own entry and any other name the original_uap entry |
| Presets.GetAllPresets | signal_presets.py:106-108 | the dictionary has exactly the six keys |
| Presets.GetPresetNames | signal_presets.py:111-113 | the names are the keys in definition order |
| Presets.GetPresetOfKey | signal_presets.py:101-108 | every key finds its own entry through `get_preset` and through the dictionary |
| Presets.PresetKeysDistinct | signal_presets.py:7-98 | no key occurs twice |
| Presets.PresetNamesInOrder | signal_presets.py:111-113 | the names are original_uap, music_enhanced, harmonic_focus, earth_heartbeat, pure_carriers, biological_mimic |
| Presets.UnknownNameFallsBack | signal_presets.py:103 | an unknown name yields the original_uap entry and never fails |
| Presets.PresetDepthsInUnit | signal_presets.py:7-98 | every tremolo depth lies in [0, 1] |
| Presets.PresetSettings | signal_presets.py:7-98 | the presets' modulation switch, tremolo switch and depth are, in order, (off, on, 0.5), (on, on, 0.5), (on, on, 0.3), (off, on, 0.7), (off, off, 0.0), (on, on, 0.6), and none sets the foundation flag |
| Presets.OnlyPureCarriersLacksTremolo | signal_presets.py:68-82 | pure_carriers is the only preset with tremolo off, and its depth is 0 |
| Presets.PresetsNeverUseMusicFoundation | signal_presets.py:7-98 | no preset sets the foundation flag, so under a preset the track is never the foundation and the metadata reports it false |
| Presets.PresetsShareFrequencies | signal_presets.py:7-98 | every preset has the six carrier frequencies of the default configuration |
| Presets.MusicEnhancedIsDefaultPlan | signal_presets.py:23-37 | music_enhanced yields the same layer plan as the default configuration |
| Uploads.Lower | app.py:28 | lower-casing keeps the length and maps each upper-case ASCII letter to its lower-case form |
| Uploads.Recognised | app.py:24-28 | an extension passes when its lower-case form is one of the five; a passing one has three or four characters and no dot |
| Uploads.LastDot | app.py:28 | finds nothing exactly when the name has no dot, and otherwise the position of its last dot |
| Uploads.Extension | app.py:28 | the split's second part is the dot-free text after the last dot |
| Uploads.AllowedFile | app.py:27-28 | a name is accepted exactly when it has a last dot and the lower-cased text after it is one of mp3, mp4, wav, flac, m4a |
| Uploads.NoDotRejected | app.py:28 | a name without a dot is rejected |
| Uploads.OnlyLastExtensionCounts | app.py:28 | whatever precedes the last dot, the verdict depends only on the text after it |
| Uploads.ExampleExtensions | app.py:24-28 | `MP3`, `flac` and `wav` are recognised (case ignored); `exe` and the empty extension are not |
| Uploads.UppercaseAccepted | app.py:24-28 | song.MP3 is accepted: case is ignored |
| Uploads.InnerDotIgnored | app.py:24-28 | a.b.flac is accepted: only the text after the last dot is looked at |
| Uploads.BareExtensionAccepted | app.py:24-28 | the bare name .wav is accepted |
| Uploads.RejectedExamples | app.py:24-28 | after any stem, `.wav.exe` and `.wav.` are rejected: a.wav.exe and file.wav. |
| Waveform.FloorDiv | app.py:185 | the quotient is rounded toward negative infinity for either sign of divisor |
| Waveform.Stride | app.py:185 | fails exactly for zero samples; otherwise the stride is at least 1, is 1 when the input is shorter than the sample count or the count is negative, and is the floor quotient otherwise |
| Waveform.Downsample | app.py:186 | the i-th value is the input's value at i times the step, and there are just enough values to cover the input (the ceiling of n / step) |
| Waveform.DownsampleByOne | app.py:185-186 | a stride of one keeps every sample |
| Waveform.Peak | app.py:190 | the peak bounds every magnitude, is reached by some sample, and is positive unless the values are all equal |
| Waveform.DivideBy | app.py:190 | true division: each result scaled back by the divisor gives the input value |
| Waveform.DivideAll | app.py:190 | dividing by a bound on the magnitudes gives values in [-1, 1] that scale back to the input, with magnitude 1 where the bound is reached |
| Waveform.Normalise | app.py:189-192 | all-equal values are returned unchanged; otherwise they are divided by the peak, and one of them has magnitude 1 |
| Waveform.GetWaveformData | app.py:180-194 | fails on zero samples or an empty segment and succeeds otherwise, with one value per downsampled sample |
| Waveform.PreviewSize | app.py:185-186 | the preview has at most as many values as the segment has samples, and at least `samples` of them once the segment is that long |
| Waveform.ShortAudioKeptWhole | app.py:185-186 | a segment shorter than the sample count is normalised whole |
| Waveform.ConstantAudioUnscaled | app.py:189-192 | a constant segment, silence included, is returned as it is, not scaled |
| Waveform.PreviewSpansUnitRange | app.py:189-190 | a non-constant preview lies in [-1, 1] and touches one of its ends |
| Waveform.WrappingAbs | app.py:190 | numpy's int16 `abs` is the magnitude except at -32768, which it leaves as is |
| Waveform.PeakAsWritten | app.py:190 | the int16 peak agrees with the true peak when -32768 does not occur |
| Waveform.NormaliseAsWritten | app.py:189-192 | the normalisation as written agrees with the corrected one when -32768 does not occur |
| Waveform.GetWaveformDataAsWritten | app.py:180-194 | the preview as written agrees with the corrected one for every segment without -32768 |
| Waveform.MinimumSampleLeavesUnitRange | app.py:190 | [-32768, 16384] gives [-2.0, 1.0] as written and [-1.0, 0.5] corrected |
| Waveform.MinimumSampleDividesByZero | app.py:190 | [0, -32768] divides by zero as written and gives [0.0, -1.0] corrected |

## Left out

- Tone and noise synthesis, `low_pass_filter` and `apply_gain` are parameters of `Composer.Synth`. They are library code over floating point and are not visible here.
- pydub's channel, sample-width and frame-rate harmonisation (`set_channels`, `set_frame_rate`, overlay's internal sync) is not modelled. Every buffer is mono on a one-sample-per-millisecond grid.
- The oscillator's length `int(duration_ms / 1000 * sample_rate)` is taken to equal the buffer's: `Composer.Pulse` asks the oscillator for one value per sample. On the one-sample-per-millisecond grid this is the source's `min_len` only at a 1000 Hz frame rate; at other rates the source cuts the pulsed layer to the shorter of the two, which the model does not capture. `Modulation.Tremolo` itself still takes any oscillator length and cuts to the shorter one. The sine values are an input sequence, and the bounds are proved under the hypothesis that they lie in [-1, 1].
- float32 rounding is not modelled. Factors and envelopes are exact reals, and only the final clip and cast to int16 are modelled exactly.
- Composer.Generate: states how the signal is composed from the library's outputs (which tone, noise, gain, pulse, modulation and tiling makes each layer, and the mix order), not the sample values of those outputs, because tone and noise synthesis, filtering and gain are `Synth` parameters.
- Composer.KeepsLengths: takes a negative duration to give an empty buffer. pydub raises on a negative duration instead, so for a negative requested duration without a track the model succeeds with an empty signal where the source fails.
- Composer.Oscillates: the oscillator's values in [-1, 1], starting at sin 0 = 0, are a hypothesis about the `Synth` value, not derived from `np.linspace` and `np.sin`.
- Missing configuration keys (`KeyError`) and values of the wrong type are not modelled. `Composer.Config` has every key, and only `use_music_as_foundation` may be absent.
- The track is given as its loading outcome (`Composer.TrackProbe`). `os.path.exists` and the decoder are I/O.
- Modulation.Tremolo: every output sample is stated as `PulseSample(audio[i], depth, sine[i])` at every depth; only the magnitude bound (no sample grows) is stated for depths in [0, 1] and sines in [-1, 1] alone, because outside that range the envelope can exceed 1 and the bound does not hold.
- Uploads.Lower: lower-cases ASCII letters only, where Python lower-cases all of Unicode. The only non-ASCII characters whose lower case contains an ASCII letter are the Kelvin sign (to `k`) and the dotted capital I (to `i` plus a combining dot). Neither can complete an accepted extension, so the verdict is the same.
- `get_waveform_data` is modelled for 16-bit segments, which is what the generator produces. Segments of other sample widths are not modelled.
- The non-finite values that numpy produces on a zero divisor become the `NonFinite` error. The all-equal branch returns integers in Python and the same values as reals here.
- The ffmpeg path probing, `progress_callback`, the `__main__` blocks, the Flask route handlers, file saving, the dashboard script and the separate analyser, sweep and Pleiadian scripts are not part of this model. They are I/O, user interface or fixed sequences of library calls.

## Findings

| source | as written | input that shows it | evidently intended | confidence | as-written member | corrected member |
|---|---|---|---|---|---|---|
| app.py:190 | the peak is `max(abs(max), abs(min))` on numpy int16 scalars, where `abs(-32768)` wraps to -32768, so a -32768 minimum is ignored | a segment whose samples are [-32768, 16384] previews as [-2.0, 1.0], outside [-1, 1]; [0, -32768] divides by zero | divide by the true peak magnitude (32768 here), so the preview lies in [-1, 1] | high, not executed | Waveform.GetWaveformDataAsWritten | Waveform.GetWaveformData |
