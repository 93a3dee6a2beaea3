# RetroPlayer audio bridge, modelled in Dafny

Kodi's RetroPlayer feeds raw PCM from an emulator core to Kodi's audio engine
through `CRetroPlayerAudio`. The engine opens streams only at a few fixed sample
rates and the bridge never resamples. The bridge therefore does three things:

- It normalises a core-reported rate onto a fixed table (5512, 8000, 11025, 16000,
  22050, 32000, 44100, 48000). It uses the result only to reject rates that are not
  exactly in the table.
- It owns at most one engine stream. Opening first closes the old stream. Closing
  frees the stream and forgets it. The destructor always closes.
- It relays PCM buffers to the open stream as whole frames while audio is enabled.

The project has three modules:

- `SampleRate` (`samplerate.dfy`) holds the table and the scan. `NormalizeSamplerate`
  is the pointer loop as written. The recursive function `NormalizeFrom` specifies it
  (through `NormalizedRate`). `NormalizeFrom` is defined over any rate list. Its
  lemmas hold for every "well-spaced" list: entries positive, each at least two above
  every one before it. They relate the scan to an independent band characterisation: each
  entry serves the rates from the floored midpoint below it (inclusive) to the floored
  midpoint above it (exclusive). `SupportedRatesWellSpaced` shows that the source's
  table is well spaced. The gap of two matters: with neighbours one hertz apart, the
  lower entry equals the floored midpoint and is mapped to the higher one
  (`CloseNeighboursBreakFixedPoint`).
- `AudioEngine` (`audio_engine.dfy`) holds the collaborators as the bridge sees them:
  - a stream factory whose `MakeStream` may return null;
  - streams that record the frame counts they receive;
  - a process-info record that keeps the last values reported to it.

  Ghost fields record the engine's live streams and the history of make and free
  calls.
- `RetroPlayer` (`retro_player_audio.dfy`) holds the bridge class
  `RetroPlayerAudio`. Its invariant `Valid()` says two things. First, streams created
  equal streams freed, plus one while a stream is held. Second, the held stream is
  still live in the engine. The module also holds the frame arithmetic of `AddData`,
  and a client method `ReopenCloseDestroy` that uses the contracts.

Three behaviours of the code are worth stating outright, and the model follows each:

- The scan tests a strict `<` against the floored midpoint, so an exact midpoint goes
  to the higher rate: 46050 gives 48000, and 9512 gives 11025.
- `OpenEncodedStream` returns `true`, although it opens nothing and supports no
  encoded format.
- `AddData` divides by the frame size with no guard against zero, so the model's
  `AddData` requires a non-zero frame size.

Because the midpoint is floored, the chosen rate is the nearest table entry to within
one hertz, not always the nearest. At 9512 Hz, 8000 is one hertz nearer than the
chosen 11025, and at 13512 Hz, 11025 is one hertz nearer than the chosen 16000.
`NormalizeNearest` states the bound and `FlooredMidpointRoundsUp` shows that
the bound is tight.

## Model

| member | source | states |
|---|---|---|
| `SampleRate.NormalizeFrom` | xbmc/cores/RetroPlayer/RetroPlayerAudio.cpp:54-70 | the scan over a sentinel-terminated list, started at entry i, returns an entry at or after i, and never the 0 sentinel |
| `SampleRate.NormalizedRate` | xbmc/cores/RetroPlayer/RetroPlayerAudio.cpp:52-70 | the normalised rate is always one of the eight table entries and never 0 |
| `SampleRate.NormalizeSamplerate` | xbmc/cores/RetroPlayer/RetroPlayerAudio.cpp:49-73 | the pointer loop over the sentinel-terminated list returns exactly `NormalizedRate(samplerate)`, a table entry. The loop never runs past the sentinel and has no normal exit, so the fallback after it is unreachable |
| `SampleRate.SupportedRatesWellSpaced` | xbmc/cores/RetroPlayer/RetroPlayerAudio.cpp:52 | the table's entries are positive and each is at least two above every one before it |
| `SampleRate.EntryInsideBand` | xbmc/cores/RetroPlayer/RetroPlayerAudio.cpp:65 | in a well-spaced list, each entry lies strictly between the floored midpoints of its two pairs |
| `SampleRate.MidpointsIncrease` | xbmc/cores/RetroPlayer/RetroPlayerAudio.cpp:65 | the floored pair midpoints of a well-spaced list strictly ascend |
| `SampleRate.CloseNeighboursBreakFixedPoint` | xbmc/cores/RetroPlayer/RetroPlayerAudio.cpp:65 | why the gap of two is required: in the list 5, 6 the entry 5 equals the floored midpoint and is normalised to 6 |
| `SampleRate.BelowMidpointNoLaterBand` | xbmc/cores/RetroPlayer/RetroPlayerAudio.cpp:65-68 | in a well-spaced list, a rate below the midpoint above entry i lies in no later entry's band, and entry i differs from every later one |
| `SampleRate.ScanPastEntry` | xbmc/cores/RetroPlayer/RetroPlayerAudio.cpp:54-70 | a scan that has moved past entry i never returns entry i |
| `SampleRate.NormalizeFromBandStep` | xbmc/cores/RetroPlayer/RetroPlayerAudio.cpp:59-68 | the band characterisation where the scan stops at once (the last entry, or a rate below the midpoint above entry i) or where entry i itself is asked about |
| `SampleRate.NormalizeFromBand` | xbmc/cores/RetroPlayer/RetroPlayerAudio.cpp:54-70 | a scan that has passed the midpoints below index i stops on entry k if and only if the rate lies in k's band |
| `SampleRate.NormalizeIsBandEntry` | xbmc/cores/RetroPlayer/RetroPlayerAudio.cpp:59-69 | the rate normalises to entry k if and only if it is at or above the floored midpoint below k and strictly below the floored midpoint above k |
| `SampleRate.NormalizeFixedPointIffEntry` | xbmc/cores/RetroPlayer/RetroPlayerAudio.cpp:52-70 | for any well-spaced list, normalising leaves a rate unchanged if and only if the rate is an entry; so the rate itself is never returned unless it is an entry |
| `SampleRate.NormalizeIdempotent` | xbmc/cores/RetroPlayer/RetroPlayerAudio.cpp:52-70 | normalising twice gives the same result as normalising once |
| `SampleRate.NormalizeNearest` | xbmc/cores/RetroPlayer/RetroPlayerAudio.cpp:65-69 | the chosen entry is at most one hertz farther from the rate than any other entry |
| `SampleRate.NormalizedFixedPointIffSupported` | xbmc/cores/RetroPlayer/RetroPlayerAudio.cpp:83 | the rates that pass the bridge's resampling check are exactly the eight table entries |
| `SampleRate.LowRatesGoToFirstEntry` | xbmc/cores/RetroPlayer/RetroPlayerAudio.cpp:65-68 | every rate below 6756, zero included, gives 5512 |
| `SampleRate.HighRatesClampToLastEntry` | xbmc/cores/RetroPlayer/RetroPlayerAudio.cpp:59-63 | every rate at or above 46050 gives 48000: a ceiling clamp, not a failure |
| `SampleRate.ExactMidpointGoesUp` | xbmc/cores/RetroPlayer/RetroPlayerAudio.cpp:65-69 | an exact floored midpoint goes to the higher neighbour: 46050 gives 48000 and 9512 gives 11025 |
| `SampleRate.BelowMidpointGoesDown` | xbmc/cores/RetroPlayer/RetroPlayerAudio.cpp:65-68 | one hertz below a midpoint goes to the lower neighbour: 46049 gives 44100 and 9511 gives 8000 |
| `SampleRate.FlooredMidpointRoundsUp` | xbmc/cores/RetroPlayer/RetroPlayerAudio.cpp:65 | for the source's table the one hertz is needed: the rate 9512 is normalised to an entry farther from it than 8000 is |
| `RetroPlayer.FrameCount` | xbmc/cores/RetroPlayer/RetroPlayerAudio.cpp:121-122 | when the quotient fits an unsigned int, the frames forwarded cover at most `size` bytes, and the bytes dropped are `size % frameSize`, less than one frame |
| `RetroPlayer.TenBytesOfStereo16AreTwoFrames` | xbmc/cores/RetroPlayer/RetroPlayerAudio.cpp:121-122 | two 16-bit channels give a 4-byte frame, and 10 bytes give 2 frames |
| `RetroPlayer.RetroPlayerAudio.constructor` | xbmc/cores/RetroPlayer/RetroPlayerAudio.cpp:34-40 | a new bridge holds no stream, has audio enabled, has created and freed nothing, and is `Valid()` |
| `RetroPlayer.RetroPlayerAudio.Destroy` | xbmc/cores/RetroPlayer/RetroPlayerAudio.cpp:42-47 | destruction closes: afterwards no stream is held, created equals freed, and a held stream has been freed exactly once |
| `RetroPlayer.RetroPlayerAudio.OpenPCMStream` | xbmc/cores/RetroPlayer/RetroPlayerAudio.cpp:75-106 | any previously held stream is freed exactly once, and before anything else happens. The engine is asked for a stream with exactly the requested format if and only if the rate is a table entry; any other rate is refused without asking. False leaves no stream held, no stream created and process info untouched, so for a table rate it means the factory returned null. True means: the rate is a table entry; a fresh stream with exactly the requested format is held; the engine's history is the optional free followed by one make; process info received the layout, the rate and the format's used bits. `Valid()` is kept, so created minus freed is at most one |
| `RetroPlayer.RetroPlayerAudio.OpenEncodedStream` | xbmc/cores/RetroPlayer/RetroPlayerAudio.cpp:108-113 | always returns true; it has no modifies clause, so the stream and the enabled flag stay as they were |
| `RetroPlayer.RetroPlayerAudio.AddData` | xbmc/cores/RetroPlayer/RetroPlayerAudio.cpp:115-125 | when audio is disabled or no stream is open, nothing is forwarded. Otherwise the stream receives exactly one batch at offset 0 of `size / (channels * (bits >> 3))` frames, floored and narrowed to unsigned int. Nothing else changes |
| `RetroPlayer.RetroPlayerAudio.CloseStream` | xbmc/cores/RetroPlayer/RetroPlayerAudio.cpp:127-136 | a held stream is freed once and then forgotten. With no stream held, nothing is freed, so a second call is a no-op. The enabled flag and the created count are unchanged |
| `AudioEngine.Engine.MakeStream` | xbmc/cores/RetroPlayer/RetroPlayerAudio.cpp:93 | every call is recorded as a request for its format; the factory then either fails (null, nothing else recorded) or returns a fresh stream with the requested format, now live and recorded as made |
| `AudioEngine.Engine.FreeStream` | xbmc/cores/RetroPlayer/RetroPlayerAudio.cpp:133 | only a live stream can be freed; it stops being live and is recorded as freed, so no stream is freed twice |
| `AudioEngine.AudioStream.AddData` | xbmc/cores/RetroPlayer/RetroPlayerAudio.cpp:122 | the stream records the offset and the frame count of each batch it receives |
| `AudioEngine.ProcessInfo.SetAudioChannels` | xbmc/cores/RetroPlayer/RetroPlayerAudio.cpp:101 | the last reported channel layout is the one given; the other reports are unchanged |
| `AudioEngine.ProcessInfo.SetAudioSampleRate` | xbmc/cores/RetroPlayer/RetroPlayerAudio.cpp:102 | the last reported sample rate is the one given; the other reports are unchanged |
| `AudioEngine.ProcessInfo.SetAudioBitsPerSample` | xbmc/cores/RetroPlayer/RetroPlayerAudio.cpp:103 | the last reported bit depth is the one given; the other reports are unchanged |

## Left out

- Logging (`CLog::Log`) is left out. It is diagnostics only and changes no state or result.
- The audio engine's internals are left out: device choice, buffering and timing in
  `MakeStream`, `FreeStream` and the stream's `AddData`. The model keeps only the
  factory's possible failure, the live set, the make/free history and the frame counts
  each stream receives. Whether `MakeStream` succeeds is an unconstrained choice.
- The engine comes from a process-wide service locator in the source. Here it is
  passed to the constructor. A stream's format is the one requested, so the engine
  cannot adjust the format in the model.
- `CAEUtil::DataFormatToBits` and `DataFormatToUsedBits` are not computed. Each
  `DataFormat` carries its total bits and used bits as fields. A `CAEChannelInfo` is
  reduced to its list of channel identifiers, and only its length is used.
- Process-info setters only record the last value reported, in ghost fields.
- The PCM bytes and the pointer passed on are left out. Only the byte count matters,
  and the offset passed is always 0.
- Threading is left out. The bridge does no locking, and its callers serialise calls.
- The switch that sets `audioEnabled` is not part of this model. The flag is a public
  field that the owner may assign; the bridge only reads it.
- The destructor is the method `Destroy`, which callers invoke explicitly.
- `NormalizeSamplerate` takes an unsigned rate; here it is a `nat`. Every pair sum
  in the table is far below 2^32, so no wrap-around can occur in the midpoint, and
  all results hold for every `nat`.
- `FrameSize` includes the unsigned-int wrap of the product. `AddData` requires the
  wrapped frame size to be non-zero, because the source divides by it unguarded.
- `OpenEncodedStream` ignores its codec, rate and layout, as the source does.
