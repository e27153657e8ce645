# A verified model of the in-ear monitor mixer's core

A Dafny project that models the parts of the system whose correctness is a matter of state
carried over many calls, and proves what they promise. `dafny verify dfyconfig.toml` checks
all of it.

* **Equalizer** (`Ramps`, `Svf`, `Designs`, `Damping`, `Rbj`, `CookbookNote`, `Bands`,
  `Equalizers`, `Cascades`, `EqualizerUnit`). Five bands, each a state-variable filter whose parameters
  glide. Proved: an energy argument for any sequence of coefficients, and exactly which
  filters stay bounded; which Audio EQ Cookbook biquad every band is, and exactly when it is
  the one of the Note; a resting band has exactly its target's filter and a gliding one is
  redesigned only on schedule; the engine's "skip me" fast path is indistinguishable from
  processing; where a block is cut never shows; a block is the cascade of those biquads.
* **Pan law and offline runner** (`Pan`, `Offline`, `OfflineEqualizer`). The interpolated
  magnitude is non-increasing on the whole range and hits every measured node; a render does
  not depend on the block size, and a fault keeps what came before it.
* **WAV codec** (`Wav`, `WavFormats`). What is written reads back bit for bit, with any unknown chunks put
  in between; every supported format reads as the numbers it encodes.
* **Talkback sessions** (`Talkback`). Starts, stops and errors interleave at every await; in
  every reachable state a stopped session holds nothing live.
* **Live guard** (`LiveGuard`). A trip is never an artefact of when a read was taken, and the
  pruned window decides exactly as the whole history would.
* **Denylist scan** (`Segments`, `Units`, `Lines`, `Runs`, `Blobs`, `Containers`,
  `ContainerDefects`, `ContainerReader`). Chunked reading gives the units, numbers and keys of the whole content;
  no short stretch is lost between segments; nested containers stay inside one budget and
  nothing is skipped in silence.
* **Band data** (`BandNames`, `BandDisk`, `BandPlaces`, `BandReceive`). Whatever call fails,
  every entry that was on the box is still there whole.
* **Restart budget and HIL job** (`RestartBudget`, `HilLog`, `HilProcedure`, `HilJob`, `HilRuns`). No window of the
  unit's interval holds more asked starts than its burst, and exactly when that holds; every
  path of a run follows the procedure, an automaton over its log, and undoes what it did; any sequence of runs stays within the budget.

Conventions. A 64-bit float is a `real`, except in `Wav`, where it is its bit pattern. An
object whose fields the program updates is a class whose methods are proved against functions
on values; the theorems are about those functions. Calls to the box, the disk, the browser
and the network succeed, fail or raise nondeterministically. Transcendental functions are
fields of a `Maths` value, of which only the identities used are required. State invariants
(`Good`, `Sound`, `Valid`) are met by every constructor and kept by every operation, so the
theorems that ask for them hold of every reachable state. `Options`, `Reals` and `Seqs` hold
what several modules share.

## Model

| member | source | states |
|---|---|---|
| `Ramps.RunKeepsValid` | crates/iem-dsp/src/ramp.rs:53-79 | every run of sets and ticks keeps a ramp either resting exactly on its target or exactly as many equal steps away from it as it has left |
| `Ramps.RunTowardsTarget` | crates/iem-dsp/src/ramp.rs:68-79 | with no new target on the way the k-th tick is exactly k steps on, and every later one rests exactly on the target |
| `Ramps.LandsAfterLen` | crates/iem-dsp/src/ramp.rs:53-79 | a ramp lands exactly on its last new target after `len` ticks, not before, whatever sets of the same target come in between |
| `Ramps.TickBetween` | crates/iem-dsp/src/ramp.rs:69-79 | a tick stays between where the ramp was and its target |
| `Ramps.Ramp.Set` | crates/iem-dsp/src/ramp.rs:54-61 | the same target changes nothing; a new one restarts the full length from the current value |
| `Ramps.Ramp.Jump` | crates/iem-dsp/src/ramp.rs:64-66 | rests at the value at once, its length kept |
| `Ramps.Ramp.Tick` | crates/iem-dsp/src/ramp.rs:69-79 | one sample on; returns the value reached, the target itself on the last step |
| `Svf.Trapezoid` | crates/iem-dsp/src/eq.rs:178-185 | the band-pass and low-pass a tick computes are the solution of the two implicit integrator equations |
| `Svf.EnergyBalance` | crates/iem-dsp/src/eq.rs:109-122 | the state's energy after an unflushed tick is the old one plus 4g(v·x − k·v²), exactly |
| `Svf.FlushLowersEnergy` | crates/iem-dsp/src/eq.rs:188-190 | flushing denormals only lowers the energy |
| `Svf.TickEnergy` | crates/iem-dsp/src/eq.rs:178-190 | one tick with g, k ≥ 0 adds no energy on zero input, and at most g·x²/k otherwise when k > 0 |
| `Svf.RunEnergy` | crates/iem-dsp/src/eq.rs:178-190 | with coefficients that may change every sample a whole run is bounded by the energy at its start plus the sum of g·x²/k |
| `Svf.SilenceNeverRings` | crates/iem-dsp/src/eq.rs:178-190 | on silence the energy never rises over any run, damped or not |
| `Svf.UndampedKeepsEnergy` | crates/iem-dsp/src/eq.rs:109-122 | while the band-pass moves, a silent tick keeps the energy exactly if and only if k is 0 |
| `Designs.Design` | crates/iem-dsp/src/eq.rs:124-164 | every valid band at every setting gets a passive filter (consistent coefficients, g > 0, k ≥ 0); which filter of its own frequency, bandwidth and gain is `Rbj.EveryKindIsCookbook` |
| `Designs.ShelfDamped` | crates/iem-dsp/src/eq.rs:153-163 | a shelf is damped (k > 0) if and only if its cookbook radicand is positive before it is clipped at 0 |
| `Designs.DampedExactly` | crates/iem-dsp/src/eq.rs:124-164 | a designed band is damped (k > 0) if and only if it is a high-pass, a notch or a peak, or a shelf with a positive radicand |
| `Designs.SteepCutIsUndamped` | crates/iem-dsp/src/eq.rs:154-156 | a shelf of bandwidth 0.9 or less cut to 1/256 or less has k = 0: the input bound g·x²/k does not apply to it |
| `Svf.UndampedIsUnbounded` | crates/iem-dsp/src/eq.rs:178-190 | no bound on the input bounds an undamped filter: past every energy there is an input that never exceeds 1, flush included, unless a full-scale sample itself drowns in the flush |
| `Designs.SteepCutIsUnbounded` | crates/iem-dsp/src/eq.rs:153-163 | so it is for every such shelf |
| `Damping.SkewBalance` | crates/iem-dsp/src/eq.rs:178-185 | the exact balance of a skewed energy over one unflushed tick: what the input brings less a loss that grows with both outputs |
| `Damping.DampedIsBounded` | crates/iem-dsp/src/eq.rs:178-190 | with g, k > 0 one bound, given in g and k alone, holds for every input of any length that never exceeds 1, flush included |
| `Damping.BoundedExactly` | crates/iem-dsp/src/eq.rs:178-190 | a filter that a full-scale sample moves beyond the flush is bounded on full-scale input if and only if k > 0 |
| `Damping.DesignBoundedExactly` | crates/iem-dsp/src/eq.rs:124-164 | such a band is bounded if and only if it is no shelf, or one with a positive radicand |
| `Rbj.RatiosDecide` | crates/iem-dsp/src/eq.rs:1-4 | two biquads with proportional coefficients give the same output for every input |
| `Rbj.FilterIsBiquad` | crates/iem-dsp/src/eq.rs:178-185 | from rest any passive filter answers every input as the direct-form biquad of its bilinear transfer function does |
| `Rbj.HighPassBand` | crates/iem-dsp/src/eq.rs:144-144 | the high-pass design is the cookbook high-pass of the same angle and alpha |
| `Rbj.NotchBand` | crates/iem-dsp/src/eq.rs:145-145 | a peak at gain 0 is the cookbook notch |
| `Rbj.PeakBand` | crates/iem-dsp/src/eq.rs:146-150 | a peak at positive gain is the cookbook peaking filter |
| `Rbj.LowShelfBand` | crates/iem-dsp/src/eq.rs:157-158 | the low shelf, its g divided by the root of A, is the cookbook low shelf |
| `Rbj.HighShelfBand` | crates/iem-dsp/src/eq.rs:159-160 | the high shelf, its g multiplied by the root of A, is the cookbook high shelf |
| `Rbj.EveryKindIsCookbook` | crates/iem-dsp/src/eq.rs:124-164 | every valid band, at every setting and rate, answers every input from rest exactly as the Audio EQ Cookbook biquad of its kind in direct form, while no state is flushed: w0 is 2π·freqHz/fs for 20 ≤ freqHz ≤ 24000 and freqHz ≤ 0.49·fs and the nearest end outside; the bandwidth is bwOct between 0.01 and 4, the gain gainLin up to 4; alpha is the Note's formula with the warp stopped at π/2 and a negative slope term taken as 0 |
| `CookbookNote.NoteExactly` | crates/iem-dsp/src/eq.rs:124-164 | a band is the Note's own filter of those settings, with the Note's own alpha, if and only if: its angle is at most π/2, or it is a peak of gain 1 (high-pass, notch, peak); its slope term is not negative (shelves) |
| `CookbookNote.AnotherAlphaShows` | crates/iem-dsp/src/eq.rs:135-150 | with any larger alpha a high-pass, notch or peak that is not flat already answers one loud sample differently |
| `Bands.SetIsGood` | crates/iem-dsp/src/eq.rs:261-281 | a set keeps the band's invariant: ramps lead to the target's keys, at rest the filter is the target's, bypassed the state is zero |
| `Bands.SetTakes` | crates/iem-dsp/src/eq.rs:261-281 | a set's band becomes the target and a new glide's samples count from 0; a heard band of the same kind keeps its state and its present settings, another starts from zero state at the new ones |
| `Bands.SetSettles` | crates/iem-dsp/src/eq.rs:261-313 | after a set and `len` samples without another, whatever was played and cleared, the band has exactly the filter of the set settings and is wholly heard or bypassed |
| `Bands.GlideStaysBetween` | crates/iem-dsp/src/eq.rs:228-240 | a gliding band's frequency, gain and bandwidth lie between the old and the new settings at every sample |
| `Bands.AdvanceIsGood` | crates/iem-dsp/src/eq.rs:287-313 | so does a sample's advance, landing and bypass included |
| `Bands.RunKeepsGood` | crates/iem-dsp/src/eq.rs:242-326 | so does any interleaving of sets, advances, samples and resets |
| `Bands.RestIsExact` | crates/iem-dsp/src/eq.rs:261-313 | after any interleaving a band at rest has exactly the filter and keys of its target, and a bypassed one has no state |
| `Bands.RedesignsOnlyOnSchedule` | crates/iem-dsp/src/eq.rs:287-313 | between sets the filter changes only while the band moves, on a step divisible by 16 or on the one that lands |
| `Bands.GlideTicks` | crates/iem-dsp/src/eq.rs:291-295 | the three ramps of a gliding band tick together, once a sample |
| `Bands.GlideIsShort` | crates/iem-dsp/src/eq.rs:295-295 | a glide is over within its length, long before the step counter wraps |
| `Bands.GlideSchedule` | crates/iem-dsp/src/eq.rs:296-308 | n samples into a glide the filter is the design at the last multiple of 16 samples, before the first one the filter it had |
| `Bands.SilentBandNeverRings` | crates/iem-dsp/src/eq.rs:261-326 | however a band is set, swept, faded and reset, on silent input no channel's energy ever rises |
| `Bands.BandEnergy` | crates/iem-dsp/src/eq.rs:261-326 | however a band is set, swept, faded and reset, and whatever damped filters hear, a channel holds at most what it began with and the g·x²/k of the samples it heard, each with the filter of its moment |
| `Bands.NoShelfIsDamped` | crates/iem-dsp/src/eq.rs:261-313 | a band that is no shelf has a damped filter throughout, whatever it is set to and while it glides, so that bound is its own on every input |
| `Equalizers.BlocksJoin` | crates/iem-dsp/src/eq.rs:404-422 | one block after another is one call over both, in outputs and final state |
| `Equalizers.IdentityPasses` | crates/iem-dsp/src/eq.rs:388-396 | while the equalizer is the identity, processing returns its input exactly and leaves a state that cannot be told from the old one |
| `Equalizers.SimilarSessions` | crates/iem-dsp/src/eq.rs:257-325 | equalizers that differ only in what a bypassed band's next set rebuilds answer every later set, reset, block and read alike |
| `Equalizers.SkippingIsInvisible` | crates/iem-dsp/src/eq.rs:388-422 | skipping every block while the equalizer is the identity gives the answers of processing it, over any session |
| `Cascades.ProcessIsCascade` | crates/iem-dsp/src/eq.rs:315-326 | while no setting moves, from zero state and unflushed, each channel of a block is the ramping global gain times the cascade, in band order, of its bands' cookbook biquads in direct form, each blended as (1 − w)·x + w·y by its wet ramp |
| `Cascades.RestIsCookbooks` | crates/iem-dsp/src/eq.rs:404-422 | at rest: the global gain times the cascade of the enabled bands' biquads |
| `Cascades.SetAllSettles` | crates/iem-dsp/src/eq.rs:363-422 | after an accepted set and a block of the ramps' length every band rests with the filter of exactly those settings, and the gain is the set one |
| `EqualizerUnit.InitialIsGood` | crates/iem-dsp/src/eq.rs:337-359 | a new equalizer, invalid bands flat and off, meets the invariant |
| `EqualizerUnit.Equalizer.constructor` | crates/iem-dsp/src/eq.rs:339-359 | rests at the parameters; invalid bands take the standard flat ones |
| `EqualizerUnit.Equalizer.Set` | crates/iem-dsp/src/eq.rs:363-378 | valid bands and gain become the targets, the others are ignored, and the answer says whether all were valid |
| `EqualizerUnit.Equalizer.Reset` | crates/iem-dsp/src/eq.rs:398-402 | every filter state is zero, everything else kept |
| `EqualizerUnit.Equalizer.Process` | crates/iem-dsp/src/eq.rs:405-422 | the channels hold the processed frames up to the shortest one and are unchanged beyond it; the state is that of the block; of an equalizer at rest each channel is the gain times the cascade of its enabled bands' cookbook biquads |
| `Pan.FallingCubic` | crates/iem-dsp/src/pan.rs:43-52 | a Catmull-Rom segment whose Bézier control points fall is non-increasing on [0, 1] |
| `Pan.TableFalls` | crates/iem-dsp/src/pan.rs:12-41 | the control points of every segment of the measured table fall, the mirrored first and the ghost-ended last included |
| `Pan.HitsNodes` | crates/iem-dsp/src/pan.rs:43-52 | the magnitude is exactly the table's value at each node, and neighbouring segments join there |
| `Pan.MagnitudeFalls` | crates/iem-dsp/src/pan.rs:43-52 | the magnitude is non-increasing over every pair of reals in [0, 1] |
| `Pan.MagnitudeRange` | crates/iem-dsp/src/pan.rs:43-52 | hence between 1 and the centre's value |
| `Pan.GainsMirror` | crates/iem-dsp/src/pan.rs:54-66 | the gains of −p are those of p with left and right exchanged, out-of-range pans included |
| `Pan.GainsPower` | crates/iem-dsp/src/pan.rs:54-66 | the gains' power is the squared magnitude, between 1 and the centre's |
| `Pan.SidesAreSilent` | crates/iem-dsp/src/pan.rs:54-66 | pan 1 and beyond is left 0 and right 1, −1 and beyond the reverse |
| `Pan.LouderSide` | crates/iem-dsp/src/pan.rs:54-66 | the right gain is the larger if and only if the pan is above 0, the left one if and only if below |
| `Pan.ShareGrows` | crates/iem-dsp/src/pan.rs:54-66 | the ratio of the right gain to the left grows strictly from −1 to 1 |
| `Pan.SetLeadsTo` | crates/iem-dsp/src/pan.rs:68-123 | once its ramps have run a set leads to the volume times the pan's gains, or to silence when muted |
| `Pan.SteadyStays` | crates/iem-dsp/src/pan.rs:110-123 | while no ramp moves every later tick returns what the fast path returns now |
| `Pan.SteadyComes` | crates/iem-dsp/src/pan.rs:110-123 | the fast path opens after exactly as many ticks as the longest ramp has left, then resting on the targets |
| `Pan.StereoGain.Set` | crates/iem-dsp/src/pan.rs:102-107 | the pair ramps to vol·gains(pan), the mute ramp to 0 or 1 |
| `Pan.StereoGain.Steady` | crates/iem-dsp/src/pan.rs:112-118 | an answer exactly while no ramp moves |
| `Pan.StereoGain.Tick` | crates/iem-dsp/src/pan.rs:120-123 | one sample on; the pair scaled by the mute ramp |
| `Offline.RunIsOneBlock` | crates/iem-audio-io/src/offline.rs:28-71 | from any frame on, any block size gives what one block over the rest gives, and faults exactly when that does |
| `Offline.BlockSizeNeverMatters` | crates/iem-audio-io/src/offline.rs:28-71 | a processor that cannot tell where a block was cut renders the same for every block size, 0 read as 1 |
| `Offline.FaultZeroes` | crates/iem-audio-io/src/offline.rs:48-56 | after a fault the output is zero from the faulting block on |
| `Offline.FaultKeepsPrefix` | crates/iem-audio-io/src/offline.rs:48-66 | before it, the output is exactly the faultless render of the shorter recording |
| `Offline.RunOffline` | crates/iem-audio-io/src/offline.rs:29-71 | the block loop through its reused buffers leaves exactly that run's output and fault |
| `OfflineEqualizer.CutsNeverShow` | crates/iem-dsp/src/eq.rs:404-422 | the equalizer is a processor that cannot tell where a block was cut |
| `OfflineEqualizer.RenderIgnoresBlockSize` | crates/iem-audio-io/src/offline.rs:28-71 | rendering it gives the same output for every block size, without a fault |
| `Wav.LeRoundTrip` | crates/iem-audio-io/src/wav.rs:22-28 | little-endian bytes read back as the number they were made of |
| `Wav.PcmRange` | crates/iem-audio-io/src/wav.rs:58-70 | PCM samples lie in [−1, 1), and the shifted 24-bit reading is the plain signed one |
| `Wav.SupportedReads` | crates/iem-audio-io/src/wav.rs:92-107 | a supported format reads every slice of its width: the fallback to 0 is never taken |
| `Wav.UnknownChunksSkipped` | crates/iem-audio-io/src/wav.rs:79-114 | of any well-formed chunks in front of the data only `fmt ` ones matter, odd ones with their pad byte |
| `Wav.InsertedChunksIgnored` | crates/iem-audio-io/src/wav.rs:79-114 | unknown chunks put before or after a file's format change nothing, whatever follows |
| `Wav.RoundTrip` | crates/iem-audio-io/src/wav.rs:72-158 | a written file, with any bytes after it, reads back as exactly its rate and samples if and only if it has a channel; with none it is refused |
| `WavFormats.SampleReads` | crates/iem-audio-io/src/wav.rs:58-70 | the two's-complement bytes of every integer of 16, 24 or 32 bits decode to it over full scale, a 32-bit or 64-bit float word to its own bits |
| `WavFormats.SupportedExactly` | crates/iem-audio-io/src/wav.rs:92-96 | PCM of 16, 24 and 32 bits and floats of 32 and 64 are read, nothing else |
| `WavFormats.FileReads` | crates/iem-audio-io/src/wav.rs:72-114 | a file in any of the five formats, plain or extensible, with other chunks anywhere, reads as its rate and, frame by frame and channel by channel, the numbers its data encodes |
| `WavFormats.HeaderIsRight` | crates/iem-audio-io/src/wav.rs:117-158 | a written file's names stand where they belong and its size fields are its own sizes |
| `WavFormats.FormatIsRight` | crates/iem-audio-io/src/wav.rs:117-158 | its format says extensible 64-bit float, with byte rate and block size in agreement |
| `Wav.ReadFile` | crates/iem-audio-io/src/wav.rs:72-116 | the moving offset and the nested copy loops decode what the chunks, one suffix after another, mean; every malformed file gets its error |
| `Wav.WriteFile` | crates/iem-audio-io/src/wav.rs:118-158 | refused exactly when a header field cannot hold its number, else the whole file byte for byte |
| `Talkback.FreeIsSound` | crates/iem-ui/talkback.js:11-48 | freeing a session whose live parts are all reachable leaves none live and its socket ending |
| `Talkback.StepIsSound` | crates/iem-ui/talkback.js:69-242 | every step between awaits keeps: live parts reachable, a stopped session empty-handed, at most one session not stopped, and that the current one |
| `Talkback.AfterIsSound` | crates/iem-ui/talkback.js:69-242 | so does every possible sequence of steps |
| `Talkback.MicrophoneNeverOutlivesSession` | crates/iem-ui/talkback.js:3-8 | in every reachable state a stopped session holds no live microphone, context, encoder or node and its socket is closed or closes as it opens; an unstopped one is the current one; an active one is not stopped and its socket has opened |
| `Talkback.ActiveSocketOpenExactly` | crates/iem-ui/talkback.js:165-180 | after any run an active session's socket is open if and only if no close event came for it, and closed otherwise |
| `Talkback.ActiveWithoutSocket` | crates/iem-ui/talkback.js:210-217 | a reachable run whose session is active, its microphone live and its socket closed: the socket opened and closed while the start still waited |
| `Talkback.PressTalks` | crates/iem-ui/talkback.js:189-231 | on any idle page a press that nothing fails ends active with every part live and the socket open, whether the socket opens before, between or after the other answers, and no other session is touched |
| `Talkback.StepsTouchTheirOwnSession` | crates/iem-ui/talkback.js:100-104 | a late-resuming start, an encoder error or a socket event changes no other session; an encoder error stops exactly its own |
| `Talkback.StoppedStays` | crates/iem-ui/talkback.js:189-231 | no step revives a stopped session |
| `Talkback.StopFreesThePage` | crates/iem-ui/talkback.js:190-242 | after a stop every session is stopped and the next press begins a new one |
| `Talkback.Page.FreeSession` | crates/iem-ui/talkback.js:11-48 | the session's parts are released in order, every reference dropped, no other session touched |
| `Talkback.Page.Start` | crates/iem-ui/talkback.js:189-208 | nothing while a session is not stopped, else a new one, freed at once when its socket throws |
| `Talkback.Page.Stop` | crates/iem-ui/talkback.js:236-242 | the current session freed and forgotten |
| `Talkback.Page.OnMicGranted` | crates/iem-ui/talkback.js:71-113 | the stretch after the microphone: freed again when stopped meanwhile, else context and encoder, each throw rejecting |
| `Talkback.Page.OnModule` | crates/iem-ui/talkback.js:118-162 | the stretch after the worklet module: freed when stopped meanwhile, else the graph |
| `Talkback.Page.OnSocketAwaited` | crates/iem-ui/talkback.js:210-217 | active exactly when not stopped and the socket opened, else freed |
| `Talkback.Page.OnRejected` | crates/iem-ui/talkback.js:218-230 | a rejected start frees what it made |
| `Talkback.Page.OnEncoderError` | crates/iem-ui/talkback.js:100-104 | nothing for a stopped session, else a stop |
| `LiveGuard.WindowGrows` | scripts/gen3/live_guard.py:310-311 | pruning the window again for a later read gives the window of the whole history |
| `LiveGuard.WindowSpeaks` | scripts/gen3/live_guard.py:310-325 | some sample of the pruned window trips if and only if some sample of the whole history since the restart does |
| `LiveGuard.WindowNames` | scripts/gen3/live_guard.py:310-325 | the first sample of the pruned window that names a kind, peer and number is the first of the whole history within 5 s that does |
| `LiveGuard.StartIsUnbroken` | scripts/gen3/live_guard.py:297-308 | a key's start is the first sample of the longest unbroken run of above-rate intervals up to now |
| `LiveGuard.CountsNeverFall` | scripts/gen3/live_guard.py:208-222 | no count falls between any two samples of a history |
| `LiveGuard.RequestsTripIsReal` | scripts/gen3/live_guard.py:297-308 | wherever each read was taken within t ± u, a requests trip means more than 20 per true second over every interval and the whole run, and more than 60 in all |
| `LiveGuard.BurstIsReal` | scripts/gen3/live_guard.py:310-325 | an `arc_reads` trip means that the peer it names read its directory two or more times, exactly as often as it says, within a true span of 5 s; a `flow_requests` trip the same of flow requests |
| `LiveGuard.PacketsTripIsReal` | scripts/gen3/live_guard.py:327-339 | a packets trip means more than 1.25 times rate/fpp packets per true second |
| `LiveGuard.Watch.Feed` | scripts/gen3/live_guard.py:280-295 | a sample after which no time passed is dropped, one whose request, flow-request, arc-read, packet and poll counts are all at least the last ones' joins the history, and any lower one begins it again and counts a restart; a requests, flow or packet trip comes exactly when the whole history calls for it, in that order, and names exactly what that history calls for: the first sustained key and since when, the kind, first peer and number of the earliest burst, or the lowest flow; without a requests trip window and start instants are again those of the whole history |
| `LiveGuard.Watch.CheckRequests` | scripts/gen3/live_guard.py:297-308 | every counted key's start instant is brought up to date, in the guard's order, until one is sustained, and that one is named, with the instant its unbroken stretch began |
| `LiveGuard.Watch.CheckFlows` | scripts/gen3/live_guard.py:310-325 | trips exactly when the whole history bursts, and names what the earliest sample of it within 5 s shows: the first peer with too many directory reads and how many, else the first with too many flow requests |
| `LiveGuard.Watch.CheckPackets` | scripts/gen3/live_guard.py:327-339 | names the lowest flow over its limit, sent flows before received ones, or none when there is none in either direction |
| `LiveGuard.Guard` | scripts/gen3/live_guard.py:585-610 | over reads of a device that keeps running the guard trips exactly at the first one that shows more than 20 requests of a key per widest second over every interval of 3 s, two directory reads or flow requests of a peer within 5 s, or a flow at more than 1.25 times its packets |
| `Segments.SegmentsCover` | scripts/denylist_content.py:114-131 | the segments cover the unit from start to end, each reaches back into the one before, none is longer than a step, two overlaps and three bytes |
| `Segments.AllIsAligned` | scripts/denylist_content.py:100-112 | both edges of every segment of bytes lie at an end of the unit, after a separator, at the start of a character, or after three continuation bytes |
| `Segments.EdgeBytes` | scripts/denylist_content.py:93-111 | the separators are space, tab, comma and semicolon, the continuation bytes those of UTF-8 |
| `Segments.WholeUnlessCrossing` | scripts/denylist_content.py:114-131 | a stretch lies whole in one segment if and only if it crosses no joint |
| `Segments.NoShortStretchIsSplit` | scripts/denylist_content.py:116-121 | text: every stretch of up to overlap + 1 characters lies whole in one segment; bytes: every such stretch that starts at a character, and any of up to overlap − 2 |
| `Segments.LongestNeverSplit` | scripts/denylist_content.py:100-131 | the bounds are exact: every stretch of w of every unit lies whole in one segment if and only if w is at most overlap + 1 (text) or overlap − 2 (bytes) |
| `Segments.SeparatorFreeIsSplit` | scripts/denylist_content.py:100-121 | any longer stretch is split at the first joint of a unit of plain characters, or of continuation bytes |
| `Segments.SegmentEdge` | scripts/denylist_content.py:100-111 | right after the last separator, else past at most three continuation bytes |
| `Segments.LongUnit` | scripts/denylist_content.py:122-131 | the loop ends and yields exactly those segments |
| `Units.SplitJoin` | scripts/denylist_content.py:63-69 | units joined by a separator none of them holds split back into themselves |
| `Units.NumberedJoins` | scripts/denylist_content.py:258-266 | numbering goes on from one part of the content to the next without a gap |
| `Units.LongUnitBatches` | scripts/denylist_content.py:114-131 | one batch for each segment, all under the unit's number and key, each bounded; of the unit every stretch of up to `overlap` − 2 bytes or `overlap` + 1 characters lies whole in one of them, and no edge splits a character of bytes |
| `Units.KeyOf` | scripts/denylist_content.py:269-277 | walking the batches finds the key of a number exactly where the content has such a unit |
| `Lines.LineBatches` | scripts/denylist_content.py:134-158 | whatever the chunks and overlap, the batches list the split of the whole content on newline under consecutive numbers, a line keyed by its hash exactly when longer than a chunk, and the number after the last is returned; of a line in segments every such stretch is seen whole |
| `Runs.RewrittenIs` | scripts/denylist_content.py:161-168 | the three byte rewrites of a piece leave exactly its control-free runs of five bytes or more, between NULs |
| `Runs.RunsAt` | scripts/denylist_content.py:171-177 | cut at any control byte, both sides have their own runs |
| `Runs.ControlBytes` | scripts/denylist_content.py:33-37 | the control bytes are those of ASCII but the tab |
| `Runs.KeysNameTheRuns` | scripts/denylist_content.py:171-191 | piece by piece, the keys name exactly the maximal runs of the whole content, in order: by text up to two chunks, by hash above one |
| `Runs.KeyDependsOnPlace` | scripts/denylist_content.py:180-189 | a run between one and two chunks long is keyed by its text where it stands alone and by its hash after a chunk of other content |
| `Runs.PlaceMattersExactly` | scripts/denylist_content.py:171-191 | a run has the same key wherever it stands if and only if it is at most one chunk long or longer than two |
| `Runs.RunPiece` | scripts/denylist_content.py:161-168 | one batch of a piece's runs, no larger than the piece, or none |
| `Runs.RunBatches` | scripts/denylist_content.py:171-191 | the batches list those keys under consecutive numbers, whatever the overlap; of a run in segments every such stretch is seen whole, its batches marked as runs |
| `Blobs.WideRunBatches` | scripts/denylist_content.py:228-247 | the wide strings, joined about a chunk at a time, are listed one by one under consecutive numbers |
| `Blobs.Batches` | scripts/denylist_content.py:250-266 | a blob's units, numbers and keys never depend on the overlap, and no batch is larger than two steps and three bytes; of every unit each stretch of up to `overlap` − 2 is seen whole, and exactly the batches after the lines are marked as runs |
| `Blobs.UnitKey` | scripts/denylist_content.py:269-277 | the key of a number is that of the whole content's unit, and an error where there is none |
| `Containers.AdmittedWhole` | scripts/denylist_containers.py:67-81 | a member is admitted if and only if it is sound and within the limits, and then whole: one byte past the room always shows a larger one |
| `Containers.ExpansionIsBounded` | scripts/denylist_containers.py:57-92 | for every tree of nested containers: total bytes within the cap, at most 10000 members, none deeper than four, and a blob-wide problem is the last item |
| `Containers.NothingIsSkipped` | scripts/denylist_containers.py:333-345 | a run without a problem yielded every nested member, whole and in order |
| `Containers.NoProblemExactly` | scripts/denylist_containers.py:186-345 | there is no problem if and only if nothing inside is broken, encrypted, unknown, too large or too deep, all of it fits the cap and the count, and every size a zip declares, true or not, fits the cap when its turn comes |
| `ContainerDefects.ExpansionIsPlain` | scripts/denylist_containers.py:186-345 | without a limit of the whole blob every member at every depth is yielded or has its own defect reported, one that cannot be read taking no neighbour with it; with one, everything before the place where it struck |
| `ContainerReader.Budget.constructor` | scripts/denylist_containers.py:61-65 | the cap is 20 times the blob, at least 1 MiB, at most 128 MiB |
| `ContainerReader.Budget.Refuses` | scripts/denylist_containers.py:71-81 | why a size is refused; a blob-wide limit is remembered |
| `ContainerReader.Budget.CountMembers` | scripts/denylist_containers.py:86-92 | counted before they are read; over when there are too many |
| `ContainerReader.ReadContent` | scripts/denylist_containers.py:207-217 | a bounded read, measured again whatever was declared |
| `ContainerReader.ReadEntry` | scripts/denylist_containers.py:197-217 | one zip or tar entry: empty, encrypted, refused, broken or admitted |
| `ContainerReader.ReadMembers` | scripts/denylist_containers.py:287-319 | the members in order until the budget is over, each expanded before the next is read |
| `ContainerReader.ExpandPart` | scripts/denylist_containers.py:333-345 | the part, then its container's members or why they cannot be read |
| `ContainerReader.ExpandBlob` | scripts/denylist_containers.py:327-330 | within the limits for every blob, complete when it reports no problem, and otherwise every member or its own defect up to a limit of the whole blob |
| `BandNames.AllowedNames` | scripts/gen3/band_receive.py:60-79 | a name is allowed if and only if it is `server/` and a listed file, `server/`, a listed folder and a clean path inside it, or `engine/` and a state file: current or baseline, a revision's marker with a number, or a generation |
| `BandNames.NamesStayApart` | scripts/gen3/band_receive.py:163-171 | two names that go to the same place are the same name |
| `BandNames.Check` | scripts/gen3/band_receive.py:82-103 | the file names in order, exactly for an archive within the caps whose members are all allowed, none a link or a repeat, with the engine's current state |
| `BandPlaces.Aside` | scripts/gen3/band_receive.py:120-127 | the search ends with the first free one of `<name>.before-<stamp>`, hidden or not, and its numbered forms, in the same folder |
| `BandPlaces.TargetsApart` | scripts/gen3/band_receive.py:115-117 | different targets lie and stage in different places |
| `BandPlaces.AsideIsNoStaging` | scripts/gen3/band_receive.py:115-127 | a name an item or its staging moves to is never the staging name of an item |
| `BandDisk.Disk.Rename` | scripts/gen3/band_receive.py:150-178 | all or nothing, and every entry of the start is still there whole under a name of its own |
| `BandDisk.Disk.WriteFile` | scripts/gen3/band_receive.py:106-112 | fails where something is, may fail half-written, and touches no entry of the start |
| `BandDisk.Disk.WriteInside` | scripts/gen3/band_receive.py:106-112 | the same inside a staged folder |
| `BandReceive.StashUnsent` | scripts/gen3/band_receive.py:152-157 | band items not sent are gone from their names and kept aside; the staging places stay free |
| `BandReceive.StashStale` | scripts/gen3/band_receive.py:144-151 | stagings an earlier run left are gone from their places, which stay free until this run stages there |
| `BandReceive.SwapOne` | scripts/gen3/band_receive.py:172-178 | the old version aside and reported, the new one in, nothing else moved |
| `BandReceive.ReadBack` | scripts/gen3/band_receive.py:179-183 | each member is read back from the place its name says, and its content there is the archive's |
| `BandReceive.Install` | scripts/gen3/band_receive.py:142-184 | whatever fails, nothing of the start is lost; it fails if and only if a disk call failed, and nothing ever stands where it stages; on success the engine folder and each item hold exactly the archive's files, the report lists the moves aside in order, with the present place of every entry that moved, and each member as read back is the archive's |
| `BandReceive.Receive` | scripts/gen3/band_receive.py:130-184 | a refusal, exactly for what the checks refuse, changes nothing; every other end keeps each entry of the start whole; success leaves exactly the sent set and what was there, undisturbed or aside, and reports just that |
| `RestartBudget.FineMeans` | scripts/iem-pc/iempc_gen3_gate.py:281-287 | accepted if and only if the recent starts and the planned ones together are within the burst |
| `RestartBudget.NeverFitsMeans` | scripts/iem-pc/iempc_gen3_gate.py:286-287 | refused for good if and only if more is planned than the burst allows at all, and then at every time and over every ledger |
| `RestartBudget.WaitIsExact` | scripts/iem-pc/iempc_gen3_gate.py:288-292 | the wait it names is right to the second: with no other start a later check accepts exactly from then on |
| `RestartBudget.LedgerCountsAll` | scripts/iem-pc/iempc_gen3_gate.py:620-630 | while fewer than 64 starts are recent the cut ledger counts them all |
| `RestartBudget.NextIsSound` | scripts/iem-pc/iempc_gen3_gate.py:608-635 | every accepted check, asked start, start whose note is lost and automatic restart keeps the budget's invariant |
| `RestartBudget.NeverOverBurst` | scripts/iem-pc/iempc_gen3_gate.py:281-292 | over every sequence of them, on a clock that does not run back and with burst ≤ 64, no window of the interval holds more asked starts than the burst and the starts in it whose notes were lost |
| `RestartBudget.LostNotesOverrun` | scripts/iem-pc/iempc_gen3_gate.py:620-630 | that bound is reached: for every burst and every number of lost notes some run fills one window with the burst and all of them |
| `RestartBudget.LongBurstOverruns` | scripts/iem-pc/iempc_gen3_gate.py:620-630 | with any burst above 64, and every note kept, some run fills one window with any number of starts |
| `RestartBudget.BudgetHoldsExactly` | scripts/iem-pc/iempc_gen3_gate.py:281-292 | with every note kept the budget holds over all runs if and only if the burst is at most the 64 entries the ledger keeps |
| `RestartBudget.Ledger.RefuseOverBudget` | scripts/iem-pc/iempc_gen3_gate.py:632-635 | the verdict on the kept times; an accepted plan begins |
| `RestartBudget.Ledger.NoteStarts` | scripts/iem-pc/iempc_gen3_gate.py:620-630 | the last 64 times are kept, or nothing changes and it warns; the asked starts stay within the burst and the lost notes in every window |
| `HilRuns.LogRuns` | scripts/iem-pc/iempc_gen3_gate.py:620-630 | what a command's log noted, kept or lost, is a run of the budget's machine |
| `HilRuns.GatesKeepBudget` | scripts/iem-pc/iempc_gen3_gate.py:1157-1187 | any sequence of accepted HIL runs and ends of left jobs over one ledger keeps the starts they noted within the burst in every window, but for lost notes |
| `HilJob.RestartEngine` | scripts/iem-pc/iempc_gen3_gate.py:779-783 | noted, then the failure counter reset, then restarted: all three in order, or up to the first that was not answered |
| `HilJob.BeginJob` | scripts/iem-pc/iempc_gen3_gate.py:786-803 | whatever call fails, the job remembers what reached the box; at most one start, counted and noted before it; a health, flow or output check that holds was read as good; an ending by an error or a cut is that of the last call, or the drop-in read back as another |
| `HilJob.EndJob` | scripts/iem-pc/iempc_gen3_gate.py:806-835 | nothing for a job that ended or never reached the box; else the removal, the reload and, if the begin restarted, the counted restart: all of them, or up to one of these very calls that was not answered; the job is over exactly when all were; if asked to it then waits for health, flows and, after a restart, the outputs |
| `HilJob.EndTwice` | scripts/iem-pc/iempc_gen3_gate.py:806-823 | a second end after one that got through sends nothing |
| `HilJob.EndLeft` | scripts/iem-pc/iempc_gen3_gate.py:838-861 | nothing is sent while the engine's state is unknown or the restart would pass the budget, else the end's commands, with a restart exactly when the flag is still on, all of them unless one is not answered; an error then means that one was not, or that the health or the flows were not read as good |
| `HilJob.RestoreOwnLoop` | scripts/iem-pc/iempc_gen3_gate.py:893-916 | the put-back is sent for every loop set; the loop is forgotten if and only if it was answered as done and the return read back as before |
| `HilJob.StopBurst` | scripts/iem-pc/iempc_gen3_gate.py:953-962 | a burst that may still sound is stopped, and forgotten exactly when that was answered; any other changes nothing |
| `HilJob.Panic` | scripts/iem-pc/iempc_gen3_gate.py:1037-1099 | a fault is sent exactly when the unit is read once more as never restarted and the alarm unit is read, the flag looked at and its start noted and counted right before, into an engine read healthy, its flows back, its outputs open and never restarted; restarts found before or beyond the one expected are noted |
| `HilJob.InJob` | scripts/iem-pc/iempc_gen3_gate.py:1102-1122 | the procedure step by step to its end, or out of it at the call that explains it; at most two starts, each noted and counted before it is sent, no fault into an unfit engine; a loop it set was put back when it returns |
| `HilJob.EndIsMeasured` | scripts/iem-pc/iempc_gen3_gate.py:806-823 | whatever part of its commands an end got to send: every start noted before it, at most three noted, counted and sent, and counted before it unless the job had raised |
| `HilJob.EndIsUndone` | scripts/iem-pc/iempc_gen3_gate.py:806-823 | after a clean-up that was not interrupted the removal is sent, and the begin's restart is followed by the end's if and only if every call of the end before it was answered |
| `HilJob.TallyCounts` | scripts/iem-pc/iempc_gen3_gate.py:779-783 | what the laws of starts count: the log's restarts and faults, its notes, and its counted starts, each by its places |
| `HilJob.Leave` | scripts/iem-pc/iempc_gen3_gate.py:1176-1185 | a job left by an exception keeps its place in the procedure and adds the raise and the clean-up's own calls alone; a clean-up that was not interrupted leaves no loop set, and one that was leaves a log that is undone, measured and explained by the interrupt |
| `HilJob.Run` | scripts/iem-pc/iempc_gen3_gate.py:1174-1187 | the log is a path of the procedure (`HilProcedure.PlaceOf`: which step is due after every answer, up to the last one or to the failed or cut one that leaves the job) and ends finished exactly when nothing raised; on every path an installed drop-in's removal is sent after it if and only if the clean-up was not interrupted; the begin's restart is followed by the end's if and only if, besides, every call of the end before that was answered; a set loop's put-back is sent after it unless the burst's stop was interrupted in the clean-up; at most three starts are noted, counted and sent, each noted and (up to the end, and in it when nothing raised) counted before it; faults only into a fit engine; a run ends by an error or a cut only if its last call was cut or the job raised that right after the call that explains it; a run that went through waited for the engine unless a call of its end failed, and one left for the flag does not wait |

## Left out

Where code and documentation disagree, the model follows the code:

* `long_unit_batches` promises that a match up to `overlap` long is never split; for bytes
  the exact bound is `overlap` − 2 (`Segments.LongestNeverSplit`), and `overlap` + 1 for
  stretches that start at a character (`Segments.NoShortStretchIsSplit`).
* `run_batches` says that a run longer than a chunk is read in segments; one of up to two
  chunks is read whole where a piece starts with it, and then keyed by its text rather than
  its hash (`Runs.PlaceMattersExactly`).
* `note_starts` says the next run refuses when a start could not be recorded; a write that
  fails and leaves the old file readable is not noticed, and each such start can add one to
  a window (`RestartBudget.LostNotesOverrun`).
* `talkback.js` means an "active" session to have its socket; one whose socket closes after
  it opened stays active (`Talkback.ActiveWithoutSocket`).
* `design` names the cookbook's alpha; above the angle π/2 and for a negative slope term it
  is another one (`CookbookNote.NoteExactly`).
* "Parameter changes stay glitch-free" rests on damping; a steep, deeply cut shelf has none
  (`Designs.SteepCutIsUndamped`): it gains no energy on silence, but no bound on its input
  bounds it (`Designs.SteepCutIsUnbounded`, `Damping.DesignBoundedExactly`).

Not modelled, or stated with a limit:

- Rbj.EveryKindIsCookbook: for inputs on which no state is flushed as a denormal; what a flush does to the rest of the output is not stated.
- Cascades.ProcessIsCascade: for inputs on which no state is flushed, from zero states, while no band's frequency, width or gain moves; the wet ramps and the global gain may.
- Equalizers.SkippingIsInvisible: over reals; signed zeros and bit patterns are not told apart.
- LiveGuard.Watch.Feed: up to the first requests trip, where the guard ends; reads end in the order they are fed, as one loop on a monotonic clock takes them.
- LiveGuard.Watch.CheckRequests: the order of the keys is a parameter that lists them; the source sorts them by their text.
- Segments.SegmentsCover: needs an overlap of at least 3 for bytes; the scanner never uses less than 4096.
- Runs.RewrittenIs: the two regular expressions are modelled as the leftmost replacements they are; no other regular expression is.
- Blobs.Batches: the detection of wide text and the search for wide strings are parameters; decoding keeps separators, so a batch is its bytes.
- BandReceive.Receive: the engine's parent folder, the site and its secrets are three separate folders; items are swapped in the order of the archive rather than sorted; what is printed of a member read back is its hash, here its content.
- BandNames.AllowedNames: digits of revision markers are ASCII.
- HilJob.Run: when an interrupt lands in the clean-up itself (the burst's stop, the loop's put-back) the end is not reached; the contract names that case by the log. The checks' other fields and the verdict are not part of it.
- HilRuns.GatesKeepBudget: windows are over the times of the notes; a start is sent moments after its note.
- Pan.GainsPower: the sine taper is a parameter with its complementary identity; which side is louder (`Pan.LouderSide`, `Pan.ShareGrows`) asks besides for its values at the ends and its growth between them.
- Rounding, infinities and NaN of floating point; the tangent, sine, hyperbolic sine, exponentials and logarithms beyond the identities in `Maths`.
- The equalizer's magnitude curve for the user interface (`response_db`), the send gains' downmix and the sample counts of ramp lengths.
- The live guard's peaks, lines and judge, which never trip, and parsing of the status.
- The segment edge computed after the last segment of a unit, whose value is not used.
- Decompression and the parsing of zip and tar; a member of a zip compressed by another method is what the zip library reads of it.
- Deciding what kind of container a blob is, and the names' Unicode readings and term matching.
- The other gates (live, soak, reboot, reset), the verdict's words, preflight reads, ssh, systemd and the commit status.
- The browser beyond the resources a session holds; the encoder's frames; the web interface.
- Threads and histograms of the null backend, device health, engine protocol, configuration shapes and tokens.
