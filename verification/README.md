# Sound extension page: a verified model of its event logic

The page (`script.js`) plays sound from user interaction through a synthesis
library. Around the library calls sit four small pieces of sequential logic, and
this project models each of them as immutable state plus pure step functions that
return the new state and the list of commands issued to the audio engine:

- `map`, the clamped linear interpolation the scroll handler uses to turn scroll
  speed into a modulator rate, a filter cutoff and a resonance (module `Mapping`);
- the scroll voice gate: each scroll sample attacks "C4" when the lead voice is
  silent and the page moved, and re-arms one debounce timer whose firing releases
  the voice and schedules a fallback that zeroes the gain (module `Scroll`);
- the pressed-key map: key-down attacks a random note from six and remembers it
  under the key, key-up releases exactly that note (module `Keys`);
- the drone toggle: a playing flag, a repeating step timer and a step counter
  cycling through F2, G2, D3, C3 (module `Drone`).

The random-mix button (module `RandomMix`) and the dispatch of every listener over
one page state (module `Page`) are modelled too. Shared vocabulary lives in
`Audio`: the `Command` trace, which engine handles exist, and `Rand`, a draw
from [0, 1) standing in for `Math.random()`. Timers are not clocks: a pending
timer is a flag or a counter in the state, and the environment fires it with an
explicit event, in any order relative to other events.

Two behaviours of `script.js` worth knowing:

- The clamp in `map` is positional, `max(outMin, min(outMax, ·))`. When
  `outMin > outMax` the result is always `outMin`; it does not clamp to the
  numerically smaller and larger bound.
- The first click on the drone toggle builds the drone's nodes and also starts
  playing in the same click. There is no separate "built but stopped" first step.

## Model

| member | source | states |
|---|---|---|
| Mapping.Map | script.js:110-113 | NaN and non-numbers give `outMin`; every result is at least `outMin`; at most `outMax` when `outMin <= outMax`; exactly `outMin` when `outMin > outMax` (the clamp is positional) |
| Mapping.MapPiecewise | script.js:112 | on increasing ranges, `map` is `outMin` at or below `inMin`, `outMax` at or above `inMax`, and the unclamped linear image in between |
| Mapping.MapMonotone | script.js:112 | on increasing ranges, a larger value never maps to a smaller result |
| Mapping.MapEndpoints | script.js:112 | `inMin` maps to `outMin`; `inMax` maps to `outMax` when `outMin <= outMax` |
| Mapping.MapRoundTrip | script.js:112 | inside the input range, mapping back from the output range to the input range recovers the value |
| Mapping.MapExamples | script.js:119-136 | `map(50,0,100,0,40) = 20`, `map(150,0,100,0,40) = 40`, `map(0,0,100,50,5000) = 50`, NaN gives `outMin`, a reversed output range gives `outMin` |
| Scroll.Speed | script.js:118 | the scroll speed is non-negative, zero exactly when the position did not change, and is the distance between the two positions |
| Scroll.OnSample | script.js:115-139 | without the lead voice, modulator and gain nothing happens; otherwise the position is remembered and the debounce timer is armed; the handler first sets the modulator rate to `map(speed, 0, 100, 0, 40)` and last sets the filter to `map(speed, 0, 100, 50, 5000)` and `map(speed, 0, 100, 1, 10)`; between them comes one "C4" attack exactly when the voice was silent and the page moved; no release is issued |
| Scroll.ScrollParametersPiecewise | script.js:119-137 | up to a speed of 100, the rate, cutoff and resonance are `0.4 * speed`, `50 + 49.5 * speed` and `1 + 0.09 * speed`; from 100 on they stay at 40, 5000 and 10 |
| Scroll.FasterNeverLower | script.js:119-137 | a faster scroll sample never gives a lower modulator rate, cutoff or resonance |
| Scroll.OnQuiet | script.js:127-134 | the debounce timer fires once: it issues one release and schedules the gain fallback exactly when the voice was sounding, leaves the voice silent, and does nothing when no timer is armed |
| Scroll.OnSilence | script.js:132 | a pending gain fallback sets the lead gain to 0 and is consumed; with none pending nothing happens |
| Scroll.GateBalanced | script.js:121-134 | over any run of scroll events, attacks plus a voice sounding at the start equal releases plus a voice sounding at the end |
| Scroll.SamplesAttackOnce | script.js:121-126 | a run of samples with no timer firing attacks exactly once if the voice was silent and the page moved, otherwise never; it releases nothing and remembers the last position |
| Scroll.ArmedInvariant | script.js:122-134 | a sounding voice always has a debounce timer armed to release it, after any run of events |
| Scroll.QuietIdempotent | script.js:127-128 | a second firing of the debounce timer does nothing: only one is ever pending |
| Scroll.BurstThenQuiet | script.js:115-139 | from page load, moving samples followed by the quiet period give exactly one attack and exactly one release and leave the voice silent |
| Keys.Pick | script.js:98 | the note index `floor(r * 6)` lies in [0, 5] and is the floor of the scaled draw |
| Keys.PickReachesEveryNote | script.js:97-98 | each of the six notes is chosen by some draw |
| Keys.KeyDown | script.js:95-101 | without the key voice, or for a key already held, nothing happens; otherwise the key is stored with a note from the six and exactly that note is attacked, other entries unchanged |
| Keys.KeyUp | script.js:103-108 | without the key voice, or for a key not held, nothing happens; otherwise exactly the stored note is released and only that key is removed |
| Keys.PressReleaseRoundTrip | script.js:95-108 | pressing a free key and releasing it restores the map and releases the same note that was attacked |
| Keys.AutoRepeatIgnored | script.js:96 | a repeated key-down of a held key attacks nothing and keeps the first note |
| Keys.OtherKeysUntouched | script.js:99-107 | a key event leaves every other key's entry as it was |
| Keys.RunBalanced | script.js:95-108 | over any run of key events and for every note, attacks of it plus keys holding it at the start equal releases of it plus keys holding it at the end |
| Drone.PlayNote | script.js:40-45 | a step glides to the pitch at the current index, schedules one fall, and advances the index to the next position mod 4 |
| Drone.OnToggle | script.js:24-66 | a click flips the playing flag and builds the nodes exactly when absent; starting arms the step timer, issues start plus a glide to F2, sets the index to 1 and adds one pending fall, with pending disposals unchanged; stopping clears the step timer, issues stop and fade and adds one pending disposal, with the index and pending falls unchanged |
| Drone.FallSurvivesStop | script.js:43-56 | a stop does not cancel falls already scheduled: one that fires while the nodes exist still ramps the oscillator to 0 |
| Drone.RestartBeforeDisposal | script.js:25-64 | clicking again before the disposal fires reuses the nodes without rebuilding them; the pending disposal then removes them while the drone plays |
| Drone.OnTick | script.js:40-48 | the step timer plays the next step only while armed and the nodes exist: it glides to the current pitch, advances the index and schedules one more fall, changing nothing else (pending disposals included); otherwise nothing happens |
| Drone.OnFall | script.js:43 | a pending fall ramps the oscillator to 0 if it still exists, and is consumed |
| Drone.OnDisposal | script.js:59-64 | a pending disposal disposes the nodes if they exist and drops the handles, so the next click rebuilds them |
| Drone.ValidInvariant | script.js:48-56 | after any run of drone events the step timer is armed exactly while the drone plays |
| Drone.SilentUntilToggled | script.js:52-56 | once stopped, no event other than a click starts a new glide or restarts the drone |
| Drone.TicksSchedule | script.js:40-48 | while playing, n step-timer firings keep the drone playing with its nodes and timer, advance the index by n mod 4, schedule n falls and leave pending disposals unchanged |
| Drone.TicksWalkCycle | script.js:37-48 | while playing, n step-timer firings glide through the pitch cycle from the current index in order |
| Drone.StartThenTicks | script.js:34-48 | starting the drone and letting the timer fire n times glides to F2, G2, D3, C3, F2, ... |
| Drone.ToggleTwiceThenDispose | script.js:24-66 | from page load, two clicks and the disposal delay leave the drone stopped, the timer cleared and the nodes gone, with exactly the build, start, F2 glide, stop, fade and dispose commands |
| RandomMix.RandomMidi | script.js:71 | the random MIDI note `floor(r * 48 + 40)` lies in [40, 87] |
| RandomMix.RandomMidiReachesEveryNote | script.js:71 | every MIDI note from 40 to 87 is chosen by some draw |
| RandomMix.OnRandomMix | script.js:68-93 | without the lead voice and modulator nothing happens; otherwise the pitch, modulator rate and bounds and filter are set within their ranges, in source order, and the same pitch is played for one second |
| Page.Step | script.js:10-144 | the start button creates the handles and issues nothing; every other listener changes only its own part of the state |
| Page.CommandsOwnedByListener | script.js:24-139 | drone events issue only drone commands, and no other listener issues any drone command |
| Page.OnlyDroneBeforeStart | script.js:24-116 | before the start button is clicked, scroll, key and random-mix events issue nothing, so only the drone's commands appear |

## Left out

- Node construction, connection, `start`, `stop`, `dispose` and parameter ramps of the synthesis library, which have no semantics in the model. The start button's five constructions, its connections and `lfo.start()` emit no command at all: `Handles` only records that the nodes exist. The drone's four node constructions and their connections are folded into one `BuildDrone` command, and its two `dispose` calls into one `DisposeDrone`. Oscillator start and stop and parameter ramps are single commands.
- Real timing of the 150 ms, 1000 ms, 3000 ms and 8000 ms timers: timers are pending flags or counters fired by explicit events in any order.
- `await Tone.start()` and its asynchrony: the start button is one event that creates every handle at once.
- Clicking the start button again: it replaces the voices in the source; the model only records that the handles exist, so a note still sounding on a replaced voice is not tracked.
- Conversion of pitch names and MIDI numbers to Hertz (`Tone.Frequency`): pitches stay names or MIDI numbers.
- `console.log`, the DOM listener registration and the `window.scrollY` read: I/O; the scroll position is an event argument.
- Mapping.Map: does not model IEEE-754 behaviour (Infinity, and the NaN or Infinity produced when `inMin == inMax`); it requires `inMin != inMax` and works over reals.
- Scroll.Speed: positions are reals, so the `|| 0` guard against a NaN difference has nothing to do.
- The drone's disposal race beyond its first step: the model admits any interleaving of clicks and callbacks, and callbacks that find the nodes gone change nothing. `Drone.RestartBeforeDisposal` states only that a quick restart reuses the nodes and the pending disposal then removes them; nothing is stated about the steps that fail afterwards.
- RandomMix.RandomMidi: the draw is an exact real, so the result is always in [40, 87]. In IEEE doubles, a draw of 1 − 2⁻⁵³ (possible where `Math.random()` uses 53 random bits) makes `r * 48 + 40` round to 88.0, so the source can pick MIDI 88. That rounding is not modelled.
- RandomMix.OnRandomMix: its pitch bound rests on `RandomMix.RandomMidi` and has the same exact-real gap. The other draws are scaled as exact reals too. The two separate assignments `lfo.min = …` and `lfo.max = …` are merged into one `SetLfoRange` command.
