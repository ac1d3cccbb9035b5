/**
 The audio engine as the page's handlers see it.

 The synthesis library itself is outside the model: every call a handler makes
 into it is recorded as a `Command`, and a handler's effect on the engine is the
 sequence of commands it emits. The handles the start button creates are
 modelled only by whether they exist yet.
 */
module Audio {
  /** An argument the page may leave out, such as the note of a release. */
  datatype Option<+T> = None | Some(value: T)

  /** A pitch name in scientific notation, such as "C4". */
  type Note = string

  /** A random draw as `Math.random()` returns it: a number in [0, 1). */
  type Rand = r: real | 0.0 <= r < 1.0

  /** The two voices that take note attacks and releases. */
  datatype Voice =
    | Lead   // the monophonic scroll voice (`synth`)
    | Keys   // the polyphonic keyboard voice (`keySynth`)

  /** One call into the audio engine. */
  datatype Command =
    | Attack(voice: Voice, note: Note)              // triggerAttack(note)
    | Release(voice: Voice, held: Option<Note>)     // triggerRelease(note?)
    | AttackRelease(midi: int, seconds: real)       // triggerAttackRelease on the lead voice
    | SetOscillatorMidi(midi: int)                  // lead oscillator frequency, as a MIDI number
    | SetLfoFrequency(hz: real)                     // modulator rate
    | SetLfoRange(low: real, high: real)            // modulator output bounds
    | SetFilter(frequency: real, q: real)           // lead filter cutoff and resonance
    | SetGain(level: real)                          // lead output gain
    | BuildDrone                                    // create oscillator, reverb and gain stages
    | StartDrone                                    // start the drone oscillator
    | StopDrone                                     // stop the drone oscillator
    | GlideDrone(pitch: Note, seconds: real)        // ramp drone frequency to a pitch
    | FallDrone(seconds: real)                      // ramp drone frequency to 0
    | FadeDrone(seconds: real)                      // ramp drone gain to 0
    | DisposeDrone                                  // dispose oscillator and gain, drop the handles

  /** Which engine handles exist. They are absent until the start button has been clicked. */
  datatype Handles = Handles(synth: bool, lfo: bool, gain: bool, keySynth: bool)

  const NoHandles := Handles(false, false, false, false)

  /** The start button creates all four handles in one go. */
  const AllHandles := Handles(true, true, true, true)

  /** What a handler leaves behind: its part of the page state and the commands it issued. */
  datatype Outcome<S> = Outcome(state: S, out: seq<Command>)

  /** How many times command `c` occurs in `trace`. */
  function Occurrences(trace: seq<Command>, c: Command): (n: nat)
  {
    multiset(trace)[c]
  }

  /** Occurrences in two traces run one after the other add up. */
  lemma OccurrencesAppend(a: seq<Command>, b: seq<Command>, c: Command)
    ensures Occurrences(a + b, c) == Occurrences(a, c) + Occurrences(b, c)
  {
    assert multiset(a + b) == multiset(a) + multiset(b);
  }
}
