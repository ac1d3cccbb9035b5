/**
 The random-mix button: six independent draws set the lead oscillator pitch, the
 modulator rate and bounds and the filter, then play the pitch for one second.
 Pitches are kept as MIDI numbers; their conversion to Hertz is the library's.
 */
module RandomMix {
  import opened Audio

  /** `Math.floor(Math.random() * 48 + 40)`: a MIDI note from 40 to 87. */
  function RandomMidi(r: Rand): (m: int)
    ensures 40 <= m <= 87
    ensures m as real <= r * 48.0 + 40.0 < m as real + 1.0
  {
    (r * 48.0 + 40.0).Floor
  }

  /** Every MIDI note from 40 to 87 has a draw that picks it. */
  lemma RandomMidiReachesEveryNote(m: int)
    requires 40 <= m <= 87
    ensures var r: Rand := (m - 40) as real / 48.0; RandomMidi(r) == m
  {
    var r: Rand := (m - 40) as real / 48.0;
    assert r * 48.0 + 40.0 == m as real;
  }

  /** The button's click listener, given its six draws in the order the source makes them. */
  function OnRandomMix(h: Handles, r1: Rand, r2: Rand, r3: Rand, r4: Rand, r5: Rand, r6: Rand): (out: seq<Command>)
    ensures !(h.synth && h.lfo) ==> out == []
    ensures h.synth && h.lfo ==>
              && |out| == 5
              && out[0].SetOscillatorMidi? && 40 <= out[0].midi <= 87
              && out[1].SetLfoFrequency? && 0.0 <= out[1].hz < 10.0
              && out[2].SetLfoRange? && 0.0 <= out[2].low < 0.5 && 0.0 <= out[2].high < 1.0
              && out[3].SetFilter? && 50.0 <= out[3].frequency < 5050.0 && 0.0 <= out[3].q < 10.0
              && out[4] == AttackRelease(out[0].midi, 1.0)
  {
    if !(h.synth && h.lfo) then []
    else
      var midi := RandomMidi(r1);
      [ SetOscillatorMidi(midi),
        SetLfoFrequency(r2 * 10.0),
        SetLfoRange(r3 * 0.5, r4),
        SetFilter(r5 * 5000.0 + 50.0, r6 * 10.0),
        AttackRelease(midi, 1.0) ]
  }
}
