/**
 The scroll-driven lead voice: each scroll sample sets the modulator rate and the
 filter from the scroll speed, attacks "C4" when the voice is silent and the page
 moved, and re-arms a single quiet timer. When that timer fires it releases the
 voice if it is sounding and schedules a fallback that zeroes the output gain.

 Timers are not clocks here: the environment fires them with explicit events.
 */
module Scroll {
  import opened Audio
  import opened Mapping

  /**
   `lastScrollY` and `isPlaying` are the page's globals; `quietPending` says whether
   the debounce timer is armed (at most one is, since each sample clears the old one
   before setting a new one); `silencePending` counts gain-zeroing callbacks not yet fired.
   */
  datatype ScrollState = ScrollState(lastScrollY: real, isPlaying: bool, quietPending: bool, silencePending: nat)

  const Initial := ScrollState(0.0, false, false, 0)

  /** The fixed pitch of the scroll voice. */
  const ScrollNote: Note := "C4"

  const Sustain := Attack(Lead, ScrollNote)
  const Silence := Release(Lead, None)

  datatype ScrollEvent =
    | Sample(y: real)      // a scroll event, with the page's current scroll position
    | QuietElapsed         // the 150 ms debounce timer fires
    | SilenceElapsed       // a 1000 ms gain-zeroing callback fires

  /** The scroll handler runs only once the lead voice, its modulator and its gain exist. */
  predicate LeadReady(h: Handles)
  {
    h.synth && h.lfo && h.gain
  }

  /** `Math.abs(current - last) || 0`; positions are reals, so the `|| 0` never changes it. */
  function Speed(last: real, current: real): (speed: real)
    ensures speed >= 0.0
    ensures speed == 0.0 <==> current == last
    ensures speed == current - last || speed == last - current
  {
    if current >= last then current - last else last - current
  }

  /** The modulator rate, filter cutoff and resonance for a given scroll speed. */
  function LfoRate(speed: real): (hz: real)
    ensures 0.0 <= hz <= 40.0
  {
    Map(Number(speed), 0.0, 100.0, 0.0, 40.0)
  }

  function Cutoff(speed: real): (hz: real)
    ensures 50.0 <= hz <= 5000.0
  {
    Map(Number(speed), 0.0, 100.0, 50.0, 5000.0)
  }

  function Resonance(speed: real): (q: real)
    ensures 1.0 <= q <= 10.0
  {
    Map(Number(speed), 0.0, 100.0, 1.0, 10.0)
  }

  /**
   Up to a speed of 100 the three parameters grow linearly with the speed, from
   0 Hz, 50 Hz and 1 at rest; from 100 on they stay at 40 Hz, 5000 Hz and 10.
   */
  lemma ScrollParametersPiecewise(speed: real)
    requires speed >= 0.0
    ensures speed <= 100.0 ==>
              && LfoRate(speed) == speed * 0.4
              && Cutoff(speed) == 50.0 + speed * 49.5
              && Resonance(speed) == 1.0 + speed * 0.09
    ensures speed >= 100.0 ==> LfoRate(speed) == 40.0 && Cutoff(speed) == 5000.0 && Resonance(speed) == 10.0
  {
    MapPiecewise(speed, 0.0, 100.0, 0.0, 40.0);
    MapPiecewise(speed, 0.0, 100.0, 50.0, 5000.0);
    MapPiecewise(speed, 0.0, 100.0, 1.0, 10.0);
  }

  /** Faster scrolling never lowers the modulator rate, the cutoff or the resonance. */
  lemma FasterNeverLower(slow: real, fast: real)
    requires slow <= fast
    ensures LfoRate(slow) <= LfoRate(fast)
    ensures Cutoff(slow) <= Cutoff(fast)
    ensures Resonance(slow) <= Resonance(fast)
  {
    MapMonotone(slow, fast, 0.0, 100.0, 0.0, 40.0);
    MapMonotone(slow, fast, 0.0, 100.0, 50.0, 5000.0);
    MapMonotone(slow, fast, 0.0, 100.0, 1.0, 10.0);
  }

  /** `handleScroll` with the page at scroll position `y`. */
  function OnSample(s: ScrollState, h: Handles, y: real): (o: Outcome<ScrollState>)
    ensures !LeadReady(h) ==> o == Outcome(s, [])
    ensures LeadReady(h) ==> o.state.lastScrollY == y && o.state.quietPending
    ensures LeadReady(h) ==> o.state.silencePending == s.silencePending
    ensures LeadReady(h) ==> (o.state.isPlaying <==> s.isPlaying || y != s.lastScrollY)
    ensures Occurrences(o.out, Sustain) == (if LeadReady(h) && !s.isPlaying && y != s.lastScrollY then 1 else 0)
    ensures Occurrences(o.out, Silence) == 0
    ensures LeadReady(h) ==> |o.out| == (if !s.isPlaying && y != s.lastScrollY then 3 else 2)
    ensures LeadReady(h) ==> o.out[0] == SetLfoFrequency(LfoRate(Speed(s.lastScrollY, y)))
    ensures LeadReady(h) ==>
              o.out[|o.out| - 1] == SetFilter(Cutoff(Speed(s.lastScrollY, y)), Resonance(Speed(s.lastScrollY, y)))
  {
    if !LeadReady(h) then Outcome(s, [])
    else
      var speed := Speed(s.lastScrollY, y);
      var attack := if speed > 0.0 && !s.isPlaying then [Sustain] else [];
      Outcome(ScrollState(y, s.isPlaying || speed > 0.0, true, s.silencePending),
              [SetLfoFrequency(LfoRate(speed))] + attack + [SetFilter(Cutoff(speed), Resonance(speed))])
  }

  /** The debounce callback: release the voice if it is sounding, and schedule the gain fallback. */
  function OnQuiet(s: ScrollState): (o: Outcome<ScrollState>)
    ensures !o.state.quietPending
    ensures s.quietPending ==> !o.state.isPlaying
    ensures o.state.lastScrollY == s.lastScrollY
    ensures s.quietPending && s.isPlaying ==> o.out == [Silence] && o.state.silencePending == s.silencePending + 1
    ensures !(s.quietPending && s.isPlaying) ==> o.out == [] && o.state.silencePending == s.silencePending
    ensures !s.quietPending ==> o.state == s
  {
    if !s.quietPending then Outcome(s, [])
    else if s.isPlaying then
      Outcome(s.(isPlaying := false, quietPending := false, silencePending := s.silencePending + 1), [Silence])
    else
      Outcome(s.(quietPending := false), [])
  }

  /** The fallback callback: set the lead gain to 0. */
  function OnSilence(s: ScrollState): (o: Outcome<ScrollState>)
    ensures s.silencePending == 0 ==> o == Outcome(s, [])
    ensures s.silencePending > 0 ==> o.out == [SetGain(0.0)] && o.state == s.(silencePending := s.silencePending - 1)
  {
    if s.silencePending == 0 then Outcome(s, [])
    else Outcome(s.(silencePending := s.silencePending - 1), [SetGain(0.0)])
  }

  function Step(s: ScrollState, h: Handles, e: ScrollEvent): (o: Outcome<ScrollState>)
  {
    match e
    case Sample(y) => OnSample(s, h, y)
    case QuietElapsed => OnQuiet(s)
    case SilenceElapsed => OnSilence(s)
  }

  /** Events in order, with the commands they emit concatenated. */
  function Run(s: ScrollState, h: Handles, events: seq<ScrollEvent>): (o: Outcome<ScrollState>)
    decreases |events|
  {
    if |events| == 0 then Outcome(s, [])
    else
      var first := Step(s, h, events[0]);
      var rest := Run(first.state, h, events[1..]);
      Outcome(rest.state, first.out + rest.out)
  }

  /**
   Whether some sample in `events` changes the scroll position, starting from
   position `last`. Timer events do not move the page and are skipped.
   */
  predicate Moves(last: real, events: seq<ScrollEvent>)
    decreases |events|
  {
    if |events| == 0 then false
    else if events[0].Sample? then events[0].y != last || Moves(events[0].y, events[1..])
    else Moves(last, events[1..])
  }

  predicate OnlySamples(events: seq<ScrollEvent>)
  {
    forall i :: 0 <= i < |events| ==> events[i].Sample?
  }

  /**
   The voice gate is balanced over any run of events: every attack is matched by a
   release except the one still sounding, so `isPlaying` holds exactly when one more
   sustain than release has been issued.
   */
  lemma {:induction false} GateBalanced(s: ScrollState, h: Handles, events: seq<ScrollEvent>)
    ensures var o := Run(s, h, events);
            Occurrences(o.out, Sustain) + (if s.isPlaying then 1 else 0)
            == Occurrences(o.out, Silence) + (if o.state.isPlaying then 1 else 0)
    decreases |events|
  {
    if |events| > 0 {
      var first := Step(s, h, events[0]);
      var rest := Run(first.state, h, events[1..]);
      assert Run(s, h, events) == Outcome(rest.state, first.out + rest.out);
      StepBalanced(s, h, events[0]);
      GateBalanced(first.state, h, events[1..]);
      OccurrencesAppend(first.out, rest.out, Sustain);
      OccurrencesAppend(first.out, rest.out, Silence);
    }
  }

  /** One event keeps the gate balanced. */
  lemma StepBalanced(s: ScrollState, h: Handles, e: ScrollEvent)
    ensures var o := Step(s, h, e);
            Occurrences(o.out, Sustain) + (if s.isPlaying then 1 else 0)
            == Occurrences(o.out, Silence) + (if o.state.isPlaying then 1 else 0)
  {
    match e
    case Sample(y) =>
      var o := OnSample(s, h, y);
      assert Occurrences(o.out, Silence) == 0;
    case QuietElapsed =>
    case SilenceElapsed =>
  }

  /**
   Samples with no timer firing in between attack at most once: exactly once when the
   voice was silent and the position changed at some sample, never otherwise. The last
   sample's position is remembered.
   */
  lemma {:induction false} SamplesAttackOnce(s: ScrollState, h: Handles, events: seq<ScrollEvent>)
    requires LeadReady(h) && OnlySamples(events)
    ensures var o := Run(s, h, events);
            && Occurrences(o.out, Sustain) == (if !s.isPlaying && Moves(s.lastScrollY, events) then 1 else 0)
            && Occurrences(o.out, Silence) == 0
            && (o.state.isPlaying <==> s.isPlaying || Moves(s.lastScrollY, events))
            && (|events| > 0 ==> o.state.lastScrollY == events[|events| - 1].y && o.state.quietPending)
    decreases |events|
  {
    if |events| > 0 {
      var y := events[0].y;
      var first := OnSample(s, h, y);
      assert Step(s, h, events[0]) == first;
      assert OnlySamples(events[1..]) by {
        forall i | 0 <= i < |events[1..]| ensures events[1..][i].Sample? {
          assert events[1..][i] == events[i + 1];
        }
      }
      SamplesAttackOnce(first.state, h, events[1..]);
      var rest := Run(first.state, h, events[1..]);
      assert Run(s, h, events) == Outcome(rest.state, first.out + rest.out);
      OccurrencesAppend(first.out, rest.out, Sustain);
      OccurrencesAppend(first.out, rest.out, Silence);
      assert Moves(s.lastScrollY, events) <==> y != s.lastScrollY || Moves(y, events[1..]);
    }
  }

  /** The voice never sounds without a pending debounce timer that will release it. */
  predicate Armed(s: ScrollState)
  {
    s.isPlaying ==> s.quietPending
  }

  lemma {:induction false} ArmedInvariant(s: ScrollState, h: Handles, events: seq<ScrollEvent>)
    requires Armed(s)
    ensures Armed(Run(s, h, events).state)
    decreases |events|
  {
    if |events| > 0 {
      ArmedInvariant(Step(s, h, events[0]).state, h, events[1..]);
    }
  }

  /** Firing the debounce timer a second time does nothing: there is only ever one to fire. */
  lemma QuietIdempotent(s: ScrollState)
    ensures OnQuiet(OnQuiet(s).state) == Outcome(OnQuiet(s).state, [])
  {
  }

  /**
   A burst of moving scroll samples followed by a quiet period yields exactly one
   sustain and exactly one release, and leaves the voice silent.
   */
  lemma BurstThenQuiet(events: seq<ScrollEvent>)
    requires OnlySamples(events) && Moves(Initial.lastScrollY, events)
    ensures var o := Run(Initial, AllHandles, events + [QuietElapsed]);
            && Occurrences(o.out, Sustain) == 1
            && Occurrences(o.out, Silence) == 1
            && !o.state.isPlaying
  {
    SamplesAttackOnce(Initial, AllHandles, events);
    RunAppend(Initial, AllHandles, events, [QuietElapsed]);
  }

  /** A non-empty run is its first step followed by the run of the rest. */
  lemma RunUnfold(s: ScrollState, h: Handles, events: seq<ScrollEvent>)
    requires |events| > 0
    ensures var first := Step(s, h, events[0]);
            var rest := Run(first.state, h, events[1..]);
            Run(s, h, events) == Outcome(rest.state, first.out + rest.out)
  {
  }

  /** Running two batches of events in turn is running their concatenation. */
  lemma {:induction false} RunAppend(s: ScrollState, h: Handles, a: seq<ScrollEvent>, b: seq<ScrollEvent>)
    ensures var first := Run(s, h, a);
            var second := Run(first.state, h, b);
            Run(s, h, a + b) == Outcome(second.state, first.out + second.out)
    decreases |a|
  {
    if |a| == 0 {
      assert a + b == b;
    } else {
      var ab := a + b;
      assert ab[0] == a[0] && ab[1..] == a[1..] + b;
      RunUnfold(s, h, a);
      RunUnfold(s, h, ab);
      var next := Step(s, h, a[0]).state;
      RunAppend(next, h, a[1..], b);
    }
  }
}
