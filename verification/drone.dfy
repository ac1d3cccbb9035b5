/**
 The drone toggle. The first click builds the drone's oscillator, reverb and gain
 stages; a click while silent starts the oscillator, plays the first step of a
 four-pitch cycle and arms an 8-second repeating timer that plays the next step;
 a click while playing clears that timer, stops the oscillator, fades the gain and
 schedules disposal of the stages one second later.

 Each step glides the oscillator to a pitch and schedules a fall back to 0 three
 seconds later. Neither those falls nor the disposal are cancelled by a stop. The
 callbacks look up the oscillator when they fire; if it has been disposed by then
 they fail on the missing handle and change nothing.
 */
module Drone {
  import opened Audio

  /** The pitch cycle the steps walk through. */
  const Pitches: seq<Note> := ["F2", "G2", "D3", "C3"]

  /** The step counter of `playNote`; it is always a position in `Pitches`. */
  type PitchIndex = i: nat | i < 4

  /**
   `graph`: the drone's nodes exist (`droneGain`, `droneSynth` set);
   `playing`: `dronePlaying`; `index`: the next step of the cycle;
   `interval`: the repeating step timer is armed;
   `pendingFalls`, `pendingDisposals`: one-shot callbacks scheduled and not yet fired.
   */
  datatype DroneState = DroneState(
    graph: bool,
    playing: bool,
    index: PitchIndex,
    interval: bool,
    pendingFalls: nat,
    pendingDisposals: nat)

  const Initial := DroneState(false, false, 0, false, 0, 0)

  datatype DroneEvent =
    | Toggle            // the toggle button is clicked
    | Tick              // the 8-second repeating timer fires
    | FallElapsed       // a 3-second fall-to-zero callback fires
    | DisposalElapsed   // a 1-second disposal callback fires

  /** The repeating timer is armed exactly while the drone plays. */
  predicate Valid(d: DroneState)
  {
    d.interval <==> d.playing
  }

  /** `playNote`: glide to the current pitch, schedule the fall, advance the cycle. */
  function PlayNote(d: DroneState): (o: Outcome<DroneState>)
    requires d.graph
    ensures o.out == [GlideDrone(Pitches[d.index], 1.0)]
    ensures o.state.index == (d.index + 1) % |Pitches|
    ensures o.state.pendingFalls == d.pendingFalls + 1
  {
    Outcome(d.(index := (d.index + 1) % |Pitches|, pendingFalls := d.pendingFalls + 1),
            [GlideDrone(Pitches[d.index], 1.0)])
  }

  /** The toggle button's click listener. */
  function OnToggle(d: DroneState): (o: Outcome<DroneState>)
    ensures o.state.graph && Valid(o.state)
    ensures o.state.playing == !d.playing
    ensures (BuildDrone in o.out) <==> !d.graph
    ensures !d.playing ==> o.out == (if d.graph then [] else [BuildDrone]) + [StartDrone, GlideDrone(Pitches[0], 1.0)]
    ensures !d.playing ==>
              o.state == d.(graph := true, playing := true, interval := true, index := 1, pendingFalls := d.pendingFalls + 1)
    ensures d.playing ==> o.out == (if d.graph then [] else [BuildDrone]) + [StopDrone, FadeDrone(0.5)]
    ensures d.playing ==>
              o.state == d.(graph := true, playing := false, interval := false, pendingDisposals := d.pendingDisposals + 1)
  {
    var built := if d.graph then [] else [BuildDrone];
    var ready := d.(graph := true);
    if !ready.playing then
      var step := PlayNote(ready.(index := 0));
      Outcome(step.state.(interval := true, playing := true), built + [StartDrone] + step.out)
    else
      Outcome(ready.(interval := false, playing := false, pendingDisposals := ready.pendingDisposals + 1),
              built + [StopDrone, FadeDrone(0.5)])
  }

  /** The repeating timer fires; with the oscillator already disposed, `playNote` fails before advancing. */
  function OnTick(d: DroneState): (o: Outcome<DroneState>)
    ensures o.state.playing == d.playing && o.state.interval == d.interval && o.state.graph == d.graph
    ensures d.interval && d.graph ==> o.out == [GlideDrone(Pitches[d.index], 1.0)]
    ensures d.interval && d.graph ==>
              o.state == d.(index := (d.index + 1) % |Pitches|, pendingFalls := d.pendingFalls + 1)
    ensures !(d.interval && d.graph) ==> o == Outcome(d, [])
  {
    if d.interval && d.graph then PlayNote(d) else Outcome(d, [])
  }

  /** A fall-to-zero callback fires; it acts on whatever oscillator exists at that moment. */
  function OnFall(d: DroneState): (o: Outcome<DroneState>)
    ensures d.pendingFalls == 0 ==> o == Outcome(d, [])
    ensures d.pendingFalls > 0 ==> o.state == d.(pendingFalls := d.pendingFalls - 1)
    ensures o.out == (if d.pendingFalls > 0 && d.graph then [FallDrone(0.5)] else [])
  {
    if d.pendingFalls == 0 then Outcome(d, [])
    else Outcome(d.(pendingFalls := d.pendingFalls - 1), if d.graph then [FallDrone(0.5)] else [])
  }

  /** A disposal callback fires: dispose the nodes and drop the handles, so the next click rebuilds them. */
  function OnDisposal(d: DroneState): (o: Outcome<DroneState>)
    ensures d.pendingDisposals == 0 ==> o == Outcome(d, [])
    ensures d.pendingDisposals > 0 ==>
              o.state == d.(graph := false, pendingDisposals := d.pendingDisposals - 1)
    ensures o.out == (if d.pendingDisposals > 0 && d.graph then [DisposeDrone] else [])
  {
    if d.pendingDisposals == 0 then Outcome(d, [])
    else Outcome(d.(graph := false, pendingDisposals := d.pendingDisposals - 1),
                 if d.graph then [DisposeDrone] else [])
  }

  function Step(d: DroneState, e: DroneEvent): (o: Outcome<DroneState>)
  {
    match e
    case Toggle => OnToggle(d)
    case Tick => OnTick(d)
    case FallElapsed => OnFall(d)
    case DisposalElapsed => OnDisposal(d)
  }

  function Run(d: DroneState, events: seq<DroneEvent>): (o: Outcome<DroneState>)
    decreases |events|
  {
    if |events| == 0 then Outcome(d, [])
    else
      var first := Step(d, events[0]);
      var rest := Run(first.state, events[1..]);
      Outcome(rest.state, first.out + rest.out)
  }

  /** A non-empty run is its first step followed by the run of the rest. */
  lemma RunUnfold(d: DroneState, events: seq<DroneEvent>)
    requires |events| > 0
    ensures var first := Step(d, events[0]);
            var rest := Run(first.state, events[1..]);
            Run(d, events) == Outcome(rest.state, first.out + rest.out)
  {
  }

  /** The pitches glided to, in order. */
  function Glides(trace: seq<Command>): (pitches: seq<Note>)
    decreases |trace|
  {
    if |trace| == 0 then []
    else (if trace[0].GlideDrone? then [trace[0].pitch] else []) + Glides(trace[1..])
  }

  lemma {:induction false} GlidesAppend(a: seq<Command>, b: seq<Command>)
    ensures Glides(a + b) == Glides(a) + Glides(b)
    decreases |a|
  {
    if |a| == 0 {
      assert a + b == b;
    } else {
      assert (a + b)[1..] == a[1..] + b;
      GlidesAppend(a[1..], b);
    }
  }

  /** The repeating timer is armed exactly while playing, after any run of events from a valid state. */
  lemma {:induction false} ValidInvariant(d: DroneState, events: seq<DroneEvent>)
    requires Valid(d)
    ensures Valid(Run(d, events).state)
    decreases |events|
  {
    if |events| > 0 {
      ValidInvariant(Step(d, events[0]).state, events[1..]);
    }
  }

  /** Once stopped, nothing starts a new glide until the next toggle. */
  lemma {:induction false} SilentUntilToggled(d: DroneState, events: seq<DroneEvent>)
    requires Valid(d) && !d.playing
    requires forall i :: 0 <= i < |events| ==> events[i] != Toggle
    ensures Glides(Run(d, events).out) == []
    ensures !Run(d, events).state.playing
    decreases |events|
  {
    if |events| > 0 {
      var first := Step(d, events[0]);
      assert Glides(first.out) == [];
      SilentUntilToggled(first.state, events[1..]);
      GlidesAppend(first.out, Run(first.state, events[1..]).out);
    }
  }

  lemma GlidesSingle(c: Command)
    ensures Glides([c]) == (if c.GlideDrone? then [c.pitch] else [])
  {
    assert [c][1..] == [];
  }

  lemma CycleShift(a: PitchIndex, i: nat)
    ensures ((a + 1) % |Pitches| + i) % |Pitches| == (a + (i + 1)) % |Pitches|
  {
  }

  /** The cycle from `a`, `n` steps long, is the pitch at `a` followed by the cycle from the next index. */
  lemma CycleUnfold(a: PitchIndex, n: nat)
    requires n > 0
    ensures seq(n, i => Pitches[(a + i) % |Pitches|])
            == [Pitches[a]] + seq(n - 1, i => Pitches[((a + 1) % |Pitches| + i) % |Pitches|])
  {
    var lhs := seq(n, i => Pitches[(a + i) % |Pitches|]);
    var rhs := [Pitches[a]] + seq(n - 1, i => Pitches[((a + 1) % |Pitches| + i) % |Pitches|]);
    forall i | 0 < i < n
      ensures lhs[i] == rhs[i]
    {
      CycleShift(a, i - 1);
    }
  }

  /**
   `n` repeating-timer firings while playing keep the drone playing, advance the index
   by `n`, schedule one fall each, and leave pending disposals alone.
   */
  lemma {:induction false} TicksSchedule(d: DroneState, n: nat)
    requires d.playing && d.interval && d.graph
    ensures var o := Run(d, seq(n, _ => Tick));
            && o.state == d.(index := (d.index + n) % |Pitches|, pendingFalls := d.pendingFalls + n)
    decreases n
  {
    if n > 0 {
      var ticks := seq(n, _ => Tick);
      assert ticks[0] == Tick;
      assert ticks[1..] == seq(n - 1, _ => Tick);
      RunUnfold(d, ticks);
      TicksSchedule(OnTick(d).state, n - 1);
    }
  }

  /**
   `n` repeating-timer firings while playing walk the pitch cycle from the current index.
   What they do to the rest of the state is `TicksSchedule`.
   */
  lemma {:induction false} TicksWalkCycle(d: DroneState, n: nat)
    requires d.playing && d.interval && d.graph
    ensures Glides(Run(d, seq(n, _ => Tick)).out) == seq(n, i => Pitches[(d.index + i) % |Pitches|])
    decreases n
  {
    if n > 0 {
      var ticks := seq(n, _ => Tick);
      assert ticks[0] == Tick;
      assert ticks[1..] == seq(n - 1, _ => Tick);
      RunUnfold(d, ticks);
      var first := OnTick(d);
      TicksWalkCycle(first.state, n - 1);
      var rest := Run(first.state, ticks[1..]);
      GlidesAppend(first.out, rest.out);
      GlidesSingle(first.out[0]);
      CycleUnfold(d.index, n);
    }
  }

  /** The cycle from the second pitch, after the first, is the cycle from the first. */
  lemma CycleFromStart(n: nat)
    ensures [Pitches[0]] + seq(n, i => Pitches[(1 + i) % |Pitches|]) == seq(n + 1, i => Pitches[i % |Pitches|])
  {
    var got := [Pitches[0]] + seq(n, i => Pitches[(1 + i) % |Pitches|]);
    var want := seq(n + 1, i => Pitches[i % |Pitches|]);
    forall i | 0 < i < n + 1
      ensures got[i] == want[i]
    {
      assert got[i] == Pitches[(1 + (i - 1)) % |Pitches|];
    }
  }

  /** A starting click glides to the first pitch of the cycle, and only to it. */
  lemma StartGlidesFirstPitch(d: DroneState)
    requires !d.playing
    ensures Glides(OnToggle(d).out) == [Pitches[0]]
  {
    var built: seq<Command> := if d.graph then [] else [BuildDrone];
    assert OnToggle(d).out == built + [StartDrone] + [GlideDrone(Pitches[0], 1.0)];
    GlidesAppend(built + [StartDrone], [GlideDrone(Pitches[0], 1.0)]);
    GlidesAppend(built, [StartDrone]);
    GlidesSingle(StartDrone);
    GlidesSingle(GlideDrone(Pitches[0], 1.0));
    if !d.graph {
      GlidesSingle(BuildDrone);
    }
  }

  /** Starting the drone and letting the timer fire `n` times plays F2, G2, D3, C3, F2, ... in order. */
  lemma StartThenTicks(d: DroneState, n: nat)
    requires !d.playing
    ensures var o := Run(d, [Toggle] + seq(n, _ => Tick));
            Glides(o.out) == seq(n + 1, i => Pitches[i % |Pitches|])
  {
    var events := [Toggle] + seq(n, _ => Tick);
    assert events[0] == Toggle;
    assert events[1..] == seq(n, _ => Tick);
    var first := OnToggle(d);
    StartGlidesFirstPitch(d);
    assert first.state.index == 1;
    TicksWalkCycle(first.state, n);
    var rest := Run(first.state, events[1..]);
    assert Run(d, events) == Outcome(rest.state, first.out + rest.out);
    GlidesAppend(first.out, rest.out);
    CycleFromStart(n);
  }

  /**
   Stopping cancels only the repeating timer: a fall scheduled by an earlier step is
   still pending, and if it fires before the disposal it still ramps the oscillator to 0.
   */
  lemma FallSurvivesStop(d: DroneState)
    requires d.playing && d.pendingFalls > 0
    ensures var stopped := OnToggle(d).state;
            && stopped.pendingFalls == d.pendingFalls
            && OnFall(stopped).out == [FallDrone(0.5)]
  {
  }

  /**
   Clicking again before the disposal fires reuses the existing nodes; the disposal
   still pending then removes them while the drone plays.
   */
  lemma RestartBeforeDisposal(d: DroneState)
    requires d.playing && d.graph && d.pendingDisposals == 0
    ensures var restarted := Run(d, [Toggle, Toggle]);
            && restarted.state.playing && restarted.state.graph && restarted.state.pendingDisposals == 1
            && BuildDrone !in restarted.out
            && var disposed := OnDisposal(restarted.state);
               disposed.state.playing && !disposed.state.graph && disposed.out == [DisposeDrone]
  {
    assert [Toggle, Toggle][1..] == [Toggle];
  }

  /** Two clicks from page load, then the disposal delay: stopped, timer cleared, nodes gone. */
  lemma ToggleTwiceThenDispose()
    ensures var o := Run(Initial, [Toggle, Toggle, DisposalElapsed]);
            && !o.state.playing && !o.state.interval && !o.state.graph
            && o.out == [BuildDrone, StartDrone, GlideDrone("F2", 1.0), StopDrone, FadeDrone(0.5), DisposeDrone]
  {
    assert [Toggle, Toggle, DisposalElapsed][1..] == [Toggle, DisposalElapsed];
    assert [Toggle, DisposalElapsed][1..] == [DisposalElapsed];
  }
}
