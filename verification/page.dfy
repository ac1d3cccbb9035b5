/**
 The whole page: the handles the start button creates, the scroll gate, the pressed
 keys and the drone, driven by one stream of events. Each listener touches only its
 own part of the state.
 */
module Page {
  import opened Audio
  import Scroll
  import Keys
  import Drone
  import RandomMix

  datatype PageState = PageState(
    handles: Handles,
    scroll: Scroll.ScrollState,
    pressed: Keys.Pressed,
    drone: Drone.DroneState)

  const Loaded := PageState(NoHandles, Scroll.Initial, map[], Drone.Initial)

  datatype PageEvent =
    | StartClicked
    | ScrollInput(s: Scroll.ScrollEvent)
    | KeyInput(k: Keys.KeyEvent)
    | DroneInput(d: Drone.DroneEvent)
    | RandomMixClicked(r1: Rand, r2: Rand, r3: Rand, r4: Rand, r5: Rand, r6: Rand)

  /** The commands addressed to the drone's own nodes. */
  predicate DroneCommand(c: Command)
  {
    c.BuildDrone? || c.StartDrone? || c.StopDrone? || c.GlideDrone? || c.FallDrone? || c.FadeDrone? || c.DisposeDrone?
  }

  function Step(p: PageState, e: PageEvent): (o: Outcome<PageState>)
    ensures e.StartClicked? ==> o == Outcome(p.(handles := AllHandles), [])
    ensures !e.StartClicked? ==> o.state.handles == p.handles
    ensures !e.ScrollInput? ==> o.state.scroll == p.scroll
    ensures !e.KeyInput? ==> o.state.pressed == p.pressed
    ensures !e.DroneInput? ==> o.state.drone == p.drone
  {
    match e
    case StartClicked => Outcome(p.(handles := AllHandles), [])
    case ScrollInput(s) =>
      var o := Scroll.Step(p.scroll, p.handles, s);
      Outcome(p.(scroll := o.state), o.out)
    case KeyInput(k) =>
      var o := Keys.Step(p.pressed, p.handles, k);
      Outcome(p.(pressed := o.state), o.out)
    case DroneInput(d) =>
      var o := Drone.Step(p.drone, d);
      Outcome(p.(drone := o.state), o.out)
    case RandomMixClicked(r1, r2, r3, r4, r5, r6) =>
      Outcome(p, RandomMix.OnRandomMix(p.handles, r1, r2, r3, r4, r5, r6))
  }

  function Run(p: PageState, events: seq<PageEvent>): (o: Outcome<PageState>)
    decreases |events|
  {
    if |events| == 0 then Outcome(p, [])
    else
      var first := Step(p, events[0]);
      var rest := Run(first.state, events[1..]);
      Outcome(rest.state, first.out + rest.out)
  }

  predicate AllDrone(trace: seq<Command>)
  {
    forall i :: 0 <= i < |trace| ==> DroneCommand(trace[i])
  }

  predicate NoDrone(trace: seq<Command>)
  {
    forall i :: 0 <= i < |trace| ==> !DroneCommand(trace[i])
  }

  lemma ScrollIssuesNoDrone(s: Scroll.ScrollState, h: Handles, e: Scroll.ScrollEvent)
    ensures NoDrone(Scroll.Step(s, h, e).out)
  {
    match e
    case Sample(y) =>
      var o := Scroll.OnSample(s, h, y);
      if Scroll.LeadReady(h) {
        forall i | 0 <= i < |o.out| ensures !DroneCommand(o.out[i]) {
          if 0 < i < |o.out| - 1 {
            assert o.out[i] == Scroll.Sustain;
          }
        }
      }
    case QuietElapsed =>
    case SilenceElapsed =>
  }

  lemma KeysIssueNoDrone(pressed: Keys.Pressed, h: Handles, e: Keys.KeyEvent)
    ensures NoDrone(Keys.Step(pressed, h, e).out)
  {
  }

  lemma DroneIssuesOnlyDrone(d: Drone.DroneState, e: Drone.DroneEvent)
    ensures AllDrone(Drone.Step(d, e).out)
  {
    match e
    case Toggle =>
      var o := Drone.OnToggle(d);
      forall i | 0 <= i < |o.out| ensures DroneCommand(o.out[i]) {
      }
    case Tick =>
    case FallElapsed =>
    case DisposalElapsed =>
  }

  /** Drone commands come from the drone toggle and its timers, and from no other listener. */
  lemma CommandsOwnedByListener(p: PageState, e: PageEvent)
    ensures e.DroneInput? ==> AllDrone(Step(p, e).out)
    ensures !e.DroneInput? ==> NoDrone(Step(p, e).out)
  {
    match e
    case StartClicked =>
    case ScrollInput(s) => ScrollIssuesNoDrone(p.scroll, p.handles, s);
    case KeyInput(k) => KeysIssueNoDrone(p.pressed, p.handles, k);
    case DroneInput(d) => DroneIssuesOnlyDrone(p.drone, d);
    case RandomMixClicked(r1, r2, r3, r4, r5, r6) =>
  }

  /** No handles yet and nothing left over for the scroll timers to do. */
  predicate Unstarted(p: PageState)
  {
    p.handles == NoHandles && !p.scroll.quietPending && p.scroll.silencePending == 0
  }

  /** Before the start button, an event other than a drone one issues nothing and leaves the page unstarted. */
  lemma UnstartedStep(p: PageState, e: PageEvent)
    requires Unstarted(p) && !e.StartClicked?
    ensures Unstarted(Step(p, e).state)
    ensures AllDrone(Step(p, e).out)
  {
    match e
    case ScrollInput(s) =>
    case KeyInput(k) =>
    case DroneInput(d) => CommandsOwnedByListener(p, e);
    case RandomMixClicked(r1, r2, r3, r4, r5, r6) =>
  }

  /**
   Until the start button is clicked, scroll, key and random-mix events are ignored:
   the only commands the page issues are the drone's, whose toggle needs no start.
   */
  lemma {:induction false} OnlyDroneBeforeStart(p: PageState, events: seq<PageEvent>)
    requires Unstarted(p)
    requires forall i :: 0 <= i < |events| ==> !events[i].StartClicked?
    ensures AllDrone(Run(p, events).out)
    decreases |events|
  {
    if |events| > 0 {
      var first := Step(p, events[0]);
      UnstartedStep(p, events[0]);
      assert forall i :: 0 <= i < |events[1..]| ==> !events[1..][i].StartClicked? by {
        forall i | 0 <= i < |events[1..]| ensures !events[1..][i].StartClicked? {
          assert events[1..][i] == events[i + 1];
        }
      }
      OnlyDroneBeforeStart(first.state, events[1..]);
      var rest := Run(first.state, events[1..]);
      assert AllDrone(rest.out);
      assert Run(p, events).out == first.out + rest.out;
      var all := first.out + rest.out;
      forall i | 0 <= i < |all|
        ensures DroneCommand(all[i])
      {
        if i >= |first.out| {
          assert all[i] == rest.out[i - |first.out|];
        } else {
          assert all[i] == first.out[i];
        }
      }
    }
  }
}
