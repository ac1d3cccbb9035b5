/**
 The keyboard voice: a key-down attacks a randomly chosen note and remembers it
 under the key; the matching key-up releases exactly that note and forgets the key.
 Auto-repeated key-downs of a held key are ignored.
 */
module Keys {
  import opened Audio

  /** `event.key`, such as "a" or "Shift". */
  type Key = string

  /** `pressedKeys`: each held key and the note it attacked. */
  type Pressed = map<Key, Note>

  /** The six notes a key-down chooses from. */
  const Notes: seq<Note> := ["F4", "A4", "D5", "E5", "F5", "A6"]

  datatype KeyEvent = Down(key: Key, r: Rand) | Up(key: Key)

  /** `Math.floor(Math.random() * notes.length)`. */
  function Pick(r: Rand): (i: nat)
    ensures i < |Notes|
    ensures i as real <= r * |Notes| as real < i as real + 1.0
  {
    (r * |Notes| as real).Floor
  }

  /** Every note can be chosen: each has a draw that picks it. */
  lemma PickReachesEveryNote(i: nat)
    requires i < |Notes|
    ensures var r: Rand := i as real / |Notes| as real; Pick(r) == i
  {
    var r: Rand := i as real / |Notes| as real;
    assert r * |Notes| as real == i as real;
  }

  /** The keydown listener. */
  function KeyDown(pressed: Pressed, h: Handles, key: Key, r: Rand): (o: Outcome<Pressed>)
    ensures !h.keySynth || key in pressed ==> o == Outcome(pressed, [])
    ensures h.keySynth && key !in pressed ==>
              && key in o.state
              && o.state[key] in Notes
              && o.state == pressed[key := o.state[key]]
              && o.out == [Attack(Keys, o.state[key])]
  {
    if !h.keySynth || key in pressed then Outcome(pressed, [])
    else
      var note := Notes[Pick(r)];
      Outcome(pressed[key := note], [Attack(Keys, note)])
  }

  /** The keyup listener. */
  function KeyUp(pressed: Pressed, h: Handles, key: Key): (o: Outcome<Pressed>)
    ensures !h.keySynth || key !in pressed ==> o == Outcome(pressed, [])
    ensures h.keySynth && key in pressed ==>
              && o.out == [Release(Keys, Some(pressed[key]))]
              && o.state.Keys == pressed.Keys - {key}
              && (forall k :: k in o.state ==> o.state[k] == pressed[k])
  {
    if !h.keySynth || key !in pressed then Outcome(pressed, [])
    else Outcome(pressed - {key}, [Release(Keys, Some(pressed[key]))])
  }

  function Step(pressed: Pressed, h: Handles, e: KeyEvent): (o: Outcome<Pressed>)
  {
    match e
    case Down(key, r) => KeyDown(pressed, h, key, r)
    case Up(key) => KeyUp(pressed, h, key)
  }

  function Run(pressed: Pressed, h: Handles, events: seq<KeyEvent>): (o: Outcome<Pressed>)
    decreases |events|
  {
    if |events| == 0 then Outcome(pressed, [])
    else
      var first := Step(pressed, h, events[0]);
      var rest := Run(first.state, h, events[1..]);
      Outcome(rest.state, first.out + rest.out)
  }

  /** Pressing a key that is not held and letting it go releases the note it attacked and restores the map. */
  lemma PressReleaseRoundTrip(pressed: Pressed, h: Handles, key: Key, r: Rand)
    requires h.keySynth && key !in pressed
    ensures var down := KeyDown(pressed, h, key, r);
            var up := KeyUp(down.state, h, key);
            && up.state == pressed
            && down.out == [Attack(Keys, Notes[Pick(r)])]
            && up.out == [Release(Keys, Some(Notes[Pick(r)]))]
  {
    var down := KeyDown(pressed, h, key, r);
    assert down.state - {key} == pressed;
  }

  /** An auto-repeated key-down attacks nothing and keeps the first note. */
  lemma AutoRepeatIgnored(pressed: Pressed, h: Handles, key: Key, r1: Rand, r2: Rand)
    ensures var first := KeyDown(pressed, h, key, r1);
            var second := KeyDown(first.state, h, key, r2);
            second == Outcome(first.state, [])
  {
  }

  /** Keys other than the one pressed or released keep their notes. */
  lemma OtherKeysUntouched(pressed: Pressed, h: Handles, e: KeyEvent, k: Key)
    requires k != e.key
    ensures var o := Step(pressed, h, e);
            (k in o.state <==> k in pressed) && (k in pressed ==> o.state[k] == pressed[k])
  {
  }

  /** The keys currently holding note `n`. */
  function Holding(pressed: Pressed, n: Note): (holders: set<Key>)
  {
    set k | k in pressed && pressed[k] == n
  }

  /** Adding a key that is not held to the holders of its note grows that set by one, and leaves other notes' sets alone. */
  lemma HoldingInsert(pressed: Pressed, key: Key, note: Note, n: Note)
    requires key !in pressed
    ensures note == n ==> Holding(pressed[key := note], n) == Holding(pressed, n) + {key}
    ensures note != n ==> Holding(pressed[key := note], n) == Holding(pressed, n)
    ensures key !in Holding(pressed, n)
  {
  }

  /** Removing a held key takes it out of the holders of its note only. */
  lemma HoldingRemove(pressed: Pressed, key: Key, n: Note)
    requires key in pressed
    ensures pressed[key] == n ==> Holding(pressed, n) == Holding(pressed - {key}, n) + {key}
    ensures pressed[key] != n ==> Holding(pressed - {key}, n) == Holding(pressed, n)
    ensures key !in Holding(pressed - {key}, n)
  {
  }

  /** One event keeps the per-note balance of attacks, releases and held keys. */
  lemma StepBalanced(pressed: Pressed, h: Handles, e: KeyEvent, n: Note)
    ensures var o := Step(pressed, h, e);
            Occurrences(o.out, Attack(Keys, n)) + |Holding(pressed, n)|
            == Occurrences(o.out, Release(Keys, Some(n))) + |Holding(o.state, n)|
  {
    match e
    case Down(key, r) =>
      if h.keySynth && key !in pressed {
        HoldingInsert(pressed, key, Notes[Pick(r)], n);
      }
    case Up(key) =>
      if h.keySynth && key in pressed {
        HoldingRemove(pressed, key, n);
      }
  }

  /**
   Over any run of key events, for every note, the attacks issued for it plus the keys
   holding it at the start equal the releases issued for it plus the keys holding it
   at the end: no note is released that was not attacked, and none is lost.
   */
  lemma {:induction false} RunBalanced(pressed: Pressed, h: Handles, events: seq<KeyEvent>, n: Note)
    ensures var o := Run(pressed, h, events);
            Occurrences(o.out, Attack(Keys, n)) + |Holding(pressed, n)|
            == Occurrences(o.out, Release(Keys, Some(n))) + |Holding(o.state, n)|
    decreases |events|
  {
    if |events| > 0 {
      StepBalanced(pressed, h, events[0], n);
      RunBalanced(Step(pressed, h, events[0]).state, h, events[1..], n);
    }
  }
}
