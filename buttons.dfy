/** The hold gestures of the two steering-column buttons (`handle_button_timing`):
    holding the trip button for a second resets the trip, holding the average
    button for a second resets the average, and holding both for a second
    advances the dashboard style. Each gesture fires once per hold. Time is
    the caller's millisecond tick count (`pygame.time.get_ticks()`). */
module Buttons {

  /** A hold must last this many milliseconds to fire. */
  const HoldTime: int := 1000

  /** The number of dashboard styles; the combo gesture cycles through them. */
  const StyleCount: int := 5

  /** The six timing globals. A start time of 0 means "not being held". */
  datatype Timers = Timers(
    tripStart: int, avgStart: int, comboStart: int,
    tripTriggered: bool, avgTriggered: bool, comboTriggered: bool)

  const Idle: Timers := Timers(0, 0, 0, false, false, false)

  /** What one tick does besides updating the timers. `StyleRaised` is the
      combo firing while the current style has no name (a saved style outside
      0..4): the name lookup raises after the style was advanced and before
      it is saved, so the gesture is not marked as fired. */
  datatype Action = NoAction | TripReset | AvgReset | StyleSaved | StyleRaised

  /** Whether a style index has a name in the style table. */
  predicate NamedStyle(style: int)
  {
    0 <= style < StyleCount
  }

  /** Python's `(style + 1) % 5`: the result is never negative. */
  function NextStyle(style: int): (s: int)
    ensures NamedStyle(s)
    ensures NamedStyle(style) ==> s == if style == StyleCount - 1 then 0 else style + 1
  {
    (style + 1) % StyleCount
  }

  /** The result of one tick: new timers, new style, and the action taken. */
  datatype Tick = Tick(timers: Timers, style: int, action: Action)

  /** A single button's half of the tick: record the start of a hold, fire
      once after `HoldTime`, reset on release. */
  function SingleStep(pressed: bool, start: int, triggered: bool, now: int): (r: (int, bool, bool))
    ensures r.2 <==> pressed && start != 0 && now - start >= HoldTime && !triggered
    ensures !pressed ==> r.0 == 0 && !r.1
    ensures pressed && start == 0 ==> r.0 == now && !r.1
    ensures pressed && start != 0 ==> r.0 == start && (r.1 <==> triggered || r.2)
  {
    if pressed then
      if start == 0 then (now, false, false)
      else if now - start >= HoldTime && !triggered then (start, true, true)
      else (start, triggered, false)
    else (0, false, false)
  }

  /** One call of `handle_button_timing` with the button states of a frame. */
  function ButtonStep(b: Timers, style: int, trip: bool, avg: bool, now: int): Tick
  {
    if trip && avg then
      if b.comboStart == 0 then
        Tick(b.(comboStart := now, comboTriggered := false), style, NoAction)
      else if now - b.comboStart >= HoldTime && !b.comboTriggered then
        if NamedStyle(style) then Tick(b.(comboTriggered := true), NextStyle(style), StyleSaved)
        else Tick(b, NextStyle(style), StyleRaised)
      else Tick(b, style, NoAction)
    else
      var b1 := if !trip && !avg && b.comboStart > 0 then b.(comboStart := 0, comboTriggered := false) else b;
      var (ts, tt, tripFire) := SingleStep(trip, b1.tripStart, b1.tripTriggered, now);
      var (as_, at, avgFire) := SingleStep(avg, b1.avgStart, b1.avgTriggered, now);
      var b2 := b1.(tripStart := ts, tripTriggered := tt, avgStart := as_, avgTriggered := at);
      Tick(b2, style, if tripFire then TripReset else if avgFire then AvgReset else NoAction)
  }

  /** The guarantees of one tick:
      - while both buttons are down the single-button timers are untouched
        and neither single action fires;
      - the combo fires only after a hold of `HoldTime` recorded on an
        earlier tick, and moves the style to `(style + 1) mod 5`;
      - the combo state is cleared only when both buttons are up, and only
        changes with one button down when it is cleared;
      - a single button fires only after its own hold of `HoldTime` recorded
        on an earlier tick, and its release resets its timer. */
  lemma ButtonStepEffect(b: Timers, style: int, trip: bool, avg: bool, now: int)
    ensures var t := ButtonStep(b, style, trip, avg, now);
            (trip && avg ==>
               t.timers.tripStart == b.tripStart && t.timers.avgStart == b.avgStart &&
               t.timers.tripTriggered == b.tripTriggered && t.timers.avgTriggered == b.avgTriggered &&
               t.action != TripReset && t.action != AvgReset)
    ensures var t := ButtonStep(b, style, trip, avg, now);
            (t.action == StyleSaved || t.action == StyleRaised) <==>
              (trip && avg && b.comboStart != 0 && now - b.comboStart >= HoldTime && !b.comboTriggered)
    ensures var t := ButtonStep(b, style, trip, avg, now);
            (t.action == StyleSaved ==> NamedStyle(style) && t.style == NextStyle(style) && t.timers.comboTriggered) &&
            (t.style != style ==> t.action == StyleSaved || t.action == StyleRaised)
    ensures var t := ButtonStep(b, style, trip, avg, now);
            (trip != avg ==> t.timers.comboStart == b.comboStart && t.timers.comboTriggered == b.comboTriggered) &&
            (!trip && !avg ==> t.timers.comboStart == (if b.comboStart > 0 then 0 else b.comboStart))
    ensures var t := ButtonStep(b, style, trip, avg, now);
            (t.action == TripReset ==> trip && !avg && b.tripStart != 0 && now - b.tripStart >= HoldTime && !b.tripTriggered) &&
            (t.action == AvgReset ==> avg && !trip && b.avgStart != 0 && now - b.avgStart >= HoldTime && !b.avgTriggered) &&
            (!trip ==> t.timers.tripStart == 0 && !t.timers.tripTriggered) &&
            (!avg ==> t.timers.avgStart == 0 && !t.timers.avgTriggered)
  {
  }

  // ---------------------------------------------------------------------
  // Runs of ticks
  // ---------------------------------------------------------------------

  /** One frame's input: the two button states and the tick count. */
  datatype Input = Input(trip: bool, avg: bool, now: int)

  /** The actions of a run of ticks, in order. */
  function Run(b: Timers, style: int, inputs: seq<Input>): (actions: seq<Action>)
    ensures |actions| == |inputs|
    decreases |inputs|
  {
    if inputs == [] then []
    else
      var t := ButtonStep(b, style, inputs[0].trip, inputs[0].avg, inputs[0].now);
      [t.action] + Run(t.timers, t.style, inputs[1..])
  }

  function Count(actions: seq<Action>, a: Action): nat
  {
    if actions == [] then 0 else (if actions[0] == a then 1 else 0) + Count(actions[1..], a)
  }

  /** The trip button alone is held down on every tick of `inputs`. */
  predicate TripHeld(inputs: seq<Input>)
  {
    forall i :: 0 <= i < |inputs| ==> inputs[i].trip && !inputs[i].avg
  }

  /** Holding the trip button continuously fires the trip reset at most
      once, whatever the state the hold starts from. */
  lemma {:induction false} TripFiresOncePerHold(b: Timers, style: int, inputs: seq<Input>)
    requires TripHeld(inputs)
    ensures Count(Run(b, style, inputs), TripReset) <= 1
    ensures b.tripTriggered && b.tripStart != 0 ==> Count(Run(b, style, inputs), TripReset) == 0
    decreases |inputs|
  {
    if inputs != [] {
      var t := ButtonStep(b, style, inputs[0].trip, inputs[0].avg, inputs[0].now);
      assert TripHeld(inputs[1..]);
      TripFiresOncePerHold(t.timers, t.style, inputs[1..]);
      if t.action == TripReset {
        assert t.timers.tripTriggered && t.timers.tripStart != 0;
      }
    }
  }

  /** Tick counts that are positive and never go backwards. */
  predicate Ascending(inputs: seq<Input>)
  {
    (forall i :: 0 <= i < |inputs| ==> inputs[i].now > 0) &&
    (forall i, j :: 0 <= i <= j < |inputs| ==> inputs[i].now <= inputs[j].now)
  }

  /** A hold that starts on tick `start` with the button marked as not yet
      fired fires exactly when the last tick is `HoldTime` or more after it. */
  lemma {:induction false} HoldFromStart(b: Timers, style: int, start: int, inputs: seq<Input>)
    requires TripHeld(inputs) && Ascending(inputs)
    requires b.tripStart == start > 0 && !b.tripTriggered
    requires forall i :: 0 <= i < |inputs| ==> start <= inputs[i].now
    ensures Count(Run(b, style, inputs), TripReset) == if inputs != [] && inputs[|inputs| - 1].now - start >= HoldTime then 1 else 0
    decreases |inputs|
  {
    if inputs != [] {
      var t := ButtonStep(b, style, inputs[0].trip, inputs[0].avg, inputs[0].now);
      var rest := inputs[1..];
      assert TripHeld(rest) && Ascending(rest);
      if t.action == TripReset {
        TripFiresOncePerHold(t.timers, t.style, rest);
        if rest != [] {
          assert inputs[0].now <= rest[|rest| - 1].now;
        }
      } else {
        HoldFromStart(t.timers, t.style, start, rest);
        if rest != [] {
          assert rest[|rest| - 1] == inputs[|inputs| - 1];
        }
      }
    }
  }

  /** A hold of the trip button from rest (no earlier hold recorded) fires
      the reset exactly once when the last tick is at least `HoldTime` after
      the first, and not at all otherwise. */
  lemma HoldFromIdle(b: Timers, style: int, inputs: seq<Input>)
    requires TripHeld(inputs) && Ascending(inputs) && inputs != []
    requires b.tripStart == 0
    ensures Count(Run(b, style, inputs), TripReset) ==
            if inputs[|inputs| - 1].now - inputs[0].now >= HoldTime then 1 else 0
  {
    var t := ButtonStep(b, style, inputs[0].trip, inputs[0].avg, inputs[0].now);
    var rest := inputs[1..];
    assert TripHeld(rest) && Ascending(rest);
    assert t.action == NoAction && t.timers.tripStart == inputs[0].now && !t.timers.tripTriggered;
    HoldFromStart(t.timers, t.style, inputs[0].now, rest);
    if rest != [] {
      assert rest[|rest| - 1] == inputs[|inputs| - 1];
    }
  }

  /** Both buttons are held down on every tick of `inputs`. */
  predicate ComboHeld(inputs: seq<Input>)
  {
    forall i :: 0 <= i < |inputs| ==> inputs[i].trip && inputs[i].avg
  }

  /** Holding both buttons saves a new style at most once per hold, and the
      style stays a named one from the first save on. */
  lemma {:induction false} ComboSavesOncePerHold(b: Timers, style: int, inputs: seq<Input>)
    requires ComboHeld(inputs)
    ensures Count(Run(b, style, inputs), StyleSaved) <= 1
    ensures b.comboTriggered && b.comboStart != 0 ==> Count(Run(b, style, inputs), StyleSaved) == 0
    ensures Count(Run(b, style, inputs), TripReset) == 0 && Count(Run(b, style, inputs), AvgReset) == 0
    decreases |inputs|
  {
    if inputs != [] {
      var t := ButtonStep(b, style, inputs[0].trip, inputs[0].avg, inputs[0].now);
      assert ComboHeld(inputs[1..]);
      ComboSavesOncePerHold(t.timers, t.style, inputs[1..]);
    }
  }
}
