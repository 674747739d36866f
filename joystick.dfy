/**
 * The interrupt-driven five-way joystick input. A press edge on a pin arms
 * a 10 ms polling thread; the thread waits for release and then runs the
 * direction's callback if the press lasted longer than the debounce time.
 * `millis()` and `digitalRead` are parameters; attached interrupts are a map
 * from pin to the routine and edge; callbacks that ran are logged.
 */
module Joystick {
  import opened Common

  datatype Direction = Up | Right | Down | Left | Center

  /** The enum's value, used to index `pins` and `callbacks`. */
  function Index(d: Direction): (i: nat)
    ensures i < 5
  {
    match d
    case Up => 0
    case Right => 1
    case Down => 2
    case Left => 3
    case Center => 4
  }

  /** The five directions are exactly the five array slots. */
  lemma IndexIsBijective(a: Direction, b: Direction, i: nat)
    requires i < 5
    ensures Index(a) == Index(b) ==> a == b
    ensures exists d :: Index(d) == i
  {
    var slots := [Up, Right, Down, Left, Center];
    assert Index(slots[i]) == i;
  }

  datatype WiringType = Unset | ActiveLow | ActiveHigh | ActiveLowPullup | ActiveHighPulldown

  datatype Edge = Rising | Falling

  predicate ActiveHighWiring(w: WiringType) { w == ActiveHigh || w == ActiveHighPulldown }

  /** The edge that signals a press. */
  function PressEdge(w: WiringType): (e: Edge)
    ensures e == Rising <==> ActiveHighWiring(w)
  {
    if w == ActiveHigh || w == ActiveHighPulldown then Rising else Falling
  }

  /** Whether a pin reading HIGH (`levelHigh`) or LOW means "still pressed". */
  function IsPressed(w: WiringType, levelHigh: bool): (p: bool)
    ensures p <==> (levelHigh <==> ActiveHighWiring(w))
    ensures p ==> (levelHigh <==> PressEdge(w) == Rising)
  {
    if w == ActiveHigh || w == ActiveHighPulldown then levelHigh else !levelHigh
  }

  const NoPin: u8 := 0xFF
  const DefaultDebounceMs: u32 := 50
  const PollIntervalMs: nat := 10

  /** A callback: the empty default `noop`, or one installed by the board's setup code. */
  datatype Handler = Noop | Installed(id: nat)

  /** An attached interrupt: which direction's routine, on which edge. */
  datatype Attachment = Attachment(isr: Direction, edge: Edge)

  /** The result of one run of the polling thread. */
  datatype ThreadResult = PollAgain(intervalMs: nat) | ThreadDisabled

  datatype JoyState = JoyState(
    wiring: WiringType, debounceMs: u32, pins: seq<u8>, callbacks: seq<Handler>,
    enabled: bool, intervalMs: nat, runAsap: bool,
    pressedAtMs: u32, pressedDirection: Direction,
    attached: map<u8, Attachment>, fired: seq<Handler>)

  predicate WellFormed(s: JoyState) { |s.pins| == 5 && |s.callbacks| == 5 }

  /** The pins in use: those of the directions whose pin is not 0xFF. */
  function UsedPins(pins: seq<u8>): (r: set<u8>)
    requires |pins| == 5
    ensures forall p :: p in r <==> exists i :: 0 <= i < 5 && pins[i] == p && p != NoPin
  {
    set i | 0 <= i < 5 && pins[i] != NoPin :: pins[i]
  }

  function AttachIf(m: map<u8, Attachment>, pin: u8, d: Direction, e: Edge): map<u8, Attachment>
  {
    if pin != NoPin then m[pin := Attachment(d, e)] else m
  }

  function DetachIf(m: map<u8, Attachment>, pin: u8): map<u8, Attachment>
  {
    if pin != NoPin then m - {pin} else m
  }

  /** The interrupts after start: one per used pin, in the order UP, RIGHT, DOWN, LEFT, CENTER. */
  function Attached(m: map<u8, Attachment>, pins: seq<u8>, e: Edge): (r: map<u8, Attachment>)
    requires |pins| == 5
    ensures r.Keys == m.Keys + UsedPins(pins)
    ensures forall p :: p in UsedPins(pins) ==> r[p].edge == e
    ensures forall p :: p in m && p !in UsedPins(pins) ==> r[p] == m[p]
  {
    var m1 := AttachIf(m, pins[0], Up, e);
    var m2 := AttachIf(m1, pins[1], Right, e);
    var m3 := AttachIf(m2, pins[2], Down, e);
    var m4 := AttachIf(m3, pins[3], Left, e);
    AttachIf(m4, pins[4], Center, e)
  }

  /** The interrupts after stop, detached in the order UP, LEFT, DOWN, RIGHT, CENTER. */
  function Detached(m: map<u8, Attachment>, pins: seq<u8>): (r: map<u8, Attachment>)
    requires |pins| == 5
    ensures r == m - UsedPins(pins)
  {
    var m1 := DetachIf(m, pins[0]);
    var m2 := DetachIf(m1, pins[3]);
    var m3 := DetachIf(m2, pins[2]);
    var m4 := DetachIf(m3, pins[1]);
    DetachIf(m4, pins[4])
  }

  /** The freshly constructed singleton: thread disabled, nothing attached. */
  const Initial: JoyState := JoyState(
    Unset, DefaultDebounceMs, [NoPin, NoPin, NoPin, NoPin, NoPin], [Noop, Noop, Noop, Noop, Noop],
    false, 0, false, 0, Up, map[], [])

  function StartState(s: JoyState): (r: JoyState)
    requires WellFormed(s) && s.wiring != Unset
    ensures WellFormed(r) && r == s.(attached := r.attached)
    ensures r.attached.Keys == s.attached.Keys + UsedPins(s.pins)
    ensures forall i :: 0 <= i < 5 && s.pins[i] != NoPin ==>
      r.attached[s.pins[i]].edge == PressEdge(s.wiring)
  {
    s.(attached := Attached(s.attached, s.pins, PressEdge(s.wiring)))
  }

  function StopState(s: JoyState): (r: JoyState)
    requires WellFormed(s)
    ensures WellFormed(r) && r == s.(attached := s.attached - UsedPins(s.pins))
  {
    s.(attached := Detached(s.attached, s.pins))
  }

  /** handlePressBegin: ignored while polling, otherwise records the press and arms the poll. */
  function PressBegin(s: JoyState, d: Direction, now: u32): (r: JoyState)
    ensures s.enabled ==> r == s
    ensures !s.enabled ==> r == s.(pressedAtMs := now, pressedDirection := d, intervalMs := PollIntervalMs,
                                   enabled := true, runAsap := true)
  {
    if s.enabled then s
    else s.(pressedAtMs := now, pressedDirection := d, intervalMs := PollIntervalMs, enabled := true, runAsap := true)
  }

  /** runOnce, given the level now read from the pressed direction's pin. */
  function Poll(s: JoyState, levelHigh: bool, now: u32): (r: (JoyState, ThreadResult))
    requires WellFormed(s)
    ensures IsPressed(s.wiring, levelHigh) ==> r == (s, PollAgain(s.intervalMs))
    ensures !IsPressed(s.wiring, levelHigh) ==>
      (&& r.1 == ThreadDisabled && !r.0.enabled
       && r.0 == s.(enabled := false, fired := r.0.fired)
       && r.0.fired == s.fired
         + (if Sub32(now, s.pressedAtMs) > s.debounceMs then [s.callbacks[Index(s.pressedDirection)]] else []))
  {
    if IsPressed(s.wiring, levelHigh) then (s, PollAgain(s.intervalMs))
    else
      var duration := Sub32(now, s.pressedAtMs);
      var fired := if duration > s.debounceMs then s.fired + [s.callbacks[Index(s.pressedDirection)]] else s.fired;
      (s.(enabled := false, fired := fired), ThreadDisabled)
  }

  /** What may happen between two polls: an ISR's press edge, or the thread running. */
  datatype Event = PressEdgeSeen(d: Direction, at: u32) | ThreadRun(levelHigh: bool, at: u32)

  /** One event; the scheduler runs the thread only while it is enabled. */
  function Step(s: JoyState, e: Event): (r: JoyState)
    requires WellFormed(s)
    ensures WellFormed(r)
  {
    match e
    case PressEdgeSeen(d, t) => PressBegin(s, d, t)
    case ThreadRun(level, t) => if s.enabled then Poll(s, level, t).0 else s
  }

  function Run(s: JoyState, evs: seq<Event>): (r: JoyState)
    requires WellFormed(s)
    ensures WellFormed(r)
    decreases |evs|
  {
    if evs == [] then s else Run(Step(s, evs[0]), evs[1..])
  }

  /** The press edges that start a press cycle: those that arrive while the thread is disabled. */
  function AcceptedPresses(s: JoyState, evs: seq<Event>): nat
    requires WellFormed(s)
    decreases |evs|
  {
    if evs == [] then 0
    else (if evs[0].PressEdgeSeen? && !s.enabled then 1 else 0) + AcceptedPresses(Step(s, evs[0]), evs[1..])
  }

  /** Contact bounce cannot restart the debounce timer: edges while polling change nothing. */
  lemma BounceIgnored(s: JoyState, d: Direction, now: u32)
    requires s.enabled
    ensures PressBegin(s, d, now).pressedAtMs == s.pressedAtMs
    ensures PressBegin(s, d, now).pressedDirection == s.pressedDirection
  {
  }

  /**
   * A callback fires only on release polls, and only when the press lasted
   * strictly longer than the debounce time measured in wrapping 32-bit ms.
   */
  lemma {:induction false} FiresOnlyAfterDebounce(s: JoyState, d: Direction, t0: u32, holds: nat, level: bool, t1: u32)
    requires WellFormed(s) && !s.enabled
    requires !IsPressed(s.wiring, level)
    ensures var s1 := PressBegin(s, d, t0);
      var r := Poll(s1, level, t1).0;
      && !r.enabled
      && (|r.fired| == |s.fired| + 1 <==> Sub32(t1, t0) > s.debounceMs)
      && (|r.fired| == |s.fired| + 1 ==> r.fired[|s.fired|] == s.callbacks[Index(d)])
  {
  }

  /**
   * At most one callback per press cycle: over any sequence of edges and
   * thread runs, the callbacks fired, plus one if a poll is still pending,
   * never exceed the press edges that armed the thread.
   */
  lemma {:induction false} OneCallbackPerPress(s: JoyState, evs: seq<Event>)
    requires WellFormed(s)
    ensures var r := Run(s, evs);
      |r.fired| - |s.fired| + (if r.enabled then 1 else 0) <= AcceptedPresses(s, evs) + (if s.enabled then 1 else 0)
      && |r.fired| >= |s.fired|
    decreases |evs|
  {
    if evs != [] {
      var s' := Step(s, evs[0]);
      assert |s'.fired| - |s.fired| + (if s'.enabled then 1 else 0)
        <= (if evs[0].PressEdgeSeen? && !s.enabled then 1 else 0) + (if s.enabled then 1 else 0);
      OneCallbackPerPress(s', evs[1..]);
    }
  }

  /** Light sleep stops and restarts the joystick: the same interrupts are attached afterwards. */
  lemma SleepRestoresInterrupts(s: JoyState)
    requires WellFormed(s) && s.wiring != Unset
    ensures StartState(StopState(StartState(s))) == StartState(s)
  {
    var a := StartState(s).attached;
    var b := StartState(StopState(StartState(s))).attached;
    assert a.Keys == b.Keys;
    forall p | p in a
      ensures a[p] == b[p]
    {
      if p in UsedPins(s.pins) {
        AttachedValue(s.attached, s.pins, PressEdge(s.wiring), p);
        AttachedValue(s.attached - UsedPins(s.pins), s.pins, PressEdge(s.wiring), p);
      }
    }
  }

  /** Which routine ends up on a used pin does not depend on the map it was attached into. */
  lemma AttachedValue(m: map<u8, Attachment>, pins: seq<u8>, e: Edge, p: u8)
    requires |pins| == 5 && p in UsedPins(pins)
    ensures Attached(m, pins, e)[p] == Attachment(LastUsing(pins, p), e)
  {
  }

  /** The last direction, in attach order, whose pin is `p`. */
  function LastUsing(pins: seq<u8>, p: u8): Direction
    requires |pins| == 5
  {
    if pins[4] == p then Center else if pins[3] == p then Left else if pins[2] == p then Down
    else if pins[1] == p then Right else Up
  }

  /** With distinct pins, each used pin runs its own direction's routine. */
  lemma DistinctPinsOwnRoutine(s: JoyState, d: Direction)
    requires WellFormed(s) && s.wiring != Unset
    requires forall i, j :: 0 <= i < j < 5 ==> s.pins[i] != s.pins[j] || s.pins[i] == NoPin
    requires s.pins[Index(d)] != NoPin
    ensures StartState(s).attached[s.pins[Index(d)]] == Attachment(d, PressEdge(s.wiring))
  {
    AttachedValue(s.attached, s.pins, PressEdge(s.wiring), s.pins[Index(d)]);
  }

  /** The joystick singleton. */
  class GPIOJoystick {
    var wiring: WiringType
    var debounceMs: u32
    const pins: array<u8>
    const callbacks: array<Handler>
    var enabled: bool
    var intervalMs: nat
    var runAsap: bool
    var pressedAtMs: u32
    var pressedDirection: Direction
    var attached: map<u8, Attachment>
    var fired: seq<Handler>

    predicate Valid()
      reads this
    {
      pins.Length == 5 && callbacks.Length == 5
    }

    function State(): (s: JoyState)
      reads this, pins, callbacks
    {
      JoyState(wiring, debounceMs, pins[..], callbacks[..], enabled, intervalMs, runAsap,
               pressedAtMs, pressedDirection, attached, fired)
    }

    constructor ()
      ensures Valid() && fresh(pins) && fresh(callbacks)
      ensures State() == Initial
    {
      wiring := Unset;
      debounceMs := DefaultDebounceMs;
      pins := new u8[5](_ => NoPin);
      callbacks := new Handler[5](_ => Noop);
      enabled := false;
      intervalMs := 0;
      runAsap := false;
      pressedAtMs := 0;
      pressedDirection := Up;
      attached := map[];
      fired := [];
      new;
      assert pins[..] == [NoPin, NoPin, NoPin, NoPin, NoPin];
      assert callbacks[..] == [Noop, Noop, Noop, Noop, Noop];
    }

    method SetWiringType(w: WiringType)
      modifies this`wiring
      ensures State() == old(State()).(wiring := w)
    {
      wiring := w;
    }

    method SetDebounce(ms: u32)
      modifies this`debounceMs
      ensures State() == old(State()).(debounceMs := ms)
    {
      debounceMs := ms;
    }

    method SetPin(d: Direction, pin: u8)
      requires Valid()
      modifies pins
      ensures State() == old(State()).(pins := old(pins[..])[Index(d) := pin])
    {
      pins[Index(d)] := pin;
    }

    method SetHandler(d: Direction, onPress: Handler)
      requires Valid()
      modifies callbacks
      ensures State() == old(State()).(callbacks := old(callbacks[..])[Index(d) := onPress])
    {
      callbacks[Index(d)] := onPress;
    }

    method Start()
      requires Valid() && wiring != Unset
      modifies this`attached
      ensures State() == StartState(old(State()))
    {
      var edge := if wiring == ActiveHigh || wiring == ActiveHighPulldown then Rising else Falling;
      attached := AttachIf(attached, pins[0], Up, edge);
      attached := AttachIf(attached, pins[1], Right, edge);
      attached := AttachIf(attached, pins[2], Down, edge);
      attached := AttachIf(attached, pins[3], Left, edge);
      attached := AttachIf(attached, pins[4], Center, edge);
    }

    method Stop()
      requires Valid()
      modifies this`attached
      ensures State() == StopState(old(State()))
    {
      attached := DetachIf(attached, pins[0]);
      attached := DetachIf(attached, pins[3]);
      attached := DetachIf(attached, pins[2]);
      attached := DetachIf(attached, pins[1]);
      attached := DetachIf(attached, pins[4]);
    }

    /** Called from the direction's interrupt routine with the current `millis()`. */
    method HandlePressBegin(d: Direction, now: u32)
      modifies this`pressedAtMs, this`pressedDirection, this`intervalMs, this`enabled, this`runAsap
      ensures State() == PressBegin(old(State()), d, now)
    {
      if enabled {
        return;
      }
      pressedAtMs := now;
      pressedDirection := d;
      intervalMs := PollIntervalMs;
      enabled := true;
      runAsap := true;
    }

    /** The thread body, run by the scheduler only while enabled. */
    method RunOnce(levelHigh: bool, now: u32) returns (r: ThreadResult)
      requires Valid() && enabled
      modifies this`enabled, this`fired
      ensures (State(), r) == Poll(old(State()), levelHigh, now)
    {
      var isPressed;
      if wiring == ActiveHigh || wiring == ActiveHighPulldown {
        isPressed := levelHigh;
      } else {
        isPressed := !levelHigh;
      }
      if isPressed {
        return PollAgain(intervalMs);
      }
      var duration := Sub32(now, pressedAtMs);
      if duration > debounceMs {
        fired := fired + [callbacks[Index(pressedDirection)]];
      }
      enabled := false;
      return ThreadDisabled;
    }

    method BeforeLightSleep() returns (r: int)
      requires Valid()
      modifies this`attached
      ensures r == 0 && State() == StopState(old(State()))
    {
      Stop();
      return 0;
    }

    method AfterLightSleep() returns (r: int)
      requires Valid() && wiring != Unset
      modifies this`attached
      ensures r == 0 && State() == StartState(old(State()))
    {
      Start();
      return 0;
    }
  }
}
