/** The keyboard-driven input axes of the flight controller.

    Two discrete axes, pitch and yaw, each in {-1, 0, 1}, are driven by
    key-down and key-up edges of the keys "w", "s", "a" and "d". A key-down
    overwrites its axis; a key-up clears its axis only while the axis still
    holds the value that key sets, so a release made stale by the opposite
    key's later press is ignored. */
module Input {

  /** The four bound keys; every other key name is `Other`. */
  datatype Key = W | S | A | D | Other

  datatype EventKind = KeyDown | KeyUp

  /** A keyboard event as the host delivers it: its kind and the raw,
      case-sensitive key name. */
  datatype KeyboardInfo = KeyboardInfo(kind: EventKind, key: string)

  datatype Axis = Pitch | Yaw

  /** The axis a bound key drives and the value a press of it sets. */
  datatype Binding = Binding(axis: Axis, value: int)

  datatype AxisState = AxisState(pitch: int, yaw: int)

  const NEUTRAL := AxisState(0, 0)

  /** The key name each bound key answers to. */
  function Name(k: Key): string
  {
    match k
    case W => "w"
    case S => "s"
    case A => "a"
    case D => "d"
    case Other => ""
  }

  /** Classifies a raw key name; the comparison is exact, so "W" is `Other`. */
  function KeyOf(name: string): Key
  {
    if name == "w" then W
    else if name == "s" then S
    else if name == "a" then A
    else if name == "d" then D
    else Other
  }

  /** The key map: w/s drive pitch to +1/-1, a/d drive yaw to -1/+1. */
  function BindingOf(k: Key): (b: Binding)
    requires k != Other
    ensures b.value == 1 || b.value == -1
    ensures b.axis == Pitch <==> k == W || k == S
  {
    match k
    case W => Binding(Pitch, 1)
    case S => Binding(Pitch, -1)
    case A => Binding(Yaw, -1)
    case D => Binding(Yaw, 1)
  }

  predicate InRange(v: int)
  {
    v == -1 || v == 0 || v == 1
  }

  predicate Valid(s: AxisState)
  {
    InRange(s.pitch) && InRange(s.yaw)
  }

  function Get(s: AxisState, axis: Axis): int
  {
    match axis
    case Pitch => s.pitch
    case Yaw => s.yaw
  }

  function Set(s: AxisState, axis: Axis, v: int): AxisState
  {
    match axis
    case Pitch => s.(pitch := v)
    case Yaw => s.(yaw := v)
  }

  /** Reference semantics of one keyboard event, stated over the key map:
      a press sets the key's axis to the key's value, a release clears the
      axis when it still holds that value, any other key does nothing. */
  function Apply(s: AxisState, e: KeyboardInfo): AxisState
  {
    var k := KeyOf(e.key);
    if k == Other then s
    else
      var b := BindingOf(k);
      match e.kind
      case KeyDown => Set(s, b.axis, b.value)
      case KeyUp => if Get(s, b.axis) == b.value then Set(s, b.axis, 0) else s
  }

  /** The state after a sequence of events, applied in order. */
  function Run(s: AxisState, events: seq<KeyboardInfo>): AxisState
    decreases |events|
  {
    if events == [] then s else Run(Apply(s, events[0]), events[1..])
  }

  /** The module-level `input` object, updated in place by each event. */
  class InputState {
    var pitch: int
    var yaw: int

    function State(): AxisState
      reads this
    {
      AxisState(pitch, yaw)
    }

    /** The initial state: both axes neutral. */
    constructor ()
      ensures State() == NEUTRAL
    {
      pitch, yaw := 0, 0;
    }

    /** Applies one key edge to the axes: first the pitch chain, then the
        yaw chain, each a guarded if-else cascade over the raw key name. */
    method HandleKeyboardInput(info: KeyboardInfo)
      modifies this
      ensures State() == Apply(old(State()), info)
      ensures Valid(old(State())) ==> Valid(State())
    {
      // pitch
      if info.kind == KeyDown && info.key == "w" {
        pitch := 1;
      } else if info.kind == KeyDown && info.key == "s" {
        pitch := -1;
      } else if info.kind == KeyUp && info.key == "w" && pitch == 1 {
        pitch := 0;
      } else if info.kind == KeyUp && info.key == "s" && pitch == -1 {
        pitch := 0;
      }
      // yaw
      if info.kind == KeyDown && info.key == "a" {
        yaw := -1;
      } else if info.kind == KeyDown && info.key == "d" {
        yaw := 1;
      } else if info.kind == KeyUp && info.key == "a" && yaw == -1 {
        yaw := 0;
      } else if info.kind == KeyUp && info.key == "d" && yaw == 1 {
        yaw := 0;
      }
      if Valid(old(State())) {
        ApplyKeepsRange(old(State()), info);
      }
    }
  }

  /** Only the four lower-case names are bound, and each names its key. */
  lemma KeyNameRoundTrip(k: Key, name: string)
    ensures k != Other ==> KeyOf(Name(k)) == k
    ensures KeyOf(name) != Other ==> Name(KeyOf(name)) == name
    ensures KeyOf("W") == Other && KeyOf("S") == Other && KeyOf("A") == Other && KeyOf("D") == Other
  {
  }

  /** A press overwrites its axis whatever the previous value was. */
  lemma PressOverwrites(s: AxisState)
    ensures Apply(s, KeyboardInfo(KeyDown, "w")).pitch == 1
    ensures Apply(s, KeyboardInfo(KeyDown, "s")).pitch == -1
    ensures Apply(s, KeyboardInfo(KeyDown, "a")).yaw == -1
    ensures Apply(s, KeyboardInfo(KeyDown, "d")).yaw == 1
  {
  }

  /** A release clears its axis exactly when the axis holds the released
      key's value; otherwise the axis is left as it is. */
  lemma ReleaseGuard(s: AxisState)
    ensures Apply(s, KeyboardInfo(KeyUp, "w")).pitch == (if s.pitch == 1 then 0 else s.pitch)
    ensures Apply(s, KeyboardInfo(KeyUp, "s")).pitch == (if s.pitch == -1 then 0 else s.pitch)
    ensures Apply(s, KeyboardInfo(KeyUp, "a")).yaw == (if s.yaw == -1 then 0 else s.yaw)
    ensures Apply(s, KeyboardInfo(KeyUp, "d")).yaw == (if s.yaw == 1 then 0 else s.yaw)
  {
  }

  /** Nothing else changes: w/s never touch yaw, a/d never touch pitch,
      and any other key name (including upper case) touches neither. */
  lemma EventFrame(s: AxisState, e: KeyboardInfo)
    ensures e.key == "w" || e.key == "s" ==> Apply(s, e).yaw == s.yaw
    ensures e.key == "a" || e.key == "d" ==> Apply(s, e).pitch == s.pitch
    ensures KeyOf(e.key) == Other ==> Apply(s, e) == s
  {
  }

  /** Every event maps a state with both axes in {-1, 0, 1} to another. */
  lemma ApplyKeepsRange(s: AxisState, e: KeyboardInfo)
    requires Valid(s)
    ensures Valid(Apply(s, e))
  {
  }

  /** Repeating an event has no further effect. */
  lemma ApplyIdempotent(s: AxisState, e: KeyboardInfo)
    ensures Apply(Apply(s, e), e) == Apply(s, e)
  {
  }

  /** From any valid state, any sequence of events keeps both axes in range. */
  lemma {:induction false} RunKeepsRange(s: AxisState, events: seq<KeyboardInfo>)
    requires Valid(s)
    ensures Valid(Run(s, events))
    decreases |events|
  {
    if events != [] {
      ApplyKeepsRange(s, events[0]);
      RunKeepsRange(Apply(s, events[0]), events[1..]);
    }
  }

  /** Running two sequences one after the other is running their concatenation. */
  lemma {:induction false} RunAppend(s: AxisState, xs: seq<KeyboardInfo>, ys: seq<KeyboardInfo>)
    ensures Run(s, xs + ys) == Run(Run(s, xs), ys)
    decreases |xs|
  {
    if xs == [] {
      assert xs + ys == ys;
    } else {
      assert (xs + ys)[0] == xs[0];
      assert (xs + ys)[1..] == xs[1..] + ys;
      RunAppend(Apply(s, xs[0]), xs[1..], ys);
    }
  }

  /** Events none of which names "w" or "s" leave pitch as it was, and
      events none of which names "a" or "d" leave yaw as it was. */
  lemma {:induction false} RunAxisIsolation(s: AxisState, events: seq<KeyboardInfo>)
    ensures (forall i :: 0 <= i < |events| ==> KeyOf(events[i].key) != W && KeyOf(events[i].key) != S)
              ==> Run(s, events).pitch == s.pitch
    ensures (forall i :: 0 <= i < |events| ==> KeyOf(events[i].key) != A && KeyOf(events[i].key) != D)
              ==> Run(s, events).yaw == s.yaw
    decreases |events|
  {
    if events != [] {
      RunAxisIsolation(Apply(s, events[0]), events[1..]);
      assert forall i :: 0 <= i < |events[1..]| ==> events[1..][i] == events[i + 1];
    }
  }

  /** Press w, press s, release w: the stale release of w is ignored and
      pitch stays at the -1 that s set. */
  lemma StaleReleaseIgnored(s: AxisState)
    ensures Run(s, [KeyboardInfo(KeyDown, "w"), KeyboardInfo(KeyDown, "s"), KeyboardInfo(KeyUp, "w")]).pitch == -1
  {
    var presses := [KeyboardInfo(KeyDown, "w"), KeyboardInfo(KeyDown, "s")];
    var release := [KeyboardInfo(KeyUp, "w")];
    assert presses + release
        == [KeyboardInfo(KeyDown, "w"), KeyboardInfo(KeyDown, "s"), KeyboardInfo(KeyUp, "w")];
    RunAppend(s, presses, release);
    assert Run(s, presses).pitch == -1;
  }

  /** The same scenario driven through the stateful input object from its
      initial state. */
  method StaleReleaseScenario() returns (pitch: int, yaw: int)
    ensures pitch == -1 && yaw == 0
  {
    var input := new InputState();
    input.HandleKeyboardInput(KeyboardInfo(KeyDown, "w"));
    input.HandleKeyboardInput(KeyboardInfo(KeyDown, "s"));
    input.HandleKeyboardInput(KeyboardInfo(KeyUp, "w"));
    pitch, yaw := input.pitch, input.yaw;
  }
}
