/**
 * The observable output of the firmware as a sequence of events: writes to
 * output lines, delays, watchdog feeds and supply-voltage conversions.
 */
module Trace {
  import opened Config

  datatype Line = Key1 | Key2 | Key3 | PowerCtrl

  datatype Event =
    | Drive(line: Line, high: bool)   // an output pin is written
    | Wait(ms: nat)                   // Delay_ms
    | FeedWatchdog                    // WDT_Feed
    | VoltageRead                     // a conversion whose result Detect_Voltage_Status classifies

  /** Output_KeyN_Pulse: line low, wait the pulse width, line high again. */
  function Pulse(k: Line): seq<Event> {
    [Drive(k, false), Wait(PULSE_MS), Drive(k, true)]
  }

  /** The level of `line` after `t`, given its level before `t`. */
  function LevelAfter(t: seq<Event>, line: Line, initial: bool): bool
    decreases |t|
  {
    if t == [] then initial
    else if t[|t| - 1].Drive? && t[|t| - 1].line == line then t[|t| - 1].high
    else LevelAfter(t[..|t| - 1], line, initial)
  }

  lemma AppendAssoc(a: seq<Event>, b: seq<Event>, c: seq<Event>)
    ensures (a + b) + c == a + (b + c)
  {
  }

  /** How many times `e` occurs in `t`. */
  function Count(t: seq<Event>, e: Event): nat
    decreases |t|
  {
    if t == [] then 0
    else Count(t[..|t| - 1], e) + (if t[|t| - 1] == e then 1 else 0)
  }

  lemma {:induction false} CountAppend(t: seq<Event>, u: seq<Event>, e: Event)
    ensures Count(t + u, e) == Count(t, e) + Count(u, e)
    decreases |u|
  {
    if u == [] {
      assert t + u == t;
    } else {
      var u' := u[..|u| - 1];
      assert (t + u)[..|t + u| - 1] == t + u';
      CountAppend(t, u', e);
    }
  }

  lemma CountSingleton(x: Event, e: Event)
    ensures Count([x], e) == if x == e then 1 else 0
  {
    assert [x][..0] == [];
  }

  /** A pulse holds each of its three events once: low, wait, high. */
  lemma PulseCount(k: Line, e: Event)
    ensures Count(Pulse(k), e) == if e in {Drive(k, false), Wait(PULSE_MS), Drive(k, true)} then 1 else 0
  {
    var a, b, c := Drive(k, false), Wait(PULSE_MS), Drive(k, true);
    assert Pulse(k) == ([a] + [b]) + [c];
    CountAppend([a] + [b], [c], e);
    CountAppend([a], [b], e);
    CountSingleton(a, e);
    CountSingleton(b, e);
    CountSingleton(c, e);
  }

  /** A suffix that never drives `line` leaves its level as it was. */
  lemma {:induction false} LevelAfterQuietSuffix(t: seq<Event>, u: seq<Event>, line: Line, initial: bool)
    requires forall i :: 0 <= i < |u| ==> !(u[i].Drive? && u[i].line == line)
    ensures LevelAfter(t + u, line, initial) == LevelAfter(t, line, initial)
    decreases |u|
  {
    if u == [] {
      assert t + u == t;
    } else {
      var u' := u[..|u| - 1];
      assert (t + u)[..|t + u| - 1] == t + u';
      LevelAfterQuietSuffix(t, u', line, initial);
    }
  }

  /** Running `t` then `u` leaves a line where `u` leaves it from where `t` did. */
  lemma {:induction false} LevelAfterAppend(t: seq<Event>, u: seq<Event>, line: Line, initial: bool)
    ensures LevelAfter(t + u, line, initial) == LevelAfter(u, line, LevelAfter(t, line, initial))
    decreases |u|
  {
    if u == [] {
      assert t + u == t;
    } else {
      var u' := u[..|u| - 1];
      assert (t + u)[..|t + u| - 1] == t + u';
      LevelAfterAppend(t, u', line, initial);
    }
  }

  /**
   * A pulse holds its line low exactly once and leaves it high; every other
   * line keeps its level.
   */
  lemma PulseShape(t: seq<Event>, k: Line, other: Line, initial: bool)
    requires other != k
    ensures Count(Pulse(k), Drive(k, false)) == 1
    ensures Count(t + Pulse(k), Drive(k, false)) == Count(t, Drive(k, false)) + 1
    ensures LevelAfter(t + Pulse(k), k, initial)
    ensures LevelAfter(t + Pulse(k), other, initial) == LevelAfter(t, other, initial)
  {
    var p := Pulse(k);
    PulseCount(k, Drive(k, false));
    CountAppend(t, p, Drive(k, false));
    LevelAfterQuietSuffix(t, p, other, initial);
  }

  /** Two pulses in a row are two separate low phases, and the line ends high. */
  lemma TwoPulsesDoNotMerge(t: seq<Event>, k: Line, initial: bool)
    ensures Count(t + Pulse(k) + Pulse(k), Drive(k, false)) == Count(t, Drive(k, false)) + 2
    ensures LevelAfter(t + Pulse(k) + Pulse(k), k, initial)
  {
    var other := if k == Key1 then Key2 else Key1;
    PulseShape(t, k, other, initial);
    PulseShape(t + Pulse(k), k, other, initial);
  }
}
