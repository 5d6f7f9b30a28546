/**
 * The supervisor as pure transition functions: what main's start-up and each
 * loop iteration do to the firmware's globals, and which events they emit.
 *
 * Assumption: the inputs are stable within one tick. The firmware samples
 * the pins at the top of Check_State_Changes and the Process_KeyN_Logic
 * functions read them again; the model gives both reads the same sample.
 */
module Supervision {
  import opened Config
  import opened Trace
  import opened Rules
  import opened Voltage

  /** Raw levels (true = high) of the monitored input pins at one tick. */
  datatype Pins = Pins(human: bool, pir: bool, led1: bool, led2: bool, relay3: bool)

  /** The ADC result registers after a conversion. */
  datatype AdcSample = AdcSample(res: byte, resl: byte)

  /** What the hardware presents to one tick: the pins and the ADC result. */
  datatype Reading = Reading(pins: Pins, adc: AdcSample)

  /** last_human_state, last_pir_state, last_led1/led2/relay3_state. */
  datatype Snapshot = Snapshot(human: bool, pir: bool, led1: bool, led2: bool, relay3: bool)

  /** The globals and the static voltage_check_counter. */
  datatype State = State(last: Snapshot, low: bool, high: bool, counter: nat)

  /** A transition's new state and the events it emitted, in order. */
  datatype Step = Step(next: State, out: seq<Event>)

  /** The static initialisers: everything zero. */
  const Initial: State := State(Snapshot(false, false, false, false, false), false, false, 0)

  /** The values Check_State_Changes samples into current_*. */
  function Observe(p: Pins): Snapshot {
    Snapshot(p.human, p.pir, CheckStatus(Led1, p.led1), CheckStatus(Led2, p.led2), CheckStatus(Relay3, p.relay3))
  }

  function PulseIf(fire: bool, k: Line): seq<Event> {
    if fire then Pulse(k) else []
  }

  /** Process_Key1_Logic: desired = human presence, actual = LED1. */
  function Key1Logic(p: Pins): seq<Event> {
    PulseIf(MismatchRule(p.human, CheckStatus(Led1, p.led1)), Key1)
  }

  /** Process_Key2_Logic: desired = phone presence, actual = LED2. */
  function Key2Logic(p: Pins): seq<Event> {
    PulseIf(MismatchRule(p.pir, CheckStatus(Led2, p.led2)), Key2)
  }

  /** Process_Key3_Logic: the voltage flags against Relay3. */
  function Key3Logic(low: bool, high: bool, p: Pins): seq<Event> {
    PulseIf(Key3Rule(low, high, CheckStatus(Relay3, p.relay3)), Key3)
  }

  /** The supply voltage in millivolts that Get_VCC_Voltage returns. */
  function ReadVcc(adc: AdcSample): uint16 {
    VccMillivolts(AdcValue(adc.res, adc.resl))
  }

  /** Detect_Voltage_Status: overwrite both flags from one conversion. */
  function DetectVoltage(s: State, adc: AdcSample): Step {
    var flags := Classify(ReadVcc(adc));
    Step(s.(low := flags.0, high := flags.1), [VoltageRead])
  }

  predicate GroupAChanged(s: State, cur: Snapshot) {
    cur.human != s.last.human || cur.led1 != s.last.led1
  }

  predicate GroupBChanged(s: State, cur: Snapshot) {
    cur.pir != s.last.pir || cur.led2 != s.last.led2
  }

  predicate GroupCChanged(s: State, cur: Snapshot) {
    cur.relay3 != s.last.relay3
  }

  /** The first block's output: rule 1 when human presence or LED1 changed. */
  function EdgeA(s: State, r: Reading): seq<Event> {
    if GroupAChanged(s, Observe(r.pins)) then Key1Logic(r.pins) else []
  }

  /** The second block's output: rule 2 when phone presence or LED2 changed. */
  function EdgeB(s: State, r: Reading): seq<Event> {
    if GroupBChanged(s, Observe(r.pins)) then Key2Logic(r.pins) else []
  }

  /** The third block's output: rule 3 when Relay3 changed. */
  function EdgeC(s: State, r: Reading): seq<Event> {
    if GroupCChanged(s, Observe(r.pins)) then Key3Logic(s.low, s.high, r.pins) else []
  }

  /** The rule outputs Check_State_Changes emits for the groups that changed. */
  function Edges(s: State, r: Reading): seq<Event> {
    EdgeA(s, r) + EdgeB(s, r) + EdgeC(s, r)
  }

  /** The snapshot after Check_State_Changes: a group's fields move only if it changed. */
  function Resample(s: State, r: Reading): Snapshot {
    var cur := Observe(r.pins);
    var a, b, c := GroupAChanged(s, cur), GroupBChanged(s, cur), GroupCChanged(s, cur);
    Snapshot(
      if a then cur.human else s.last.human,
      if b then cur.pir else s.last.pir,
      if a then cur.led1 else s.last.led1,
      if b then cur.led2 else s.last.led2,
      if c then cur.relay3 else s.last.relay3)
  }

  /** The periodic branch: reclassify the voltage, then always run rule 3. */
  function Recheck(s: State, r: Reading): Step {
    var v := DetectVoltage(s, r.adc);
    Step(v.next, v.out + Key3Logic(v.next.low, v.next.high, r.pins))
  }

  /** Check_State_Changes. */
  function CheckStateChanges(s: State, r: Reading): Step {
    var resampled := s.(last := Resample(s, r));
    if s.counter + 1 >= RECHECK_PERIOD then
      var rc := Recheck(resampled.(counter := 0), r);
      Step(rc.next, Edges(s, r) + rc.out)
    else
      Step(resampled.(counter := s.counter + 1), Edges(s, r))
  }

  /** System_Init's output defaults: supply on, every Key line released high. */
  const OutputDefaults: seq<Event> :=
    [Drive(PowerCtrl, POWER_CTRL_MODE), Drive(Key1, true), Drive(Key2, true), Drive(Key3, true)]

  /** Switch on the external supply and wait for the device to settle. */
  const PowerUp: seq<Event> := [Drive(PowerCtrl, POWER_CTRL_MODE), Wait(SETTLE_MS)]

  /**
   * main before its loop, once the hardware is configured: power the keypad
   * device, let it settle, classify the voltage, seed the snapshot from the
   * live inputs and run the three rules once each, in order.
   */
  function Startup(s: State, r: Reading): Step {
    var v := DetectVoltage(s, r.adc);
    var seeded := v.next.(last := Observe(r.pins));
    Step(seeded,
      PowerUp + v.out +
      Key1Logic(r.pins) + Key2Logic(r.pins) + Key3Logic(seeded.low, seeded.high, r.pins))
  }

  /** One iteration of main's while(1): check, feed the watchdog, delay. */
  function Iteration(s: State, r: Reading): Step {
    var c := CheckStateChanges(s, r);
    Step(c.next, c.out + [FeedWatchdog, Wait(POLL_MS)])
  }

  /** The first |rs| iterations of main's loop. */
  function RunLoop(s: State, rs: seq<Reading>): Step
    decreases |rs|
  {
    if rs == [] then Step(s, [])
    else
      var before := RunLoop(s, rs[..|rs| - 1]);
      var it := Iteration(before.next, rs[|rs| - 1]);
      Step(it.next, before.out + it.out)
  }

  /** The whole program from the static initialisers: start-up, then the loop. */
  function Boot(start: Reading, rs: seq<Reading>): Step {
    var st := Startup(Initial, start);
    var run := RunLoop(st.next, rs);
    Step(run.next, st.out + run.out)
  }

  // ---------------------------------------------------------------------
  // Properties

  /** The events the lemmas below count: low drives, feeds and conversions. */
  predicate Tallied(e: Event) {
    !e.Wait? && !(e.Drive? && e.high)
  }

  /** A rule's output holds one low drive of its own line if it fires. */
  lemma PulseIfCount(fire: bool, k: Line, e: Event)
    requires Tallied(e)
    ensures Count(PulseIf(fire, k), e) == if fire && e == Drive(k, false) then 1 else 0
  {
    PulseCount(k, e);
  }

  /**
   * After Check_State_Changes the snapshot equals the inputs just sampled; a
   * group whose inputs did not change keeps its old snapshot fields.
   */
  lemma SnapshotTracksInputs(s: State, r: Reading)
    ensures Resample(s, r) == Observe(r.pins)
    ensures CheckStateChanges(s, r).next.last == Observe(r.pins)
    ensures !GroupAChanged(s, Observe(r.pins)) ==>
      CheckStateChanges(s, r).next.last.human == s.last.human && CheckStateChanges(s, r).next.last.led1 == s.last.led1
    ensures !GroupBChanged(s, Observe(r.pins)) ==>
      CheckStateChanges(s, r).next.last.pir == s.last.pir && CheckStateChanges(s, r).next.last.led2 == s.last.led2
    ensures !GroupCChanged(s, Observe(r.pins)) ==>
      CheckStateChanges(s, r).next.last.relay3 == s.last.relay3
  {
  }

  /** With no input change and no recheck due, a tick emits nothing. */
  lemma QuietTick(s: State, r: Reading)
    requires Observe(r.pins) == s.last
    requires s.counter + 1 < RECHECK_PERIOD
    ensures CheckStateChanges(s, r) == Step(s.(counter := s.counter + 1), [])
  {
  }

  /** A block's output holds its rule's low drive exactly when the block ran and the rule fired. */
  lemma EdgeACount(s: State, r: Reading, e: Event)
    requires Tallied(e)
    ensures var cur := Observe(r.pins);
      Count(EdgeA(s, r), e) ==
        if GroupAChanged(s, cur) && MismatchRule(cur.human, cur.led1) && e == Drive(Key1, false) then 1 else 0
  {
    var cur := Observe(r.pins);
    PulseIfCount(MismatchRule(cur.human, cur.led1), Key1, e);
  }

  lemma EdgeBCount(s: State, r: Reading, e: Event)
    requires Tallied(e)
    ensures var cur := Observe(r.pins);
      Count(EdgeB(s, r), e) ==
        if GroupBChanged(s, cur) && MismatchRule(cur.pir, cur.led2) && e == Drive(Key2, false) then 1 else 0
  {
    var cur := Observe(r.pins);
    PulseIfCount(MismatchRule(cur.pir, cur.led2), Key2, e);
  }

  lemma EdgeCCount(s: State, r: Reading, e: Event)
    requires Tallied(e)
    ensures var cur := Observe(r.pins);
      Count(EdgeC(s, r), e) ==
        if GroupCChanged(s, cur) && Key3Rule(s.low, s.high, cur.relay3) && e == Drive(Key3, false) then 1 else 0
  {
    var cur := Observe(r.pins);
    PulseIfCount(Key3Rule(s.low, s.high, cur.relay3), Key3, e);
  }

  lemma {:induction false} EdgesCount(s: State, r: Reading, e: Event)
    requires Tallied(e)
    ensures var cur := Observe(r.pins);
      Count(Edges(s, r), e) ==
        (if GroupAChanged(s, cur) && MismatchRule(cur.human, cur.led1) && e == Drive(Key1, false) then 1 else 0) +
        (if GroupBChanged(s, cur) && MismatchRule(cur.pir, cur.led2) && e == Drive(Key2, false) then 1 else 0) +
        (if GroupCChanged(s, cur) && Key3Rule(s.low, s.high, cur.relay3) && e == Drive(Key3, false) then 1 else 0)
  {
    CountAppend(EdgeA(s, r) + EdgeB(s, r), EdgeC(s, r), e);
    CountAppend(EdgeA(s, r), EdgeB(s, r), e);
    EdgeACount(s, r, e);
    EdgeBCount(s, r, e);
    EdgeCCount(s, r, e);
  }

  lemma {:induction false} TickCount(s: State, r: Reading, e: Event)
    requires Tallied(e)
    ensures var t := CheckStateChanges(s, r);
      Count(t.out, e) == Count(Edges(s, r), e) +
        (if s.counter + 1 >= RECHECK_PERIOD then
           (if e == VoltageRead then 1 else 0) +
           (if Key3Rule(t.next.low, t.next.high, Observe(r.pins).relay3) && e == Drive(Key3, false) then 1 else 0)
         else 0)
  {
    var t := CheckStateChanges(s, r);
    if s.counter + 1 >= RECHECK_PERIOD {
      var k3 := Key3Logic(t.next.low, t.next.high, r.pins);
      CountAppend(Edges(s, r), [VoltageRead] + k3, e);
      CountAppend([VoltageRead], k3, e);
      CountSingleton(VoltageRead, e);
      PulseIfCount(Key3Rule(t.next.low, t.next.high, Observe(r.pins).relay3), Key3, e);
    }
  }

  /**
   * The pulses one Check_State_Changes emits on each Key line: rule 1 only
   * on a change in its group and a mismatch, likewise rule 2; rule 3 on a
   * Relay3 change with the old flags, plus once more with the new flags when
   * the recheck is due, so up to two Key3 pulses in one call.
   */
  lemma TickPulses(s: State, r: Reading)
    ensures var cur, t := Observe(r.pins), CheckStateChanges(s, r);
      && Count(t.out, Drive(Key1, false)) ==
        (if GroupAChanged(s, cur) && MismatchRule(cur.human, cur.led1) then 1 else 0)
      && Count(t.out, Drive(Key2, false)) ==
        (if GroupBChanged(s, cur) && MismatchRule(cur.pir, cur.led2) then 1 else 0)
      && Count(t.out, Drive(Key3, false)) ==
        (if GroupCChanged(s, cur) && Key3Rule(s.low, s.high, cur.relay3) then 1 else 0) +
        (if s.counter + 1 >= RECHECK_PERIOD && Key3Rule(t.next.low, t.next.high, cur.relay3) then 1 else 0)
  {
    EdgesCount(s, r, Drive(Key1, false));
    EdgesCount(s, r, Drive(Key2, false));
    EdgesCount(s, r, Drive(Key3, false));
    TickCount(s, r, Drive(Key1, false));
    TickCount(s, r, Drive(Key2, false));
    TickCount(s, r, Drive(Key3, false));
  }

  /** Rule 3 can pulse twice in one Check_State_Changes call. */
  lemma Key3TwiceInOneTick()
    ensures var s := State(Snapshot(false, false, false, false, true), true, false, RECHECK_PERIOD - 1);
      var r := Reading(Pins(false, false, false, false, false), AdcSample(0, 0));
      Count(CheckStateChanges(s, r).out, Drive(Key3, false)) == 2
  {
    var s := State(Snapshot(false, false, false, false, true), true, false, RECHECK_PERIOD - 1);
    var r := Reading(Pins(false, false, false, false, false), AdcSample(0, 0));
    TickPulses(s, r);
  }

  /**
   * The counter stays below the period, and a tick converts the voltage
   * exactly when it is the hundredth since the last recheck.
   */
  lemma TickCounter(s: State, r: Reading)
    requires s.counter < RECHECK_PERIOD
    ensures CheckStateChanges(s, r).next.counter == (s.counter + 1) % RECHECK_PERIOD
    ensures Count(CheckStateChanges(s, r).out, VoltageRead) == (s.counter + 1) / RECHECK_PERIOD
    ensures Count(CheckStateChanges(s, r).out, FeedWatchdog) == 0
  {
    EdgesCount(s, r, VoltageRead);
    EdgesCount(s, r, FeedWatchdog);
    TickCount(s, r, VoltageRead);
    TickCount(s, r, FeedWatchdog);
  }

  /** One loop iteration feeds the watchdog exactly once, after the check. */
  lemma IterationFeedsOnce(s: State, r: Reading)
    requires s.counter < RECHECK_PERIOD
    ensures Count(Iteration(s, r).out, FeedWatchdog) == 1
    ensures Count(Iteration(s, r).out, VoltageRead) == (s.counter + 1) / RECHECK_PERIOD
    ensures Iteration(s, r).next.counter == (s.counter + 1) % RECHECK_PERIOD
  {
    var c := CheckStateChanges(s, r);
    TickCounter(s, r);
    assert [FeedWatchdog, Wait(POLL_MS)][..1] == [FeedWatchdog] && [FeedWatchdog][..0] == [];
    CountAppend(c.out, [FeedWatchdog, Wait(POLL_MS)], FeedWatchdog);
    CountAppend(c.out, [FeedWatchdog, Wait(POLL_MS)], VoltageRead);
  }

  /**
   * Over n loop iterations the watchdog is fed n times, and the voltage is
   * rechecked once per hundred ticks counted from the stored counter.
   */
  lemma {:induction false} RunCadence(s: State, rs: seq<Reading>)
    requires s.counter < RECHECK_PERIOD
    ensures Count(RunLoop(s, rs).out, FeedWatchdog) == |rs|
    ensures Count(RunLoop(s, rs).out, VoltageRead) == (s.counter + |rs|) / RECHECK_PERIOD
    ensures RunLoop(s, rs).next.counter == (s.counter + |rs|) % RECHECK_PERIOD
    decreases |rs|
  {
    if rs != [] {
      var rs' := rs[..|rs| - 1];
      var before := RunLoop(s, rs');
      RunCadence(s, rs');
      IterationFeedsOnce(before.next, rs[|rs| - 1]);
      var it := Iteration(before.next, rs[|rs| - 1]);
      CountAppend(before.out, it.out, FeedWatchdog);
      CountAppend(before.out, it.out, VoltageRead);
      var n := s.counter + |rs'|;
      assert (n % RECHECK_PERIOD + 1) / RECHECK_PERIOD + n / RECHECK_PERIOD == (n + 1) / RECHECK_PERIOD;
      assert (n % RECHECK_PERIOD + 1) % RECHECK_PERIOD == (n + 1) % RECHECK_PERIOD;
    }
  }

  /**
   * From start-up (counter 0), 250 loop iterations recheck the voltage
   * exactly twice, whatever the inputs do.
   */
  lemma TwoRechecksIn250(start: Reading, rs: seq<Reading>)
    requires |rs| == 250
    ensures Count(RunLoop(Startup(Initial, start).next, rs).out, VoltageRead) == 2
    ensures Count(RunLoop(Startup(Initial, start).next, rs).out, FeedWatchdog) == 250
  {
    RunCadence(Startup(Initial, start).next, rs);
  }

  /** Classification sets exactly one flag. */
  lemma DetectExclusive(s: State, adc: AdcSample)
    ensures DetectVoltage(s, adc).next.low != DetectVoltage(s, adc).next.high
    ensures DetectVoltage(s, adc).next.low <==> ReadVcc(adc) < VOLTAGE_THRESHOLD
    ensures DetectVoltage(s, adc).next.last == s.last && DetectVoltage(s, adc).next.counter == s.counter
  {
  }

  /**
   * Start-up leaves the snapshot equal to the live inputs and exactly one
   * voltage flag set, and emits exactly one pulse per rule that was
   * mismatched at seed time and none for the others.
   */
  lemma {:induction false} StartupSyncs(s: State, r: Reading)
    ensures var st, cur := Startup(s, r), Observe(r.pins);
      && st.next.last == cur
      && st.next.low != st.next.high
      && st.next.counter == s.counter
      && Count(st.out, Drive(Key1, false)) == (if MismatchRule(cur.human, cur.led1) then 1 else 0)
      && Count(st.out, Drive(Key2, false)) == (if MismatchRule(cur.pir, cur.led2) then 1 else 0)
      && Count(st.out, Drive(Key3, false)) == (if MismatchRule(st.next.low, cur.relay3) then 1 else 0)
      && Count(st.out, VoltageRead) == 1
  {
    var st, cur := Startup(s, r), Observe(r.pins);
    StartupCount(s, r, Drive(Key1, false));
    StartupCount(s, r, Drive(Key2, false));
    StartupCount(s, r, Drive(Key3, false));
    StartupCount(s, r, VoltageRead);
  }

  lemma {:induction false} StartupCount(s: State, r: Reading, e: Event)
    requires Tallied(e)
    ensures var st, cur := Startup(s, r), Observe(r.pins);
      Count(st.out, e) ==
        (if e == VoltageRead then 1 else 0) +
        (if MismatchRule(cur.human, cur.led1) && e == Drive(Key1, false) then 1 else 0) +
        (if MismatchRule(cur.pir, cur.led2) && e == Drive(Key2, false) then 1 else 0) +
        (if Key3Rule(st.next.low, st.next.high, cur.relay3) && e == Drive(Key3, false) then 1 else 0)
  {
    var st, cur := Startup(s, r), Observe(r.pins);
    var pre := PowerUp + [VoltageRead];
    var e1, e2, e3 := Key1Logic(r.pins), Key2Logic(r.pins), Key3Logic(st.next.low, st.next.high, r.pins);
    PowerUpCount(e);
    CountAppend(pre + e1 + e2, e3, e);
    CountAppend(pre + e1, e2, e);
    CountAppend(pre, e1, e);
    PulseIfCount(MismatchRule(cur.human, cur.led1), Key1, e);
    PulseIfCount(MismatchRule(cur.pir, cur.led2), Key2, e);
    PulseIfCount(Key3Rule(st.next.low, st.next.high, cur.relay3), Key3, e);
  }

  /** Before its rules, start-up emits one conversion and no low drive. */
  lemma PowerUpCount(e: Event)
    requires Tallied(e)
    ensures Count(PowerUp + [VoltageRead], e) == if e == VoltageRead then 1 else 0
  {
    assert PowerUp + [VoltageRead] == [PowerUp[0]] + [PowerUp[1]] + [VoltageRead];
    CountAppend([PowerUp[0]] + [PowerUp[1]], [VoltageRead], e);
    CountAppend([PowerUp[0]], [PowerUp[1]], e);
    CountSingleton(PowerUp[0], e);
    CountSingleton(PowerUp[1], e);
    CountSingleton(VoltageRead, e);
  }

  /** Exactly one voltage flag stays set once it has been classified. */
  lemma {:induction false} RunKeepsFlagsExclusive(s: State, rs: seq<Reading>)
    requires s.low != s.high
    ensures RunLoop(s, rs).next.low != RunLoop(s, rs).next.high
    decreases |rs|
  {
    if rs != [] {
      RunKeepsFlagsExclusive(s, rs[..|rs| - 1]);
    }
  }

  /**
   * Every state the program reaches has exactly one voltage flag set, the
   * counter below the period, and the snapshot equal to the last inputs.
   */
  lemma {:induction false} BootInvariant(start: Reading, rs: seq<Reading>)
    ensures var b := Boot(start, rs);
      && b.next.low != b.next.high
      && b.next.counter == |rs| % RECHECK_PERIOD
      && b.next.last == Observe(if rs == [] then start.pins else rs[|rs| - 1].pins)
  {
    var st := Startup(Initial, start);
    StartupSyncs(Initial, start);
    RunKeepsFlagsExclusive(st.next, rs);
    RunCadence(st.next, rs);
    if rs != [] {
      var before := RunLoop(st.next, rs[..|rs| - 1]);
      SnapshotTracksInputs(before.next, rs[|rs| - 1]);
    }
  }

  /** Events that, started with every Key line high, end with every Key line high. */
  ghost predicate KeysRestored(u: seq<Event>) {
    forall k: Line :: k != PowerCtrl ==> LevelAfter(u, k, true)
  }

  lemma RestoredAppend(u: seq<Event>, v: seq<Event>)
    requires KeysRestored(u) && KeysRestored(v)
    ensures KeysRestored(u + v)
  {
    forall k: Line | k != PowerCtrl ensures LevelAfter(u + v, k, true) {
      LevelAfterAppend(u, v, k, true);
    }
  }

  /** Events that drive no Key line restore trivially. */
  lemma QuietRestores(u: seq<Event>)
    requires forall i :: 0 <= i < |u| ==> !u[i].Drive? || u[i].line == PowerCtrl
    ensures KeysRestored(u)
  {
    forall k: Line | k != PowerCtrl ensures LevelAfter(u, k, true) {
      LevelAfterQuietSuffix([], u, k, true);
      assert [] + u == u;
    }
  }

  lemma PulseIfRestores(fire: bool, k: Line)
    ensures KeysRestored(PulseIf(fire, k))
  {
    if fire {
      forall k': Line | k' != PowerCtrl ensures LevelAfter(Pulse(k), k', true) {
        PulseShape([], k, if k' == k then (if k == Key1 then Key2 else Key1) else k', true);
        assert [] + Pulse(k) == Pulse(k);
      }
    } else {
      QuietRestores([]);
    }
  }

  lemma EdgesRestore(s: State, r: Reading)
    ensures KeysRestored(Edges(s, r))
  {
    var cur := Observe(r.pins);
    QuietRestores([]);
    assert KeysRestored(EdgeA(s, r)) by {
      PulseIfRestores(MismatchRule(cur.human, cur.led1), Key1);
    }
    assert KeysRestored(EdgeB(s, r)) by {
      PulseIfRestores(MismatchRule(cur.pir, cur.led2), Key2);
    }
    assert KeysRestored(EdgeC(s, r)) by {
      PulseIfRestores(Key3Rule(s.low, s.high, cur.relay3), Key3);
    }
    RestoredAppend(EdgeA(s, r), EdgeB(s, r));
    RestoredAppend(EdgeA(s, r) + EdgeB(s, r), EdgeC(s, r));
  }

  lemma TickRestores(s: State, r: Reading)
    ensures KeysRestored(CheckStateChanges(s, r).out)
  {
    EdgesRestore(s, r);
    var t := CheckStateChanges(s, r);
    if s.counter + 1 >= RECHECK_PERIOD {
      var k3 := Key3Logic(t.next.low, t.next.high, r.pins);
      PulseIfRestores(Key3Rule(t.next.low, t.next.high, Observe(r.pins).relay3), Key3);
      QuietRestores([VoltageRead]);
      RestoredAppend([VoltageRead], k3);
      RestoredAppend(Edges(s, r), [VoltageRead] + k3);
    }
  }

  lemma {:induction false} RunRestores(s: State, rs: seq<Reading>)
    ensures KeysRestored(RunLoop(s, rs).out)
    decreases |rs|
  {
    if rs == [] {
      QuietRestores([]);
    } else {
      var before := RunLoop(s, rs[..|rs| - 1]);
      RunRestores(s, rs[..|rs| - 1]);
      TickRestores(before.next, rs[|rs| - 1]);
      QuietRestores([FeedWatchdog, Wait(POLL_MS)]);
      var c := CheckStateChanges(before.next, rs[|rs| - 1]);
      RestoredAppend(c.out, [FeedWatchdog, Wait(POLL_MS)]);
      RestoredAppend(before.out, c.out + [FeedWatchdog, Wait(POLL_MS)]);
    }
  }

  lemma StartupRestores(s: State, r: Reading)
    ensures KeysRestored(Startup(s, r).out)
  {
    var st, cur := Startup(s, r), Observe(r.pins);
    QuietRestores(PowerUp + [VoltageRead]);
    PulseIfRestores(MismatchRule(cur.human, cur.led1), Key1);
    PulseIfRestores(MismatchRule(cur.pir, cur.led2), Key2);
    PulseIfRestores(Key3Rule(st.next.low, st.next.high, cur.relay3), Key3);
    RestoredAppend(PowerUp + [VoltageRead], Key1Logic(r.pins));
    RestoredAppend(PowerUp + [VoltageRead] + Key1Logic(r.pins), Key2Logic(r.pins));
    RestoredAppend(PowerUp + [VoltageRead] + Key1Logic(r.pins) + Key2Logic(r.pins),
      Key3Logic(st.next.low, st.next.high, r.pins));
  }

  /**
   * No pulse is left hanging: after start-up and any number of loop
   * iterations every Key line is back high, as System_Init left it.
   */
  lemma BootLeavesKeysHigh(start: Reading, rs: seq<Reading>, k: Line, initial: bool)
    requires k != PowerCtrl
    ensures LevelAfter(OutputDefaults + Boot(start, rs).out, k, initial)
  {
    var st := Startup(Initial, start);
    StartupRestores(Initial, start);
    RunRestores(st.next, rs);
    RestoredAppend(st.out, RunLoop(st.next, rs).out);
    LevelAfterAppend(OutputDefaults, Boot(start, rs).out, k, initial);
    var d := OutputDefaults;
    assert d[..|d| - 1][..|d| - 2][..|d| - 3] == [Drive(PowerCtrl, POWER_CTRL_MODE)];
    assert LevelAfter(d, k, initial);
  }
}
