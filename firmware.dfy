/**
 * The firmware's globals as one object: the snapshot of the last observed
 * inputs, the two voltage flags, the counter that Check_State_Changes keeps
 * in a static local, and the output written so far. Each method is the C
 * function of the same name, proved to act as the transition of the same
 * name in module Supervision.
 */
module Firmware {
  import opened Config
  import opened Trace
  import opened Rules
  import opened Supervision

  class Supervisor {
    /** last_human_state, last_pir_state, last_led1/led2/relay3_state. */
    var last: Snapshot
    var lowFlag: bool
    var highFlag: bool
    /** voltage_check_counter, a static local of Check_State_Changes. */
    var counter: nat
    /** Everything written to the output lines so far. */
    var trace: seq<Event>

    ghost function Model(): State
      reads this
    {
      State(last, lowFlag, highFlag, counter)
    }

    ghost predicate Valid()
      reads this
    {
      counter < RECHECK_PERIOD
    }

    /** The zero-initialised globals, then System_Init's output levels. */
    constructor ()
      ensures Valid() && Model() == Initial
      ensures trace == OutputDefaults
    {
      last := Snapshot(false, false, false, false, false);
      lowFlag, highFlag := false, false;
      counter := 0;
      trace := OutputDefaults;
    }

    method OutputPulse(k: Line)
      modifies this`trace
      ensures trace == old(trace) + Pulse(k)
    {
      trace := trace + [Drive(k, false)];
      trace := trace + [Wait(PULSE_MS)];
      trace := trace + [Drive(k, true)];
    }

    method ProcessKey1Logic(p: Pins)
      modifies this`trace
      ensures trace == old(trace) + Key1Logic(p)
    {
      var humanDetected := p.human;
      var led1On := CheckStatus(Led1, p.led1);
      if MismatchRule(humanDetected, led1On) {
        OutputPulse(Key1);
      }
    }

    method ProcessKey2Logic(p: Pins)
      modifies this`trace
      ensures trace == old(trace) + Key2Logic(p)
    {
      var phoneHome := p.pir;
      var led2On := CheckStatus(Led2, p.led2);
      if MismatchRule(phoneHome, led2On) {
        OutputPulse(Key2);
      }
    }

    method ProcessKey3Logic(p: Pins)
      modifies this`trace
      ensures trace == old(trace) + Key3Logic(lowFlag, highFlag, p)
    {
      var relay3On := CheckStatus(Relay3, p.relay3);
      if Key3Rule(lowFlag, highFlag, relay3On) {
        OutputPulse(Key3);
      }
    }

    method DetectVoltageStatus(adc: AdcSample)
      modifies this`lowFlag, this`highFlag, this`trace
      ensures Model() == DetectVoltage(old(Model()), adc).next
      ensures trace == old(trace) + DetectVoltage(old(Model()), adc).out
      ensures lowFlag != highFlag
    {
      var volt := ReadVcc(adc);
      trace := trace + [VoltageRead];
      if volt < VOLTAGE_THRESHOLD {
        lowFlag, highFlag := true, false;
      } else {
        lowFlag, highFlag := false, true;
      }
    }

    /**
     * The first block of Check_State_Changes: human presence or LED1 changed.
     * Each block gets the state s from the top of Check_State_Changes; the
     * blocks before it have not touched the fields it compares.
     */
    method CheckGroupA(r: Reading, ghost s: State)
      requires last.human == s.last.human && last.led1 == s.last.led1
      modifies this`last, this`trace
      ensures last == old(last).(human := r.pins.human, led1 := CheckStatus(Led1, r.pins.led1))
      ensures trace == old(trace) + EdgeA(s, r)
    {
      var currentHuman := r.pins.human;
      var currentLed1 := CheckStatus(Led1, r.pins.led1);
      if currentHuman != last.human || currentLed1 != last.led1 {
        ProcessKey1Logic(r.pins);
        last := last.(human := currentHuman, led1 := currentLed1);
      }
    }

    /** The second block: phone presence or LED2 changed. */
    method CheckGroupB(r: Reading, ghost s: State)
      requires last.pir == s.last.pir && last.led2 == s.last.led2
      modifies this`last, this`trace
      ensures last == old(last).(pir := r.pins.pir, led2 := CheckStatus(Led2, r.pins.led2))
      ensures trace == old(trace) + EdgeB(s, r)
    {
      var currentPir := r.pins.pir;
      var currentLed2 := CheckStatus(Led2, r.pins.led2);
      if currentPir != last.pir || currentLed2 != last.led2 {
        ProcessKey2Logic(r.pins);
        last := last.(pir := currentPir, led2 := currentLed2);
      }
    }

    /** The third block: Relay3 feedback changed. */
    method CheckGroupC(r: Reading, ghost s: State)
      requires last.relay3 == s.last.relay3 && lowFlag == s.low && highFlag == s.high
      modifies this`last, this`trace
      ensures last == old(last).(relay3 := CheckStatus(Relay3, r.pins.relay3))
      ensures trace == old(trace) + EdgeC(s, r)
    {
      var currentRelay3 := CheckStatus(Relay3, r.pins.relay3);
      if currentRelay3 != last.relay3 {
        ProcessKey3Logic(r.pins);
        last := last.(relay3 := currentRelay3);
      }
    }

    /** The periodic voltage recheck at the end of Check_State_Changes. */
    method CountAndRecheck(r: Reading)
      requires Valid()
      modifies this`counter, this`lowFlag, this`highFlag, this`trace
      ensures Valid()
      ensures old(counter) + 1 < RECHECK_PERIOD ==>
        Model() == old(Model()).(counter := old(counter) + 1) && trace == old(trace)
      ensures old(counter) + 1 >= RECHECK_PERIOD ==>
        var rc := Recheck(old(Model()).(counter := 0), r);
        Model() == rc.next && trace == old(trace) + rc.out
    {
      counter := counter + 1;
      if counter >= RECHECK_PERIOD {
        counter := 0;
        DetectVoltageStatus(r.adc);
        ProcessKey3Logic(r.pins);
      }
    }

    /** The three change-detection blocks of Check_State_Changes. */
    method CheckGroups(r: Reading)
      modifies this`last, this`trace
      ensures last == Resample(old(Model()), r)
      ensures trace == old(trace) + Edges(old(Model()), r)
    {
      ghost var s, t0 := Model(), trace;
      CheckGroupA(r, s);
      CheckGroupB(r, s);
      CheckGroupC(r, s);
      assert last == Observe(r.pins);
      SnapshotTracksInputs(s, r);
      AppendAssoc(t0, EdgeA(s, r), EdgeB(s, r));
      AppendAssoc(t0, EdgeA(s, r) + EdgeB(s, r), EdgeC(s, r));
    }

    method CheckStateChanges(r: Reading)
      requires Valid()
      modifies this
      ensures Valid()
      ensures Model() == Supervision.CheckStateChanges(old(Model()), r).next
      ensures trace == old(trace) + Supervision.CheckStateChanges(old(Model()), r).out
    {
      ghost var s, t0 := Model(), trace;
      CheckGroups(r);
      ghost var t1 := trace;
      CountAndRecheck(r);
      AppendAssoc(t0, Edges(s, r), trace[|t1|..]);
    }

    /** main from powering the keypad device up to the first loop iteration. */
    method Startup(r: Reading)
      modifies this
      ensures Model() == Supervision.Startup(old(Model()), r).next
      ensures trace == old(trace) + Supervision.Startup(old(Model()), r).out
      ensures counter == old(counter)
    {
      ghost var t0 := trace;
      trace := trace + PowerUp;
      DetectVoltageStatus(r.adc);
      last := Snapshot(r.pins.human, r.pins.pir,
        CheckStatus(Led1, r.pins.led1), CheckStatus(Led2, r.pins.led2), CheckStatus(Relay3, r.pins.relay3));
      ghost var pre := PowerUp + [VoltageRead];
      AppendAssoc(t0, PowerUp, [VoltageRead]);
      ProcessKey1Logic(r.pins);
      AppendAssoc(t0, pre, Key1Logic(r.pins));
      ProcessKey2Logic(r.pins);
      AppendAssoc(t0, pre + Key1Logic(r.pins), Key2Logic(r.pins));
      ProcessKey3Logic(r.pins);
      AppendAssoc(t0, pre + Key1Logic(r.pins) + Key2Logic(r.pins), Key3Logic(lowFlag, highFlag, r.pins));
    }

    /** One pass of main's while(1): check, feed the watchdog, wait. */
    method LoopIteration(r: Reading)
      requires Valid()
      modifies this
      ensures Valid()
      ensures Model() == Iteration(old(Model()), r).next
      ensures trace == old(trace) + Iteration(old(Model()), r).out
    {
      ghost var t0 := trace;
      CheckStateChanges(r);
      ghost var t1 := trace;
      trace := trace + [FeedWatchdog, Wait(POLL_MS)];
      AppendAssoc(t0, t1[|t0|..], [FeedWatchdog, Wait(POLL_MS)]);
    }

    /** The first |rs| iterations of main's while(1), one reading per iteration. */
    method Run(rs: seq<Reading>)
      requires Valid()
      modifies this
      ensures Valid()
      ensures Model() == RunLoop(old(Model()), rs).next
      ensures trace == old(trace) + RunLoop(old(Model()), rs).out
    {
      ghost var s0, t0 := Model(), trace;
      for i := 0 to |rs|
        invariant Valid()
        invariant Model() == RunLoop(s0, rs[..i]).next
        invariant trace == t0 + RunLoop(s0, rs[..i]).out
      {
        ghost var before := RunLoop(s0, rs[..i]);
        LoopIteration(rs[i]);
        ghost var it := Iteration(before.next, rs[i]);
        assert rs[..i + 1][..i] == rs[..i];
        AppendAssoc(t0, before.out, it.out);
      }
      assert rs[..|rs|] == rs;
    }

    /**
     * LVD_ISR as one atomic step: when the low-voltage flag is raised it sets
     * voltage_low_flag and leaves voltage_high_flag alone, so both can be set.
     */
    method LowVoltageInterrupt(lvdf: bool)
      modifies this`lowFlag
      ensures lowFlag == (old(lowFlag) || lvdf)
    {
      if lvdf {
        lowFlag := true;
      }
    }
  }

  /** The whole program run from power-on for |rs| loop iterations. */
  method Boot(start: Reading, rs: seq<Reading>) returns (sup: Supervisor)
    ensures fresh(sup) && sup.Valid()
    ensures sup.Model() == Supervision.Boot(start, rs).next
    ensures sup.trace == OutputDefaults + Supervision.Boot(start, rs).out
  {
    sup := new Supervisor();
    ghost var st := Supervision.Startup(Initial, start);
    sup.Startup(start);
    assert sup.Valid() && sup.Model() == st.next && sup.trace == OutputDefaults + st.out;
    ghost var run := RunLoop(st.next, rs);
    sup.Run(rs);
    AppendAssoc(OutputDefaults, st.out, run.out);
  }
}
