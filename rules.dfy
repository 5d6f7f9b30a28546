/**
 * The level comparisons of the feedback inputs and the three mismatch rules
 * that decide whether a Key pulse is needed.
 */
module Rules {
  import opened Config

  /** The feedback inputs read by the Check_*_Status functions. */
  datatype Feedback = Led1 | Led2 | Led3 | Relay1 | Relay2 | Relay3

  function ActiveLevel(f: Feedback): bool {
    match f
    case Led1 => LED1_ON_LEVEL
    case Led2 => LED2_ON_LEVEL
    case Led3 => LED3_ON_LEVEL
    case Relay1 => RELAY1_OPEN_LEVEL
    case Relay2 => RELAY2_OPEN_LEVEL
    case Relay3 => RELAY3_OPEN_LEVEL
  }

  /**
   * Check_*_Status: the feedback reads as on (LED lit, relay open) when its
   * pin sits at the configured active level. Every feedback is active high,
   * so the status is the pin level itself, and a change of status is
   * exactly a change of pin level.
   */
  function CheckStatus(f: Feedback, pin: bool): (on: bool)
    ensures on == pin
  {
    pin == ActiveLevel(f)
  }

  /**
   * Process_Key1_Logic and Process_Key2_Logic: a pulse is needed when the
   * desired state is on but the device is off, or desired off but device on.
   */
  function MismatchRule(desired: bool, actual: bool): (fire: bool)
    ensures fire <==> desired != actual
  {
    var wantedOnButOff := desired && !actual;
    var wantedOffButOn := !desired && actual;
    wantedOnButOff || wantedOffButOn
  }

  /**
   * Process_Key3_Logic: pulse to open Relay3 when voltage is low and it is
   * closed, or to close it when voltage is high and it is open.
   */
  function Key3Rule(low: bool, high: bool, relay3On: bool): (fire: bool)
    // before the first classification (both flags clear) it never fires
    ensures !low && !high ==> !fire
    // with exactly one flag set it is the mismatch rule with desired = low
    ensures low != high ==> (fire <==> MismatchRule(low, relay3On))
    // with both flags set it fires whatever the relay state
    ensures low && high ==> fire
  {
    var lowButClosed := low && !relay3On;
    var highButOpen := high && relay3On;
    lowButClosed || highButOpen
  }
}
