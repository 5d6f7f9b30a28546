/** Build-time constants and machine integer types of the firmware. */
module Config {
  /** An 8-bit special function register value (ADC_RES, ADC_RESL). */
  type byte = x: int | 0 <= x < 0x100
  /** The firmware's uint16_t. */
  type uint16 = x: int | 0 <= x < 0x1_0000

  const VOLTAGE_THRESHOLD: nat := 3000   // millivolts; below is Low
  const REF_VOLTAGE: nat := 1190         // internal band-gap reference, millivolts
  const ADC_FULL_SCALE: nat := 4096      // 12-bit conversion
  const PULSE_MS: nat := 50              // Key low-pulse width
  const SETTLE_MS: nat := 500            // wait after powering the keypad device
  const POLL_MS: nat := 10               // delay at the end of each loop iteration
  const RECHECK_PERIOD: nat := 100       // loop iterations between voltage rechecks

  /** Level written to POWER_CTRL to switch the external supply on. */
  const POWER_CTRL_MODE: bool := true

  // Level (true = high) at which each feedback input reads as on/open.
  const LED1_ON_LEVEL: bool := true
  const LED2_ON_LEVEL: bool := true
  const LED3_ON_LEVEL: bool := true
  const RELAY1_OPEN_LEVEL: bool := true
  const RELAY2_OPEN_LEVEL: bool := true
  const RELAY3_OPEN_LEVEL: bool := true
}
