/**
 * The diagnostic line UART1_Send_Voltage builds: "VCC:", four decimal
 * digits, "mV\r\n" and a terminating NUL, in a 16-byte buffer.
 */
module VoltageText {
  import opened Config

  datatype Option<T> = None | Some(value: T)

  const PREFIX: string := "VCC:"
  const SUFFIX: string := "mV\r\n"

  /** A digit value plus '0', stored into a uint8_t buffer element. */
  function DigitChar(n: nat): char {
    ((n + '0' as int) % 0x100) as char
  }

  /** The four characters at buf[4..8]: thousands, hundreds, tens, units. */
  function DigitValues(volt: uint16): seq<nat> {
    [volt / 1000, (volt % 1000) / 100, (volt % 100) / 10, volt % 10]
  }

  /** The characters UART1_Send_Voltage places before the NUL. */
  function VoltageMessage(volt: uint16): (msg: string)
    ensures |msg| == 12 && msg[..4] == PREFIX && msg[8..] == SUFFIX
    // no NUL inside, so the string sender transmits all twelve characters
    ensures forall i :: 0 <= i < |msg| ==> msg[i] != '\0'
  {
    var d := DigitValues(volt);
    PREFIX + [DigitChar(d[0]), DigitChar(d[1]), DigitChar(d[2]), DigitChar(d[3])] + SUFFIX
  }

  /** The decimal value of a character, if it is a digit. */
  function DigitValue(c: char): (r: Option<nat>)
    ensures r.Some? <==> '0' <= c <= '9'
    ensures r.Some? ==> r.value < 10 && DigitChar(r.value) == c
  {
    if '0' <= c <= '9' then Some(c as int - '0' as int) else None
  }

  /** Reads the voltage back from a line in the layout of VoltageMessage. */
  function ParseVoltage(msg: string): Option<nat> {
    if |msg| == 12 && msg[..4] == PREFIX && msg[8..] == SUFFIX then
      match (DigitValue(msg[4]), DigitValue(msg[5]), DigitValue(msg[6]), DigitValue(msg[7]))
      case (Some(a), Some(b), Some(c), Some(d)) => Some(((a * 10 + b) * 10 + c) * 10 + d)
      case _ => None
    else None
  }

  /** A uint16_t is at most 65, so the uint8_t store of a digit never wraps. */
  lemma {:induction false} DigitStoreNoWrap(volt: uint16)
    ensures forall i :: 0 <= i < 4 ==> VoltageMessage(volt)[4 + i] as int == DigitValues(volt)[i] + '0' as int
  {
    var d := DigitValues(volt);
    assert d[0] <= 65;
    assert forall i :: 0 <= i < 4 ==> d[i] + '0' as int < 0x100;
  }

  lemma DecimalDecomposition(volt: nat)
    requires volt < 10000
    ensures ((volt / 1000 * 10 + (volt % 1000) / 100) * 10 + (volt % 100) / 10) * 10 + volt % 10 == volt
  {
    var a, b, c, d := volt / 1000, (volt % 1000) / 100, (volt % 100) / 10, volt % 10;
    assert volt % 1000 == b * 100 + volt % 100;
    assert volt % 100 == c * 10 + d;
    assert volt == a * 1000 + volt % 1000;
  }

  /**
   * Below 10000 the four characters are the decimal digits of the voltage and
   * the line reads back as it; from 10000 up buf[4] goes past '9' and the line
   * no longer reads back at all.
   */
  lemma {:induction false} VoltageRoundTrip(volt: uint16)
    ensures volt < 10000 ==> forall i :: 4 <= i < 8 ==> '0' <= VoltageMessage(volt)[i] <= '9'
    ensures volt >= 10000 ==> VoltageMessage(volt)[4] > '9'
    ensures ParseVoltage(VoltageMessage(volt)) == if volt < 10000 then Some(volt) else None
  {
    var msg := VoltageMessage(volt);
    var d := DigitValues(volt);
    DigitStoreNoWrap(volt);
    assert forall i :: 0 <= i < 4 ==> msg[4 + i] as int == d[i] + '0' as int;
    if volt < 10000 {
      assert forall i :: 0 <= i < 4 ==> d[i] < 10;
      assert forall i :: 0 <= i < 4 ==> DigitValue(msg[4 + i]) == Some(d[i]);
      DecimalDecomposition(volt);
    } else {
      assert d[0] >= 10;
      assert DigitValue(msg[4]) == None;
    }
  }

  /** VoltageMessage character by character, with its terminating NUL. */
  lemma MessageLayout(volt: uint16)
    ensures VoltageMessage(volt) + ['\0'] ==
      ['V', 'C', 'C', ':', DigitChar(volt / 1000), DigitChar((volt % 1000) / 100),
       DigitChar((volt % 100) / 10), DigitChar(volt % 10), 'm', 'V', '\r', '\n', '\0']
  {
  }

  /** UART1_Send_Voltage's buffer fill, before the string is handed to the UART. */
  method SendVoltage(volt: uint16) returns (buf: array<char>)
    ensures fresh(buf) && buf.Length == 16
    ensures buf[..13] == VoltageMessage(volt) + ['\0']
  {
    buf := new char[16];
    var thousands, hundreds := DigitChar(volt / 1000), DigitChar((volt % 1000) / 100);
    var tens, units := DigitChar((volt % 100) / 10), DigitChar(volt % 10);
    buf[0] := 'V'; buf[1] := 'C'; buf[2] := 'C'; buf[3] := ':';
    buf[4] := thousands;
    buf[5] := hundreds;
    buf[6] := tens;
    buf[7] := units;
    buf[8] := 'm'; buf[9] := 'V'; buf[10] := '\r'; buf[11] := '\n'; buf[12] := '\0';
    MessageLayout(volt);
    assert buf[..13] == ['V', 'C', 'C', ':', thousands, hundreds, tens, units, 'm', 'V', '\r', '\n', '\0'];
  }
}
