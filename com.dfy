/** com.c: the serial link's text encoding. A transmitted character is modelled
    by its place in the returned string; UARTCharSend is the sink those strings
    are appended to. */
module Com {
  import opened CTypes

  predicate IsDigit(c: char) { '0' <= c <= '9' }

  function DigitChar(d: int): (c: char)
    requires 0 <= d <= 9
    ensures IsDigit(c) && c as int - '0' as int == d
  {
    (d + '0' as int) as char
  }

  /** UARTIntSend: the value's four low decimal digits, most significant
      first, as ASCII characters. */
  function UARTIntSend(integer: uint16): (s: string)
    ensures |s| == 4
    ensures forall k | 0 <= k < 4 :: IsDigit(s[k])
  {
    var n := integer as int;
    [DigitChar((n % 10000) / 1000), DigitChar((n % 1000) / 100),
     DigitChar((n % 100) / 10), DigitChar(n % 10)]
  }

  /** A string of decimal digits read as a number, most significant first. */
  function DecimalValue(s: string): (n: nat)
    requires forall k | 0 <= k < |s| :: IsDigit(s[k])
  {
    if s == [] then 0
    else
      var last := s[|s| - 1];
      assert IsDigit(last);
      DecimalValue(s[..|s| - 1]) * 10 + (last as int - '0' as int)
  }

  lemma FourDigitValue(s: string)
    requires |s| == 4 && forall k | 0 <= k < 4 :: IsDigit(s[k])
    ensures DecimalValue(s) ==
              1000 * (s[0] as int - '0' as int) + 100 * (s[1] as int - '0' as int) +
              10 * (s[2] as int - '0' as int) + (s[3] as int - '0' as int)
  {
    var s1, s2, s3 := s[..1], s[..2], s[..3];
    assert s1[..0] == [] && s2[..1] == s1 && s3[..2] == s2 && s[..3] == s3;
    assert DecimalValue(s1) == s[0] as int - '0' as int;
    assert DecimalValue(s2) == DecimalValue(s1) * 10 + (s[1] as int - '0' as int);
    assert DecimalValue(s3) == DecimalValue(s2) * 10 + (s[2] as int - '0' as int);
  }

  /** Reading the four characters back yields the value modulo 10000: values
      above 9999 lose their high digits. */
  lemma {:induction false} UARTIntSendValue(integer: uint16)
    ensures DecimalValue(UARTIntSend(integer)) == integer as int % 10000
  {
    var n := integer as int;
    var q, m := n / 10000, n % 10000;
    var d0, r0 := m / 1000, m % 1000;
    var d1, r1 := r0 / 100, r0 % 100;
    var d2, d3 := r1 / 10, r1 % 10;
    DivModUnique(n, 1000, 10 * q + d0, r0);
    DivModUnique(n, 100, 100 * q + 10 * d0 + d1, r1);
    DivModUnique(n, 10, 1000 * q + 100 * d0 + 10 * d1 + d2, d3);
    FourDigitValue(UARTIntSend(integer));
  }

  /** Conversely every four-digit string is the encoding of the number it
      spells, so the encoding is one-to-one on 0..9999. */
  lemma {:induction false} UARTIntSendOfValue(s: string)
    requires |s| == 4 && forall k | 0 <= k < 4 :: IsDigit(s[k])
    ensures DecimalValue(s) <= 9999
    ensures UARTIntSend(DecimalValue(s) as uint16) == s
  {
    FourDigitValue(s);
    var d0, d1, d2, d3 := s[0] as int - '0' as int, s[1] as int - '0' as int,
                          s[2] as int - '0' as int, s[3] as int - '0' as int;
    var n := DecimalValue(s);
    assert n % 10000 == n;
    assert n / 1000 == d0 && n % 1000 == 100 * d1 + 10 * d2 + d3;
    assert (n % 1000) / 100 == d1 && n % 100 == 10 * d2 + d3;
    assert (n % 100) / 10 == d2 && n % 10 == d3;
    var t := UARTIntSend(n as uint16);
    assert t[0] == s[0] && t[1] == s[1] && t[2] == s[2] && t[3] == s[3];
  }

  /** Values below 1000, 100 and 10 are padded with one, two and three
      leading zeros. */
  lemma ZeroPadding(integer: uint16)
    ensures integer < 1000 ==> UARTIntSend(integer)[0] == '0'
    ensures integer < 100 ==> UARTIntSend(integer)[..2] == "00"
    ensures integer < 10 ==> UARTIntSend(integer)[..3] == "000"
  {
  }

  lemma Examples()
    ensures UARTIntSend(12345) == "2345"
    ensures UARTIntSend(7) == "0007"
  {
  }

  /** C's conversion of a uint32 argument to the uint16 parameter. */
  function ToUint16(v: uint32): (r: uint16)
    ensures r as int == v as int % 0x1_0000
    ensures v < 0x1_0000 ==> r as int == v as int
  {
    (v as int % 0x1_0000) as uint16
  }

  /** The periodic status line of the main loop: x, a comma, y, CR LF. */
  function StatusLine(x: uint32, y: uint32): (line: string)
    ensures |line| == 11 && line[4] == ',' && line[9..] == "\r\n"
    ensures forall k | 0 <= k < 4 :: IsDigit(line[k])
    ensures forall k | 5 <= k < 9 :: IsDigit(line[k])
  {
    UARTIntSend(ToUint16(x)) + "," + UARTIntSend(ToUint16(y)) + "\r\n"
  }

  /** A receiver that splits the status line at the comma recovers the
      position modulo 65536 and then modulo 10000; positions within the
      12-bit range come back exactly. */
  lemma {:induction false} StatusLineReadsBack(x: uint32, y: uint32)
    ensures DecimalValue(StatusLine(x, y)[..4]) == x as int % 0x1_0000 % 10000
    ensures DecimalValue(StatusLine(x, y)[5..9]) == y as int % 0x1_0000 % 10000
    ensures x <= 4095 && y <= 4095 ==>
              DecimalValue(StatusLine(x, y)[..4]) == x as int &&
              DecimalValue(StatusLine(x, y)[5..9]) == y as int
  {
    StatusLineFields(x, y);
    FieldValue(x);
    FieldValue(y);
  }

  /** One field: a uint32 position sent through the uint16 parameter. */
  lemma {:induction false} FieldValue(v: uint32)
    ensures DecimalValue(UARTIntSend(ToUint16(v))) == v as int % 0x1_0000 % 10000
    ensures v <= 4095 ==> DecimalValue(UARTIntSend(ToUint16(v))) == v as int
  {
    UARTIntSendValue(ToUint16(v));
  }

  /** The two fields of the status line are the two encodings. */
  lemma StatusLineFields(x: uint32, y: uint32)
    ensures StatusLine(x, y)[..4] == UARTIntSend(ToUint16(x))
    ensures StatusLine(x, y)[5..9] == UARTIntSend(ToUint16(y))
  {
    var ex, ey := UARTIntSend(ToUint16(x)), UARTIntSend(ToUint16(y));
    assert StatusLine(x, y) == ex + "," + ey + "\r\n";
  }
}
