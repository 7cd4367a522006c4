/**
 * The VM's network identity (main.go:221-231): six random bytes, the first one forced
 * to a locally administered unicast address (the U/L bit 0x02 set, the I/G bit 0x01
 * clear, IEEE Std 802-2014 clause 8.2), rendered as colon-separated lower-case hex the
 * way Go's `net.HardwareAddr.String` does.
 */
module HardwareAddr {
  import opened Wrappers

  /** The six bytes of a MAC-48 address. */
  type Bytes6 = s: seq<bv8> | |s| == 6 witness [0, 0, 0, 0, 0, 0]

  /** `(b | 2) & 0xfe`: set the locally administered bit, clear the multicast bit, keep the rest. */
  function FixUp(b: bv8): bv8 {
    (b | 2) & 0xfe
  }

  /** The fix-up sets the U/L bit, clears the I/G bit and keeps the six other bits. */
  lemma FixUpBits(b: bv8)
    ensures FixUp(b) & 0x02 == 0x02
    ensures FixUp(b) & 0x01 == 0
    ensures FixUp(b) & 0xfc == b & 0xfc
  {
  }

  /** A first byte that is already locally administered and unicast. */
  predicate LocalUnicast(b: bv8) {
    b & 0x03 == 0x02
  }

  /** The fix-up changes exactly the bytes that are not local unicast; so applying it twice is applying it once. */
  lemma FixUpFixedPoints(b: bv8)
    ensures FixUp(b) == b <==> LocalUnicast(b)
    ensures FixUp(FixUp(b)) == FixUp(b)
  {
  }

  /** The address `randomMac` builds from the random bytes. */
  function Normalize(raw: Bytes6): Bytes6 {
    [FixUp(raw[0])] + raw[1..]
  }

  /** Only the two low bits of the first byte change, and the result is local unicast. */
  lemma NormalizeKeeps(raw: Bytes6)
    ensures LocalUnicast(Normalize(raw)[0]) && Normalize(raw)[0] & 0xfc == raw[0] & 0xfc
    ensures Normalize(raw)[1..] == raw[1..]
    ensures Normalize(Normalize(raw)) == Normalize(raw)
  {
    FixUpBits(raw[0]);
    FixUpFixedPoints(raw[0]);
    assert Normalize(raw)[1..] == raw[1..];
  }

  /** The lower-case hex digit for a nibble, as in Go's `hexDigit` table. */
  function HexDigit(n: bv8): char
    requires n < 16
  {
    if n < 10 then ('0' as int + n as int) as char else ('a' as int + n as int - 10) as char
  }

  /** Every nibble has a lower-case digit, and the digit reads back as the nibble. */
  lemma HexDigitValue(n: bv8)
    requires n < 16
    ensures IsLowerHex(HexDigit(n)) && HexValue(HexDigit(n)) == Some(n)
  {
  }

  predicate IsLowerHex(c: char) {
    '0' <= c <= '9' || 'a' <= c <= 'f'
  }

  /** The nibble a lower-case hex digit stands for; anything else is not a digit. */
  function HexValue(c: char): (r: Option<bv8>)
    ensures r.Some? <==> IsLowerHex(c)
    ensures r.Some? ==> r.value < 16
  {
    if '0' <= c <= '9' then Some((c as int - '0' as int) as bv8)
    else if 'a' <= c <= 'f' then Some((c as int - 'a' as int + 10) as bv8)
    else None
  }

  /** Two hex digits, high nibble first. */
  function FormatByte(b: bv8): string {
    [HexDigit(b >> 4), HexDigit(b & 0xf)]
  }

  /** A byte is two hex digits that read back as the byte. */
  lemma FormatByteParses(b: bv8)
    ensures |FormatByte(b)| == 2 && IsLowerHex(FormatByte(b)[0]) && IsLowerHex(FormatByte(b)[1])
    ensures ParseByte(FormatByte(b)[0], FormatByte(b)[1]) == Some(b)
  {
    HexDigitValue(b >> 4);
    HexDigitValue(b & 0xf);
  }

  function ParseByte(hi: char, lo: char): Option<bv8> {
    match (HexValue(hi), HexValue(lo))
    case (Some(h), Some(l)) => Some((h << 4) | l)
    case _ => None
  }

  /** `net.HardwareAddr.String`: the bytes as hex pairs joined by ':'; no bytes give "". */
  function Format(a: seq<bv8>): string
  {
    if a == [] then ""
    else if |a| == 1 then FormatByte(a[0])
    else FormatByte(a[0]) + ":" + Format(a[1..])
  }

  /** Reads back colon-separated lower-case hex pairs (the inverse of `Format`). */
  function Parse(s: string): Option<seq<bv8>>
    decreases |s|
  {
    if |s| < 2 then None
    else match ParseByte(s[0], s[1])
      case None => None
      case Some(b) =>
        if |s| == 2 then Some([b])
        else if s[2] != ':' then None
        else match Parse(s[3..])
          case None => None
          case Some(rest) => Some([b] + rest)
  }

  /** Reads back a MAC-48 address: exactly six groups. */
  function ParseMac48(s: string): Option<Bytes6> {
    match Parse(s)
    case Some(a) => if |a| == 6 then Some(a) else None
    case None => None
  }

  /** Every third character is ':', the others are lower-case hex digits, 3n-1 characters in all. */
  lemma {:induction false} FormatShape(a: seq<bv8>)
    requires a != []
    ensures |Format(a)| == 3 * |a| - 1
    ensures forall i :: 0 <= i < |Format(a)| ==>
      if i % 3 == 2 then Format(a)[i] == ':' else IsLowerHex(Format(a)[i])
  {
    FormatByteParses(a[0]);
    if |a| > 1 {
      FormatShape(a[1..]);
      var s := Format(a);
      var t := Format(a[1..]);
      assert s == FormatByte(a[0]) + ":" + t;
      forall i | 0 <= i < |s|
        ensures if i % 3 == 2 then s[i] == ':' else IsLowerHex(s[i])
      {
        if i >= 3 {
          assert s[i] == t[i - 3];
          assert (i - 3) % 3 == i % 3;
        }
      }
    }
  }

  /** Parsing the formatted text gives the bytes back. */
  lemma {:induction false} ParseFormat(a: seq<bv8>)
    requires a != []
    ensures Parse(Format(a)) == Some(a)
  {
    var head := FormatByte(a[0]);
    FormatByteParses(a[0]);
    if |a| > 1 {
      ParseFormat(a[1..]);
      FormatShape(a[1..]);
      var s := Format(a);
      assert s == head + ":" + Format(a[1..]);
      assert s[0] == head[0] && s[1] == head[1] && s[2] == ':';
      assert s[3..] == Format(a[1..]);
      assert ParseByte(s[0], s[1]) == Some(a[0]);
      assert [a[0]] + a[1..] == a;
    } else {
      assert Format(a) == head;
      assert ParseByte(head[0], head[1]) == Some(a[0]);
      assert [a[0]] == a;
    }
  }

  /** The address text is 17 characters long and reads back as exactly the six bytes it shows. */
  lemma FormattedMac(a: Bytes6)
    ensures |Format(a)| == 17
    ensures ParseMac48(Format(a)) == Some(a)
  {
    FormatShape(a);
    ParseFormat(a);
  }

  /**
   * `randomMac`: fill a six-byte buffer from the random source, overwrite byte 0 with
   * its fix-up, format. A failing random source is reported as None.
   */
  method RandomMac(entropy: Option<Bytes6>) returns (mac: Option<string>)
    ensures entropy.None? <==> mac.None?
    ensures entropy.Some? ==> mac == Some(Format(Normalize(entropy.value)))
  {
    if entropy.None? {
      return None;
    }
    var raw := entropy.value;
    var buf := new bv8[6](i requires 0 <= i < 6 => raw[i]);
    buf[0] := (buf[0] | 2) & 0xfe;
    assert buf[..] == Normalize(raw);
    mac := Some(Format(buf[..]));
  }
}
