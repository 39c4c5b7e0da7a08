/**
 * The pkt-line framing of the Git wire protocol (the "pkt-line Format" section of
 * gitprotocol-common(5)) as far as the server uses it: the service announcement that
 * opens a smart-HTTP ref advertisement ("Smart Server Response" in gitprotocol-http(5)).
 *
 * The length field is built as JavaScript does it, `n.toString(16).padStart(4, '0')`,
 * and a reader for pkt-lines is given so that the framing can be checked by a round trip.
 */
module PktLine {
  import opened Strings

  /** The largest pkt-len the protocol lets a sender write (65516 data bytes plus 4). */
  const MAX_PKT_LEN: nat := 65520

  /** The flush-pkt: a length field of zero and no payload. */
  const FLUSH_PKT: string := "0000"

  // ---------------------------------------------------------------------------
  // Hexadecimal digits

  /** The digit `Number.prototype.toString(16)` writes for `d`: always lower case. */
  function HexDigit(d: nat): (c: char)
    requires d < 16
  {
    if d < 10 then ('0' as int + d) as char else ('a' as int + d - 10) as char
  }

  /** A character a pkt-line reader accepts in the length field (either case). */
  predicate IsHexChar(c: char) {
    '0' <= c <= '9' || 'a' <= c <= 'f' || 'A' <= c <= 'F'
  }

  predicate IsLowerHexChar(c: char) {
    '0' <= c <= '9' || 'a' <= c <= 'f'
  }

  function HexDigitValue(c: char): (d: nat)
    requires IsHexChar(c)
    ensures d < 16
  {
    if '0' <= c <= '9' then c as int - '0' as int
    else if 'a' <= c <= 'f' then c as int - 'a' as int + 10
    else c as int - 'A' as int + 10
  }

  predicate IsHexString(s: string) {
    forall i :: 0 <= i < |s| ==> IsHexChar(s[i])
  }

  predicate IsLowerHex(s: string) {
    forall i :: 0 <= i < |s| ==> IsLowerHexChar(s[i])
  }

  /** The number a string of hexadecimal digits denotes, most significant digit first. */
  function HexValue(s: string): nat
    requires IsHexString(s)
    decreases |s|
  {
    if s == [] then 0 else HexValue(s[..|s| - 1]) * 16 + HexDigitValue(s[|s| - 1])
  }

  function Pow16(k: nat): nat {
    if k == 0 then 1 else 16 * Pow16(k - 1)
  }

  // ---------------------------------------------------------------------------
  // The length field, as index.js writes it

  /** `n.toString(16)`: lower-case hexadecimal without leading zeros. */
  function ToHex(n: nat): (s: string)
    ensures 1 <= |s|
    ensures IsLowerHex(s) && IsHexString(s)
    ensures HexValue(s) == n
    decreases n
  {
    HexDigitDenotes(n % 16);
    if n < 16 then [HexDigit(n)]
    else
      var s := ToHex(n / 16) + [HexDigit(n % 16)];
      assert s[..|s| - 1] == ToHex(n / 16);
      s
  }

  /** The digit written for `d` is read back as `d`. */
  lemma HexDigitDenotes(d: nat)
    requires d < 16
    ensures IsLowerHexChar(HexDigit(d)) && IsHexChar(HexDigit(d)) && HexDigitValue(HexDigit(d)) == d
  {
  }

  lemma Pow16Of4()
    ensures Pow16(4) == 65536
  {
  }

  function Repeat(c: char, k: nat): (s: string)
    ensures |s| == k
    ensures forall i :: 0 <= i < k ==> s[i] == c
  {
    if k == 0 then [] else [c] + Repeat(c, k - 1)
  }

  /** `s.padStart(width, fill)` for a one-character `fill`. */
  function PadStart(s: string, width: nat, fill: char): (r: string)
    ensures |r| == if |s| >= width then |s| else width
    ensures r[|r| - |s|..] == s
    ensures forall i :: 0 <= i < |r| - |s| ==> r[i] == fill
  {
    if |s| >= width then s else Repeat(fill, width - |s|) + s
  }

  /** `n.toString(16).padStart(4, '0')`. */
  function LengthField(n: nat): string {
    PadStart(ToHex(n), 4, '0')
  }

  /** A data pkt-line: the length field for `|payload| + 4`, then the payload. */
  function Encode(payload: string): string {
    LengthField(|payload| + 4) + payload
  }

  /** The first line of a smart-HTTP ref advertisement, before pkt-line framing. */
  function ServiceHeader(service: string): string {
    "# service=" + service + "\n"
  }

  /** What the server writes before any engine output on `info/refs`: one pkt-line and a flush-pkt. */
  function Preamble(service: string): string {
    Encode(ServiceHeader(service)) + FLUSH_PKT
  }

  // ---------------------------------------------------------------------------
  // Reading pkt-lines

  datatype Packet = Flush | Data(payload: string)

  /** Reads a 4-character length field. */
  function ParseLength(field: string): (r: Option<nat>)
    ensures r.Some? ==> r.value < Pow16(4)
  {
    if |field| == 4 && IsHexString(field) then
      HexValueBound(field);
      Some(HexValue(field))
    else None
  }

  /**
   * Reads one packet from the front of `s` and returns it with the rest of `s`.
   * Lengths 1 to 3 cannot frame anything and a length beyond the input is truncated: both fail.
   */
  function ReadPacket(s: string): (r: Option<(Packet, string)>)
    ensures r.Some? ==> |r.value.1| < |s|
  {
    if |s| < 4 then None
    else match ParseLength(s[..4])
      case None => None
      case Some(n) =>
        if n == 0 then Some((Flush, s[4..]))
        else if n < 4 || n > |s| then None
        else Some((Data(s[4..n]), s[n..]))
  }

  // ---------------------------------------------------------------------------
  // Lemmas

  lemma {:induction false} HexValueBound(s: string)
    requires IsHexString(s)
    ensures HexValue(s) < Pow16(|s|)
    decreases |s|
  {
    if s != [] {
      HexValueBound(s[..|s| - 1]);
    }
  }

  lemma {:induction false} ZerosValue(k: nat)
    ensures IsHexString(Repeat('0', k)) && HexValue(Repeat('0', k)) == 0
    decreases k
  {
    if k > 0 {
      ZerosValue(k - 1);
      var z := Repeat('0', k);
      assert z[..k - 1] == Repeat('0', k - 1);
    }
  }

  /** Leading zeros do not change the value of a hexadecimal numeral. */
  lemma {:induction false} LeadingZeros(k: nat, s: string)
    requires IsHexString(s)
    ensures IsHexString(Repeat('0', k) + s)
    ensures HexValue(Repeat('0', k) + s) == HexValue(s)
    decreases |s|
  {
    var z := Repeat('0', k);
    if s == [] {
      assert z + s == z;
      ZerosValue(k);
    } else {
      var init := s[..|s| - 1];
      LeadingZeros(k, init);
      assert (z + s)[..|z + s| - 1] == z + init;
    }
  }

  /** `toString(16)` of a number below 16^k needs at most k digits. */
  lemma {:induction false} ToHexAtMost(n: nat, k: nat)
    requires 1 <= k && n < Pow16(k)
    ensures |ToHex(n)| <= k
    decreases k
  {
    if n >= 16 {
      assert k >= 2;
      ToHexAtMost(n / 16, k - 1);
    }
  }

  /** `toString(16)` of a number at least 16^k has more than k digits. */
  lemma {:induction false} ToHexMoreThan(n: nat, k: nat)
    requires n >= Pow16(k)
    ensures |ToHex(n)| > k
    decreases k
  {
    if k > 0 {
      ToHexMoreThan(n / 16, k - 1);
    }
  }

  /**
   * For lengths that fit, the field is exactly four lower-case hex digits that read back
   * as the length; past 0xffff `toString(16)` keeps every digit and the field grows.
   */
  lemma LengthFieldExact(n: nat)
    ensures n < Pow16(4) ==>
      |LengthField(n)| == 4 && IsLowerHex(LengthField(n)) && ParseLength(LengthField(n)) == Some(n)
    ensures n >= Pow16(4) ==> |LengthField(n)| > 4
  {
    var h := ToHex(n);
    if n < Pow16(4) {
      ToHexAtMost(n, 4);
      LeadingZeros(4 - |h|, h);
      var f := LengthField(n);
      assert f == Repeat('0', 4 - |h|) + h;
      forall i | 0 <= i < 4
        ensures IsLowerHexChar(f[i])
      {
        if i >= 4 - |h| {
          assert f[i] == h[i - (4 - |h|)];
        }
      }
    } else {
      ToHexMoreThan(n, 4);
    }
  }

  /** Reading an encoded pkt-line gives back its payload and leaves what followed it. */
  lemma EncodeRoundTrip(payload: string, rest: string)
    requires |payload| + 4 <= MAX_PKT_LEN
    ensures ReadPacket(Encode(payload) + rest) == Some((Data(payload), rest))
  {
    var n := |payload| + 4;
    Pow16Of4();
    LengthFieldExact(n);
    var f := LengthField(n);
    var s := f + (payload + rest);
    assert Encode(payload) + rest == s;
    assert s[..4] == f;
    assert s[4..] == payload + rest;
    assert s[4..n] == (payload + rest)[..|payload|] == payload;
    assert s[n..] == (payload + rest)[|payload|..] == rest;
    ReadData(s, n);
  }

  /** A length field of `n >= 4` that fits frames the next `n - 4` characters. */
  lemma ReadData(s: string, n: nat)
    requires 4 <= n <= |s| && ParseLength(s[..4]) == Some(n)
    ensures ReadPacket(s) == Some((Data(s[4..n]), s[n..]))
  {
  }

  lemma FlushRoundTrip(rest: string)
    ensures ReadPacket(FLUSH_PKT + rest) == Some((Flush, rest))
  {
    var s := FLUSH_PKT + rest;
    assert s[..4] == FLUSH_PKT;
    assert s[4..] == rest;
    LengthFieldExact(0);
    assert LengthField(0) == FLUSH_PKT by {
      assert ToHex(0) == "0";
      assert Repeat('0', 3) == "000";
    }
  }

  /**
   * The preamble decodes as the service header in one data packet followed by exactly
   * a flush-pkt, and its length field holds the header's length plus four.
   */
  lemma PreambleDecodes(service: string)
    requires |ServiceHeader(service)| + 4 <= MAX_PKT_LEN
    ensures ParseLength(Preamble(service)[..4]) == Some(|ServiceHeader(service)| + 4)
    ensures ReadPacket(Preamble(service)) == Some((Data(ServiceHeader(service)), FLUSH_PKT))
    ensures ReadPacket(FLUSH_PKT) == Some((Flush, ""))
  {
    var h := ServiceHeader(service);
    LengthFieldExact(|h| + 4);
    assert Preamble(service)[..4] == LengthField(|h| + 4);
    EncodeRoundTrip(h, FLUSH_PKT);
    FlushRoundTrip("");
    assert FLUSH_PKT + "" == FLUSH_PKT;
  }

  lemma LengthFieldOf30()
    ensures LengthField(30) == "001e"
  {
    assert ToHex(30) == "1e" by {
      assert ToHex(30) == ToHex(1) + [HexDigit(14)];
      assert ToHex(1) == "1";
      assert HexDigit(14) == 'e';
    }
    assert Repeat('0', 2) == "00";
    assert PadStart("1e", 4, '0') == "001e";
  }

  lemma LengthFieldOf31()
    ensures LengthField(31) == "001f"
  {
    assert ToHex(31) == "1f" by {
      assert ToHex(31) == ToHex(1) + [HexDigit(15)];
      assert ToHex(1) == "1";
      assert HexDigit(15) == 'f';
    }
    assert Repeat('0', 2) == "00";
    assert PadStart("1f", 4, '0') == "001f";
  }

  lemma PreambleWithField(service: string, field: string)
    requires LengthField(|ServiceHeader(service)| + 4) == field
    ensures Preamble(service) == field + ServiceHeader(service) + FLUSH_PKT
  {
  }

  lemma UploadPackHeader()
    ensures ServiceHeader("git-upload-pack") == "# service=git-upload-pack\n"
    ensures |ServiceHeader("git-upload-pack")| == 26
  {
  }

  lemma ReceivePackHeader()
    ensures ServiceHeader("git-receive-pack") == "# service=git-receive-pack\n"
    ensures |ServiceHeader("git-receive-pack")| == 27
  {
  }

  lemma UploadPackFraming()
    ensures Preamble("git-upload-pack") == "001e" + "# service=git-upload-pack\n" + FLUSH_PKT
  {
    UploadPackHeader();
    LengthFieldOf30();
    PreambleWithField("git-upload-pack", "001e");
  }

  lemma UploadPackSpelled()
    ensures "001e" + "# service=git-upload-pack\n" + FLUSH_PKT == "001e# service=git-upload-pack\n0000"
  {
  }

  lemma UploadPackPreamble()
    ensures Preamble("git-upload-pack") == "001e# service=git-upload-pack\n0000"
  {
    UploadPackFraming();
    UploadPackSpelled();
  }

  lemma ReceivePackFraming()
    ensures Preamble("git-receive-pack") == "001f" + "# service=git-receive-pack\n" + FLUSH_PKT
  {
    ReceivePackHeader();
    LengthFieldOf31();
    PreambleWithField("git-receive-pack", "001f");
  }

  lemma ReceivePackSpelled()
    ensures "001f" + "# service=git-receive-pack\n" + FLUSH_PKT == "001f# service=git-receive-pack\n0000"
  {
  }

  lemma ReceivePackPreamble()
    ensures Preamble("git-receive-pack") == "001f# service=git-receive-pack\n0000"
  {
    ReceivePackFraming();
    ReceivePackSpelled();
  }

  /** The two preambles the server can send, written out byte for byte. */
  lemma PreambleClosedForm()
    ensures Preamble("git-upload-pack") == "001e# service=git-upload-pack\n0000"
    ensures Preamble("git-receive-pack") == "001f# service=git-receive-pack\n0000"
  {
    UploadPackPreamble();
    ReceivePackPreamble();
  }

  /** With an ASCII service name the preamble is ASCII, so its character count is its byte count. */
  lemma PreambleIsAscii(service: string)
    requires IsAscii(service)
    ensures IsAscii(Preamble(service))
  {
    HeaderPacketIsAscii(service);
    FlushIsAscii();
    AsciiConcat(Encode(ServiceHeader(service)), FLUSH_PKT);
  }

  lemma FlushIsAscii()
    ensures IsAscii(FLUSH_PKT)
  {
  }

  lemma HeaderPacketIsAscii(service: string)
    requires IsAscii(service)
    ensures IsAscii(Encode(ServiceHeader(service)))
  {
    var h := ServiceHeader(service);
    var f := LengthField(|h| + 4);
    LengthFieldIsLowerHex(|h| + 4);
    LowerHexIsAscii(f);
    HeaderIsAscii(service);
    AsciiConcat(f, h);
  }

  lemma LengthFieldIsLowerHex(n: nat)
    ensures IsLowerHex(LengthField(n))
  {
    var f := LengthField(n);
    var t := ToHex(n);
    forall i | 0 <= i < |f|
      ensures IsLowerHexChar(f[i])
    {
      if i >= |f| - |t| {
        assert f[i] == f[|f| - |t|..][i - (|f| - |t|)];
      }
    }
  }

  lemma LowerHexIsAscii(s: string)
    requires IsLowerHex(s)
    ensures IsAscii(s)
  {
    assert forall i :: 0 <= i < |s| ==> IsLowerHexChar(s[i]);
  }

  lemma HeaderIsAscii(service: string)
    requires IsAscii(service)
    ensures IsAscii(ServiceHeader(service))
  {
    var h := ServiceHeader(service);
    forall i | 0 <= i < |h|
      ensures h[i] < 128 as char
    {
      if 10 <= i < 10 + |service| {
        assert h[i] == service[i - 10];
      }
    }
  }

}
