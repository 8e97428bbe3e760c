/** The checksum text of a processor jar: the SHA-256 digest written as two
    lower-case hexadecimal digits per byte (`Integer.toHexString(0xff & b)`,
    left-padded with '0'), and the gate that compares it with the checksum a
    processor definition expects. */
module Checksum {
  import opened Common

  function HexDigit(d: int): (c: char)
    requires 0 <= d < 16
  {
    if d < 10 then ('0' as int + d) as char else ('a' as int + d - 10) as char
  }

  predicate IsLowerHexDigit(c: char) {
    ('0' <= c <= '9') || ('a' <= c <= 'f')
  }

  function HexValue(c: char): (d: int)
    requires IsLowerHexDigit(c)
    ensures 0 <= d < 16
  {
    if c <= '9' then c as int - '0' as int else c as int - 'a' as int + 10
  }

  /** `0xff & b`: the byte read as unsigned. */
  function Unsigned(b: JByte): (u: int)
    ensures 0 <= u < 256
    ensures (u - b) % 256 == 0
  {
    if b < 0 then b + 256 else b
  }

  /** The signed byte whose unsigned reading is `u`. */
  function Signed(u: int): JByte
    requires 0 <= u < 256
  {
    if u < 128 then u else u - 256
  }

  /** `Integer.toHexString(n)` for `0 <= n < 256`: no leading zero. */
  function ToHexString(n: int): string
    requires 0 <= n < 256
  {
    if n < 16 then [HexDigit(n)] else [HexDigit(n / 16), HexDigit(n % 16)]
  }

  /** The two digits written for one digest byte. */
  function HexByte(b: JByte): string {
    var u := Unsigned(b);
    [HexDigit(u / 16), HexDigit(u % 16)]
  }

  /** The checksum text of a digest. */
  function Hex(digest: seq<JByte>): string
    decreases |digest|
  {
    if |digest| == 0 then [] else Hex(digest[..|digest| - 1]) + HexByte(digest[|digest| - 1])
  }

  /** The `StringBuilder` loop of `calculateChecksum` and `uploadJar`. */
  method HexEncode(hash: seq<JByte>) returns (hex: string)
    ensures hex == Hex(hash)
  {
    hex := "";
    for i := 0 to |hash|
      invariant hex == Hex(hash[..i])
    {
      var h := ToHexString(Unsigned(hash[i]));
      if |h| == 1 {
        hex := hex + "0";
      }
      hex := hex + h;
      assert hash[..i + 1][..i] == hash[..i];
    }
    assert hash[..|hash|] == hash;
  }

  /** Reading the checksum text back, two digits per byte. */
  function Unhex(h: string): seq<JByte>
    requires |h| % 2 == 0
    requires forall i :: 0 <= i < |h| ==> IsLowerHexDigit(h[i])
    decreases |h|
  {
    if |h| == 0 then []
    else Unhex(h[..|h| - 2]) + [Signed(HexValue(h[|h| - 2]) * 16 + HexValue(h[|h| - 1]))]
  }

  /** The checksum text has two lower-case hex digits per digest byte. */
  lemma {:induction false} HexShape(digest: seq<JByte>)
    ensures |Hex(digest)| == 2 * |digest|
    ensures forall i :: 0 <= i < |Hex(digest)| ==> IsLowerHexDigit(Hex(digest)[i])
    decreases |digest|
  {
    if |digest| > 0 {
      HexShape(digest[..|digest| - 1]);
    }
  }

  /** The checksum text determines the digest: reading it back gives the digest. */
  lemma {:induction false} UnhexHex(digest: seq<JByte>)
    ensures |Hex(digest)| % 2 == 0
    ensures forall i :: 0 <= i < |Hex(digest)| ==> IsLowerHexDigit(Hex(digest)[i])
    ensures Unhex(Hex(digest)) == digest
    decreases |digest|
  {
    HexShape(digest);
    if |digest| > 0 {
      var init, last := digest[..|digest| - 1], digest[|digest| - 1];
      var h := Hex(digest);
      HexShape(init);
      assert h == Hex(init) + HexByte(last);
      assert h[..|h| - 2] == Hex(init);
      UnhexHex(init);
      var u := Unsigned(last);
      assert HexValue(h[|h| - 2]) == u / 16;
      assert HexValue(h[|h| - 1]) == u % 16;
      assert digest == init + [last];
    }
  }

  /** The checksum text is already lower case. */
  lemma HexIsLowerCase(digest: seq<JByte>)
    ensures ToLower(Hex(digest)) == Hex(digest)
  {
    HexShape(digest);
    var h := Hex(digest);
    assert forall i :: 0 <= i < |h| ==> LowerChar(h[i]) == h[i];
  }

  /** `expectedChecksum != null && !expectedChecksum.isBlank()`: the load checks the digest. */
  predicate ChecksumRequested(expected: Option<string>) {
    expected.Some? && !IsBlank(expected.value)
  }

  /** The gate of `ProcessorLoader.load`: no checksum requested, or the expected
      checksum equals the actual one ignoring case. */
  predicate ChecksumAccepted(expected: Option<string>, actual: string) {
    !ChecksumRequested(expected) || EqualsIgnoreCase(expected.value, actual)
  }

  /** A requested checksum is accepted exactly when, lower-cased, it is the
      checksum text of the jar's digest. */
  lemma ChecksumAcceptedIff(expected: string, digest: seq<JByte>)
    requires !IsBlank(expected)
    ensures ChecksumAccepted(Some(expected), Hex(digest)) <==> ToLower(expected) == Hex(digest)
  {
    HexIsLowerCase(digest);
  }
}
