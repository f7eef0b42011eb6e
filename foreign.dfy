/**
 * The library calls the signer makes and does not define: SHA-256 and
 * HMAC-SHA256 from Node's `crypto` module, and `JSON.stringify` on the
 * request payload. They are parameters of the model (fields of
 * `Primitives`), so nothing below depends on how they compute; only the
 * lowercase hexadecimal rendering of a digest (`digest('hex')`) is written out.
 */
module Foreign {
  import PaApi

  newtype Byte = x: int | 0 <= x < 256

  /** A SHA-256 or HMAC-SHA256 digest: 32 bytes. */
  type Digest = d: seq<Byte> | |d| == 32 witness seq(32, _ => 0)

  /** An HMAC key: a string (the first link of the chain) or a previous digest. */
  datatype HmacKey = Text(text: string) | Raw(bytes: Digest)

  /** `createHash('sha256')`, `createHmac('sha256', key)` and `JSON.stringify`. */
  datatype Primitives = Primitives(
    sha256: string -> Digest,
    hmac: (HmacKey, string) -> Digest,
    stringify: PaApi.GetItemsPayload -> string)

  predicate IsHexChar(c: char) {
    '0' <= c <= '9' || 'a' <= c <= 'f'
  }

  predicate IsHex(s: string) {
    forall i :: 0 <= i < |s| ==> IsHexChar(s[i])
  }

  function HexChar(v: int): char
    requires 0 <= v < 16
  {
    if v < 10 then ('0' as int + v) as char else ('a' as int + v - 10) as char
  }

  function HexValue(c: char): (v: int)
    requires IsHexChar(c)
    ensures 0 <= v < 16
  {
    if c <= '9' then c as int - '0' as int else c as int - 'a' as int + 10
  }

  /** `digest('hex')`: two lowercase hexadecimal digits per byte, high nibble first. */
  function Hex(bytes: seq<Byte>): (s: string)
    ensures |s| == 2 * |bytes| && IsHex(s)
    decreases |bytes|
  {
    if |bytes| == 0 then ""
    else [HexChar(bytes[0] as int / 16), HexChar(bytes[0] as int % 16)] + Hex(bytes[1..])
  }

  /** Reads lowercase hexadecimal text back into bytes. */
  function Unhex(s: string): seq<Byte>
    requires |s| % 2 == 0 && IsHex(s)
    decreases |s|
  {
    if |s| == 0 then []
    else [(HexValue(s[0]) * 16 + HexValue(s[1])) as Byte] + Unhex(s[2..])
  }

  /** The hex rendering loses nothing: it reads back into the same bytes. */
  lemma {:induction false} HexRoundTrip(bytes: seq<Byte>)
    ensures Unhex(Hex(bytes)) == bytes
    decreases |bytes|
  {
    if |bytes| > 0 {
      var s := Hex(bytes);
      assert s[2..] == Hex(bytes[1..]);
      HexRoundTrip(bytes[1..]);
      assert [bytes[0]] + bytes[1..] == bytes;
    }
  }

  /** `createHash('sha256').update(m).digest('hex')`. */
  function Sha256Hex(p: Primitives, m: string): (h: string)
    ensures |h| == 64 && IsHex(h)
  {
    Hex(p.sha256(m))
  }
}
