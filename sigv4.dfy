/**
 * The steps of AWS Signature Version 4 that both clients write identically:
 * the compact timestamp, the date stamp, the credential scope, the string to
 * sign and the four-stage HMAC key derivation. Each client supplies its own
 * canonical request and Authorization header (see FrontendClient, DistClient).
 */
module SigV4 {
  import opened Js
  import opened Foreign

  const Algorithm := "AWS4-HMAC-SHA256"
  const Service := "ProductAdvertisingAPI"
  const Terminator := "aws4_request"

  // ---------------------------------------------------------------------------
  // Timestamp

  /**
   * `iso.replace(/[:-]|\.\d{3}/g, '')`: scanning left to right, every ':' and
   * '-' is dropped, and so is every '.' that three digits follow, together
   * with those digits; everything else is kept.
   */
  function Timestamp(iso: string): (t: string)
    ensures |t| <= |iso|
    ensures forall i :: 0 <= i < |t| ==> t[i] != ':' && t[i] != '-'
    decreases |iso|
  {
    if |iso| == 0 then ""
    else if iso[0] == ':' || iso[0] == '-' then Timestamp(iso[1..])
    else if iso[0] == '.' && |iso| >= 4 && IsDigit(iso[1]) && IsDigit(iso[2]) && IsDigit(iso[3])
    then Timestamp(iso[4..])
    else [iso[0]] + Timestamp(iso[1..])
  }

  /** `Date.prototype.toISOString()` output: `YYYY-MM-DDTHH:mm:ss.sssZ`. */
  predicate IsIsoInstant(s: string) {
    && |s| == 24
    && Digits(s, 0, 4) && s[4] == '-' && Digits(s, 5, 7) && s[7] == '-' && Digits(s, 8, 10)
    && s[10] == 'T'
    && Digits(s, 11, 13) && s[13] == ':' && Digits(s, 14, 16) && s[16] == ':' && Digits(s, 17, 19)
    && s[19] == '.' && Digits(s, 20, 23) && s[23] == 'Z'
  }

  predicate Digits(s: string, a: nat, b: nat)
    requires a <= b <= |s|
  {
    forall i :: a <= i < b ==> IsDigit(s[i])
  }

  /** A character the timestamp pattern never removes on its own. */
  predicate Plain(c: char) {
    c != ':' && c != '-' && c != '.'
  }

  lemma {:induction false} KeepPlain(s: string, k: nat)
    requires k <= |s|
    requires forall i :: 0 <= i < k ==> Plain(s[i])
    ensures Timestamp(s) == s[..k] + Timestamp(s[k..])
    decreases k
  {
    if k > 0 {
      assert Timestamp(s) == [s[0]] + Timestamp(s[1..]) by {
        assert Plain(s[0]);
      }
      KeepPlain(s[1..], k - 1);
      assert s[1..][..k - 1] == s[1..k];
      assert s[1..][k - 1..] == s[k..];
      assert [s[0]] + s[1..k] == s[..k];
      assert Timestamp(s) == ([s[0]] + s[1..k]) + Timestamp(s[k..]);
    }
  }

  /** The pattern only removes characters: nothing absent from the input appears in the timestamp. */
  lemma {:induction false} TimestampAvoids(iso: string, c: char)
    requires c !in iso
    ensures c !in Timestamp(iso)
    decreases |iso|
  {
    if |iso| > 0 {
      assert c !in iso[1..];
      TimestampAvoids(iso[1..], c);
      if |iso| >= 4 {
        assert c !in iso[4..];
        TimestampAvoids(iso[4..], c);
      }
    }
  }

  /** The date stamp: `timestamp.slice(0, 8)`. */
  function DateStamp(timestamp: string): string {
    if |timestamp| >= 8 then timestamp[..8] else timestamp
  }

  /** A run of plain characters is kept, the separator after it dropped. */
  lemma KeepThenDrop(s: string, a: nat, b: nat)
    requires a <= b < |s|
    requires forall i :: a <= i < b ==> Plain(s[i])
    requires s[b] == ':' || s[b] == '-'
    ensures Timestamp(s[a..]) == s[a..b] + Timestamp(s[b + 1..])
  {
    KeepPlain(s[a..], b - a);
    assert s[a..][..b - a] == s[a..b];
    assert s[a..][b - a..] == s[b..];
    assert s[b..][1..] == s[b + 1..];
  }

  /** Seconds, milliseconds and the zone designator: `ss.sssZ` becomes `ssZ`. */
  lemma SecondsAndZone(s: string)
    requires |s| == 7 && IsDigit(s[0]) && IsDigit(s[1]) && s[2] == '.'
    requires IsDigit(s[3]) && IsDigit(s[4]) && IsDigit(s[5]) && s[6] == 'Z'
    ensures Timestamp(s) == s[..2] + "Z"
  {
    KeepPlain(s, 2);
    assert s[2..][4..] == s[6..];
    KeepPlain(s[6..], 1);
    assert s[6..][..1] == "Z" && s[6..][1..] == "";
  }

  /**
   * For the instant the clock reports, the timestamp is the ISO basic format
   * `YYYYMMDDTHHmmssZ` and the date stamp is its `YYYYMMDD`.
   */
  lemma IsoTimestamp(iso: string)
    requires IsIsoInstant(iso)
    ensures Timestamp(iso) == iso[..4] + iso[5..7] + iso[8..10] + "T" + iso[11..13] + iso[14..16] + iso[17..19] + "Z"
    ensures |Timestamp(iso)| == 16
    ensures DateStamp(Timestamp(iso)) == iso[..4] + iso[5..7] + iso[8..10]
  {
    var s := iso;
    var t := Timestamp(iso);
    IsoDate(s);
    IsoTime(s);
    assert s[0..] == s && s[..4] == s[0..4];
    assert s[8..13] == s[8..10] + "T" + s[11..13];
    assert t == s[..4] + s[5..7] + s[8..10] + "T" + s[11..13] + s[14..16] + s[17..19] + "Z";
    assert t[..8] == s[..4] + s[5..7] + s[8..10];
  }

  /** The date part of an instant: its digit runs are kept and its dashes dropped. */
  lemma IsoDate(s: string)
    requires IsIsoInstant(s)
    ensures Timestamp(s[0..]) == s[0..4] + (s[5..7] + Timestamp(s[8..]))
  {
    DigitsArePlain(s, 0, 4);
    KeepThenDrop(s, 0, 4);
    DigitsArePlain(s, 5, 7);
    KeepThenDrop(s, 5, 7);
  }

  /** The time part of an instant: the colons and the milliseconds are dropped. */
  lemma IsoTime(s: string)
    requires IsIsoInstant(s)
    ensures Timestamp(s[8..]) == s[8..13] + (s[14..16] + (s[17..19] + "Z"))
  {
    DigitsArePlain(s, 8, 10);
    DigitsArePlain(s, 11, 13);
    KeepThenDrop(s, 8, 13);
    DigitsArePlain(s, 14, 16);
    KeepThenDrop(s, 14, 16);
    SecondsAndZone(s[17..]);
    assert s[17..][..2] == s[17..19];
  }

  lemma DigitsArePlain(s: string, a: nat, b: nat)
    requires a <= b <= |s| && Digits(s, a, b)
    ensures forall i :: a <= i < b ==> Plain(s[i])
  {
  }

  // ---------------------------------------------------------------------------
  // Scope and string to sign

  /** `${date}/${awsRegion}/${service}/aws4_request` */
  function CredentialScope(date: string, awsRegion: string): string {
    date + "/" + awsRegion + "/" + Service + "/" + Terminator
  }

  /** The scope reads back into its four fields. */
  lemma ScopeFields(date: string, awsRegion: string)
    requires '/' !in date && '/' !in awsRegion
    ensures Split(CredentialScope(date, awsRegion), '/') == [date, awsRegion, Service, Terminator]
  {
    ScopeConstants();
    SplitFour(date, awsRegion, Service, Terminator, '/');
  }

  lemma ScopeConstants()
    ensures "/" == ['/'] && '/' !in Service && '/' !in Terminator
  {
  }

  /** The scope holds no character that its two variable fields, its fixed fields and '/' all lack. */
  lemma ScopeAvoids(date: string, awsRegion: string, c: char)
    requires c !in date && c !in awsRegion && c != '/' && c !in Service && c !in Terminator
    ensures c !in CredentialScope(date, awsRegion)
  {
  }

  /** The four lines of the string to sign. */
  function StringToSign(p: Primitives, timestamp: string, awsRegion: string, canonicalRequest: string): string {
    Join([Algorithm, timestamp, CredentialScope(DateStamp(timestamp), awsRegion), Sha256Hex(p, canonicalRequest)], "\n")
  }

  /**
   * The string to sign reads back as: the algorithm, the timestamp, the
   * scope of the timestamp's date, and the hex SHA-256 of the canonical request.
   */
  lemma StringToSignFields(p: Primitives, timestamp: string, awsRegion: string, canonicalRequest: string)
    requires '\n' !in timestamp && '\n' !in awsRegion
    ensures Split(StringToSign(p, timestamp, awsRegion, canonicalRequest), '\n') ==
      [Algorithm, timestamp, CredentialScope(DateStamp(timestamp), awsRegion), Sha256Hex(p, canonicalRequest)]
  {
    var date := DateStamp(timestamp);
    assert '\n' !in date;
    var h := Sha256Hex(p, canonicalRequest);
    assert '\n' !in h;
    SplitJoin([Algorithm, timestamp, CredentialScope(date, awsRegion), h], '\n');
  }

  // ---------------------------------------------------------------------------
  // Key derivation and signature

  /** kSigning = HMAC(HMAC(HMAC(HMAC("AWS4" + secret, date), region), service), "aws4_request"). */
  function SigningKey(p: Primitives, secretKey: string, date: string, awsRegion: string): Digest {
    var kDate := p.hmac(Text("AWS4" + secretKey), date);
    var kRegion := p.hmac(Raw(kDate), awsRegion);
    var kService := p.hmac(Raw(kRegion), Service);
    p.hmac(Raw(kService), Terminator)
  }

  /** `calculateSignature`: the hex HMAC of the string to sign under the derived key. */
  function CalculateSignature(p: Primitives, secretKey: string, awsRegion: string, stringToSign: string, date: string): (sig: string)
    ensures |sig| == 64 && IsHex(sig)
  {
    Hex(p.hmac(Raw(SigningKey(p, secretKey, date, awsRegion)), stringToSign))
  }

  /** HMAC-chaining `key` through `msgs`: each digest keys the HMAC of the next message. */
  function Chain(p: Primitives, key: HmacKey, msgs: seq<string>): HmacKey
    decreases |msgs|
  {
    if |msgs| == 0 then key else Chain(p, Raw(p.hmac(key, msgs[0])), msgs[1..])
  }

  /**
   * How a receiver checks a signature: it derives the key by chaining
   * "AWS4" + secret through the fields of the credential scope it was sent.
   */
  function ScopeSignature(p: Primitives, secretKey: string, scope: string, stringToSign: string): string {
    Hex(p.hmac(Chain(p, Text("AWS4" + secretKey), Split(scope, '/')), stringToSign))
  }

  /**
   * The signature the client computes is the one a receiver derives from the
   * credential scope: the key chain runs over exactly the scope's fields.
   */
  lemma SignatureMatchesScope(p: Primitives, secretKey: string, awsRegion: string, stringToSign: string, date: string)
    requires '/' !in date && '/' !in awsRegion
    ensures CalculateSignature(p, secretKey, awsRegion, stringToSign, date) ==
      ScopeSignature(p, secretKey, CredentialScope(date, awsRegion), stringToSign)
  {
    ScopeFields(date, awsRegion);
    var k0 := Text("AWS4" + secretKey);
    var msgs := [date, awsRegion, Service, Terminator];
    var k1 := Raw(p.hmac(k0, date));
    var k2 := Raw(p.hmac(k1, awsRegion));
    var k3 := Raw(p.hmac(k2, Service));
    var k4 := Raw(p.hmac(k3, Terminator));
    assert Chain(p, k4, []) == k4;
    assert Chain(p, k3, [Terminator]) == k4;
    assert Chain(p, k2, [Service, Terminator]) == k4;
    assert Chain(p, k1, [awsRegion, Service, Terminator]) == k4;
    assert Chain(p, k0, msgs) == k4;
    assert k4 == Raw(SigningKey(p, secretKey, date, awsRegion));
  }
}
