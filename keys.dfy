/** Key generation (backend/utils/keys.js): random bytes rendered as lower-case
    hexadecimal behind a fixed prefix. The random bytes are an input. */
module Keys {

  import opened Base

  type Byte = b: int | 0 <= b < 256

  predicate IsLowerHexChar(c: char)
  {
    '0' <= c <= '9' || 'a' <= c <= 'f'
  }

  predicate IsLowerHex(s: string)
  {
    forall i :: 0 <= i < |s| ==> IsLowerHexChar(s[i])
  }

  function HexChar(d: int): (c: char)
    requires 0 <= d < 16
    ensures IsLowerHexChar(c)
  {
    if d < 10 then (('0' as int) + d) as char else (('a' as int) + d - 10) as char
  }

  function HexValue(c: char): (d: int)
    requires IsLowerHexChar(c)
    ensures 0 <= d < 16 && HexChar(d) == c
  {
    if c <= '9' then c as int - '0' as int else c as int - 'a' as int + 10
  }

  /** `Buffer.toString("hex")`: two lower-case digits per byte, high nibble first. */
  function HexEncode(bytes: seq<Byte>): (s: string)
    ensures |s| == 2 * |bytes| && IsLowerHex(s)
  {
    if bytes == [] then []
    else [HexChar(bytes[0] / 16), HexChar(bytes[0] % 16)] + HexEncode(bytes[1..])
  }

  /** The inverse of `HexEncode`: `None` for an odd length or a non-hex character. */
  function HexDecode(s: string): Option<seq<Byte>>
    decreases |s|
  {
    if s == [] then Some([])
    else if |s| == 1 || !IsLowerHexChar(s[0]) || !IsLowerHexChar(s[1]) then None
    else match HexDecode(s[2..])
      case None => None
      case Some(rest) => Some([HexValue(s[0]) * 16 + HexValue(s[1])] + rest)
  }

  lemma {:induction false} HexRoundTrip(bytes: seq<Byte>)
    ensures HexDecode(HexEncode(bytes)) == Some(bytes)
  {
    if bytes != [] {
      var s := HexEncode(bytes);
      assert s[2..] == HexEncode(bytes[1..]);
      HexRoundTrip(bytes[1..]);
      assert HexValue(s[0]) * 16 + HexValue(s[1]) == bytes[0];
      assert [bytes[0]] + bytes[1..] == bytes;
    }
  }

  lemma HexEncodeInjective(a: seq<Byte>, b: seq<Byte>)
    requires HexEncode(a) == HexEncode(b)
    ensures a == b
  {
    HexRoundTrip(a);
    HexRoundTrip(b);
  }

  /** `randomString(length)`: `random` stands for `crypto.randomBytes(length)`. */
  function RandomString(length: nat, random: seq<Byte>): (s: string)
    requires |random| == length
    ensures |s| == 2 * length && IsLowerHex(s)
    ensures HexDecode(s) == Some(random)
  {
    HexRoundTrip(random);
    HexEncode(random)
  }

  const API_KEY_PREFIX: string := "pk_live_"
  const WEBHOOK_SECRET_PREFIX: string := "whsec_"

  /** `generateApiKey()`, from 16 random bytes. */
  function GenerateApiKey(random: seq<Byte>): (key: string)
    requires |random| == 16
    ensures |key| == 40 && key[..8] == API_KEY_PREFIX && IsLowerHex(key[8..])
    ensures HexDecode(key[8..]) == Some(random)
  {
    var hex := RandomString(16, random);
    assert (API_KEY_PREFIX + hex)[8..] == hex;
    API_KEY_PREFIX + hex
  }

  /** `generateWebhookSecret()`, from 32 random bytes. */
  function GenerateWebhookSecret(random: seq<Byte>): (secret: string)
    requires |random| == 32
    ensures |secret| == 70 && secret[..6] == WEBHOOK_SECRET_PREFIX && IsLowerHex(secret[6..])
    ensures HexDecode(secret[6..]) == Some(random)
  {
    var hex := RandomString(32, random);
    assert (WEBHOOK_SECRET_PREFIX + hex)[6..] == hex;
    WEBHOOK_SECRET_PREFIX + hex
  }

  /** Distinct random draws give distinct keys, and keys never look like secrets. */
  lemma KeysDistinguishDraws(r1: seq<Byte>, r2: seq<Byte>, r3: seq<Byte>)
    requires |r1| == 16 && |r2| == 16 && |r3| == 32
    ensures GenerateApiKey(r1) == GenerateApiKey(r2) <==> r1 == r2
    ensures GenerateApiKey(r1) != GenerateWebhookSecret(r3)
  {
    if GenerateApiKey(r1) == GenerateApiKey(r2) {
      assert GenerateApiKey(r1)[8..] == GenerateApiKey(r2)[8..];
    }
  }
}
