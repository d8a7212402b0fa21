/** The hex form of a content digest, as `CustomLevelInfo.CreateHash` builds
    it: `BitConverter.ToString(digest)` writes each byte as two upper-case hex
    digits joined by '-', and `Replace("-", "")` drops the dashes. The digest
    function itself (SHA-1) is an oracle passed in by the caller. */
module Hashing {
  import opened Host

  const HexDigits: string := "0123456789ABCDEF"

  predicate IsHexDigit(c: char)
  {
    '0' <= c <= '9' || 'A' <= c <= 'F'
  }

  /** The two upper-case hex digits of one byte. */
  function HexPair(b: byte): (s: string)
    ensures |s| == 2 && IsHexDigit(s[0]) && IsHexDigit(s[1])
  {
    [HexDigits[b as int / 16], HexDigits[b as int % 16]]
  }

  /** `BitConverter.ToString`: "0A-FF-3C", with no dash after the last byte. */
  function BitConverterToString(d: seq<byte>): string
  {
    if |d| == 0 then ""
    else if |d| == 1 then HexPair(d[0])
    else HexPair(d[0]) + "-" + BitConverterToString(d[1..])
  }

  /** `s.Replace("-", string.Empty)`. */
  function RemoveDashes(s: string): string
  {
    if s == [] then []
    else (if s[0] == '-' then [] else [s[0]]) + RemoveDashes(s[1..])
  }

  /** Reference definition: the digest's bytes as hex, two digits each, no separator. */
  function Hex(d: seq<byte>): string
  {
    if d == [] then [] else HexPair(d[0]) + Hex(d[1..])
  }

  /** `CreateHash(input)`: hex form of the digest of `input`. */
  function CreateHash(sha1: seq<byte> -> seq<byte>, input: seq<byte>): (h: string)
    ensures h == Hex(sha1(input))
    ensures |h| == 2 * |sha1(input)|
    ensures forall i :: 0 <= i < |h| ==> IsHexDigit(h[i])
  {
    var h := RemoveDashes(BitConverterToString(sha1(input)));
    DashesRemoved(sha1(input));
    HexLength(sha1(input));
    HexCharacters(sha1(input));
    h
  }

  /** A digest function whose outputs are all 20 bytes long, as SHA-1's are. */
  ghost predicate TwentyByteDigests(sha1: seq<byte> -> seq<byte>)
  {
    forall input :: |sha1(input)| == 20
  }

  lemma {:induction false} RemoveDashesAppend(a: string, b: string)
    ensures RemoveDashes(a + b) == RemoveDashes(a) + RemoveDashes(b)
  {
    if a != [] {
      assert (a + b)[1..] == a[1..] + b;
      RemoveDashesAppend(a[1..], b);
    } else {
      assert a + b == b;
    }
  }

  lemma HexPairHasNoDash(b: byte)
    ensures RemoveDashes(HexPair(b)) == HexPair(b)
  {
    var s := HexPair(b);
    assert IsHexDigit(s[0]) && IsHexDigit(s[1]);
    assert s[1..] == [s[1]] && s[1..][1..] == [];
    assert RemoveDashes(s[1..]) == [s[1]];
  }

  /** Removing the dashes from `BitConverter.ToString(d)` leaves exactly `Hex(d)`. */
  lemma {:induction false} DashesRemoved(d: seq<byte>)
    ensures RemoveDashes(BitConverterToString(d)) == Hex(d)
  {
    if |d| == 1 {
      HexPairHasNoDash(d[0]);
      assert Hex(d[1..]) == [];
    } else if |d| > 1 {
      RemoveDashesAppend(HexPair(d[0]) + "-", BitConverterToString(d[1..]));
      RemoveDashesAppend(HexPair(d[0]), "-");
      HexPairHasNoDash(d[0]);
      DashesRemoved(d[1..]);
    }
  }

  /** Two digits per byte. */
  lemma {:induction false} HexLength(d: seq<byte>)
    ensures |Hex(d)| == 2 * |d|
  {
    if d != [] {
      HexLength(d[1..]);
    }
  }

  /** Every character of the hex form is one of 0-9, A-F. */
  lemma {:induction false} HexCharacters(d: seq<byte>)
    ensures forall i :: 0 <= i < |Hex(d)| ==> IsHexDigit(Hex(d)[i])
  {
    if d != [] {
      HexCharacters(d[1..]);
      var p, t := HexPair(d[0]), Hex(d[1..]);
      assert IsHexDigit(p[0]) && IsHexDigit(p[1]);
      forall i | 0 <= i < |p + t|
        ensures IsHexDigit((p + t)[i])
      {
        if i >= 2 {
          assert (p + t)[i] == t[i - 2];
        }
      }
    }
  }

  /** Digit pair k of the hex form is byte k of the digest. */
  lemma {:induction false} HexPairAt(d: seq<byte>, k: nat)
    requires k < |d|
    ensures |Hex(d)| == 2 * |d| && Hex(d)[2 * k..2 * k + 2] == HexPair(d[k])
  {
    HexLength(d);
    if k > 0 {
      HexPairAt(d[1..], k - 1);
      var p, t := HexPair(d[0]), Hex(d[1..]);
      assert (p + t)[2 * k..2 * k + 2] == t[2 * (k - 1)..2 * (k - 1) + 2];
    }
  }

  /** Position of a hex digit in `HexDigits`, the inverse of indexing it. */
  function DigitValue(c: char): (v: nat)
    ensures IsHexDigit(c) ==> v < 16 && HexDigits[v] == c
  {
    if c == '0' then 0 else if c == '1' then 1 else if c == '2' then 2
    else if c == '3' then 3 else if c == '4' then 4 else if c == '5' then 5
    else if c == '6' then 6 else if c == '7' then 7 else if c == '8' then 8
    else if c == '9' then 9 else if c == 'A' then 10 else if c == 'B' then 11
    else if c == 'C' then 12 else if c == 'D' then 13 else if c == 'E' then 14
    else if c == 'F' then 15 else 0
  }

  /** Reads a hex string back into bytes, two digits at a time. */
  function Unhex(s: string): seq<byte>
    decreases |s|
  {
    if |s| < 2 then []
    else [((16 * DigitValue(s[0]) + DigitValue(s[1])) % 256) as byte] + Unhex(s[2..])
  }

  lemma DigitValueOfIndex(n: nat)
    requires n < 16
    ensures DigitValue(HexDigits[n]) == n
  {
  }

  /** Decoding the hex form gives the digest back, so distinct digests have
      distinct hex forms. */
  lemma {:induction false} UnhexHex(d: seq<byte>)
    ensures Unhex(Hex(d)) == d
  {
    if d != [] {
      var b := d[0];
      DigitValueOfIndex(b as int / 16);
      DigitValueOfIndex(b as int % 16);
      var p, t := HexPair(b), Hex(d[1..]);
      assert Hex(d) == p + t;
      assert (p + t)[0] == p[0] && (p + t)[1] == p[1] && (p + t)[2..] == t;
      UnhexHex(d[1..]);
    }
  }

  /** With a SHA-1-shaped digest the hash string is 40 hex digits. */
  lemma Sha1HashLength(sha1: seq<byte> -> seq<byte>, input: seq<byte>)
    requires TwentyByteDigests(sha1)
    ensures |CreateHash(sha1, input)| == 40
  {
  }

  /** The hash string determines the digest: equal hashes mean equal digests. */
  lemma HashDeterminesDigest(sha1: seq<byte> -> seq<byte>, a: seq<byte>, b: seq<byte>)
    ensures CreateHash(sha1, a) == CreateHash(sha1, b) <==> sha1(a) == sha1(b)
  {
    UnhexHex(sha1(a));
    UnhexHex(sha1(b));
  }
}
