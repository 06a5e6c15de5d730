/**
 * Leaf spellings: the hex forms a client may submit, and the canonical form
 * stored in pending records. A `char` stands for one byte of the text.
 */
module Merkle {
  import opened Base

  datatype HexError = OddLength | InvalidHexCharacter(c: char)

  /** Why a leaf of a pending record cannot be read. */
  datatype StoredLeafError = LeafHex(error: HexError) | BadHash(length: nat)

  datatype LeafParseError = BadLength(length: nat) | BadHex(error: HexError)

  function HexDigit(n: nat): char
    requires n < 16
  {
    "0123456789abcdef"[n]
  }

  function HexValue(c: char): Option<nat> {
    if '0' <= c <= '9' then Some(c as nat - '0' as nat)
    else if 'a' <= c <= 'f' then Some(c as nat - 'a' as nat + 10)
    else if 'A' <= c <= 'F' then Some(c as nat - 'A' as nat + 10)
    else None
  }

  /** `hex::encode`. */
  function HexEncode(bytes: seq<Byte>): string {
    if bytes == [] then "" else
      var b := bytes[0] as nat;
      [HexDigit(b / 16), HexDigit(b % 16)] + HexEncode(bytes[1..])
  }

  function DecodePairs(text: string): Result<seq<Byte>, HexError>
    requires |text| % 2 == 0
  {
    if text == "" then Ok([]) else
      match (HexValue(text[0]), HexValue(text[1]))
      case (None, _) => Err(InvalidHexCharacter(text[0]))
      case (_, None) => Err(InvalidHexCharacter(text[1]))
      case (Some(hi), Some(lo)) =>
        match DecodePairs(text[2..])
        case Err(e) => Err(e)
        case Ok(rest) => Ok([PairValue(text[0], text[1])] + rest)
  }

  function PairValue(hi: char, lo: char): Byte
    requires HexValue(hi).Some? && HexValue(lo).Some?
  {
    HexValueBound(hi);
    HexValueBound(lo);
    (HexValue(hi).value * 16 + HexValue(lo).value) as Byte
  }

  lemma HexValueBound(c: char)
    ensures HexValue(c).Some? ==> HexValue(c).value < 16
  {
  }

  /** `hex::decode`. */
  function HexDecode(text: string): Result<seq<Byte>, HexError> {
    if |text| % 2 == 1 then Err(OddLength) else DecodePairs(text)
  }

  /** `strip_prefix`, falling back to the whole text. */
  function Strip0x(text: string): string {
    if "0x" <= text then text[2..] else text
  }

  /** `trim_start_matches("0x")`: every leading `0x`. */
  function TrimAll0x(text: string): string {
    if "0x" <= text then TrimAll0x(text[2..]) else text
  }

  const MULTIHASH_PREFIX: string := "1620"

  function ParseLeafHex(input: string): Result<Hash32, LeafParseError> {
    var trimmed := Strip0x(input);
    var digest := if |trimmed| == 68 && trimmed[..4] == MULTIHASH_PREFIX then trimmed[4..] else trimmed;
    if |digest| != 64 then Err(BadLength(|trimmed|)) else
      match HexDecode(digest)
      case Err(e) => Err(BadHex(e))
      case Ok(bytes) =>
        DecodedLength(digest);
        Ok(bytes)
  }

  function HexLower(h: Hash32): string {
    "0x" + HexEncode(h)
  }

  /** How a pending record's leaf text is read back (`PendingEpoch::leaf_hashes`). */
  function DecodeStoredLeaf(text: string): Result<Hash32, StoredLeafError> {
    match HexDecode(TrimAll0x(text))
    case Err(e) => Err(LeafHex(e))
    case Ok(bytes) => if |bytes| == 32 then Ok(bytes) else Err(BadHash(|bytes|))
  }

  // ---- Properties ----

  lemma {:induction false} DecodedLength(text: string)
    requires |text| % 2 == 0
    ensures DecodePairs(text).Ok? ==> |DecodePairs(text).value| == |text| / 2
  {
    if text != "" {
      DecodedLength(text[2..]);
    }
  }

  lemma {:induction false} EncodedLength(bytes: seq<Byte>)
    ensures |HexEncode(bytes)| == 2 * |bytes|
  {
    if bytes != [] {
      EncodedLength(bytes[1..]);
    }
  }

  function LowerChar(c: char): char {
    if 'A' <= c <= 'Z' then (c as int - 'A' as int + 'a' as int) as char else c
  }

  function Lower(text: string): (low: string)
    ensures |low| == |text|
  {
    if text == "" then "" else [LowerChar(text[0])] + Lower(text[1..])
  }

  lemma DigitOfValue(c: char)
    ensures HexValue(c).Some? ==> HexValue(c).value < 16 && LowerChar(c) == HexDigit(HexValue(c).value)
  {
  }

  lemma ValueOfDigit(c: char, n: nat)
    requires n < 16 && LowerChar(c) == HexDigit(n)
    ensures HexValue(c) == Some(n)
  {
  }

  lemma PairEncodes(hi: char, lo: char, b: Byte)
    ensures
      HexValue(hi).Some? && HexValue(lo).Some? && PairValue(hi, lo) == b
      <==> LowerChar(hi) == HexDigit(b as nat / 16) && LowerChar(lo) == HexDigit(b as nat % 16)
  {
    if HexValue(hi).Some? && HexValue(lo).Some? && PairValue(hi, lo) == b {
      DigitOfValue(hi);
      DigitOfValue(lo);
      var h, l := HexValue(hi).value, HexValue(lo).value;
      assert b as nat == h * 16 + l;
      assert b as nat / 16 == h && b as nat % 16 == l;
    }
    if LowerChar(hi) == HexDigit(b as nat / 16) && LowerChar(lo) == HexDigit(b as nat % 16) {
      ValueOfDigit(hi, b as nat / 16);
      ValueOfDigit(lo, b as nat % 16);
    }
  }

  /** Decoding is the inverse of encoding, up to letter case, in both directions. */
  lemma {:induction false} DecodeInvertsEncode(text: string, bytes: seq<Byte>)
    requires |text| % 2 == 0
    ensures DecodePairs(text) == Ok(bytes) <==> Lower(text) == HexEncode(bytes)
  {
    EncodedLength(bytes);
    DecodedLength(text);
    if text == "" || bytes == [] {
      assert text == "" <==> Lower(text) == "";
    } else {
      var rest := text[2..];
      DecodeInvertsEncode(rest, bytes[1..]);
      PairEncodes(text[0], text[1], bytes[0]);
      LowerTwo(text);
      var e := HexEncode(bytes);
      var digits := [HexDigit(bytes[0] as nat / 16), HexDigit(bytes[0] as nat % 16)];
      assert e[..2] == digits && e[2..] == HexEncode(bytes[1..]);
      if DecodePairs(text) == Ok(bytes) {
        var r := DecodePairs(rest);
        assert r.Ok? && bytes == [PairValue(text[0], text[1])] + r.value;
        assert bytes[1..] == r.value;
      }
      if Lower(text) == e {
        assert Lower(text)[..2] == digits;
        assert Lower(text)[2..] == HexEncode(bytes[1..]);
        assert bytes == [bytes[0]] + bytes[1..];
      }
    }
  }

  lemma {:induction false} LowerTwo(text: string)
    requires |text| >= 2
    ensures Lower(text)[..2] == [LowerChar(text[0]), LowerChar(text[1])]
    ensures Lower(text)[2..] == Lower(text[2..])
    ensures Lower(text) == [LowerChar(text[0]), LowerChar(text[1])] + Lower(text[2..])
  {
  }

  lemma {:induction false} LowerSlice(text: string, k: nat)
    requires k <= |text|
    ensures Lower(text)[k..] == Lower(text[k..])
    ensures Lower(text)[..k] == Lower(text[..k])
  {
    if k > 0 {
      LowerSlice(text[1..], k - 1);
      assert text[1..][k - 1..] == text[k..];
      assert text[..k][1..] == text[1..][..k - 1];
    }
  }

  lemma LowerPrefix(text: string)
    requires |text| == 4
    ensures Lower(text) == MULTIHASH_PREFIX <==> text == MULTIHASH_PREFIX
  {
    LowerTwo(text);
    LowerTwo(text[2..]);
    assert text == [text[0], text[1], text[2], text[3]];
    assert Lower(text) == [LowerChar(text[0]), LowerChar(text[1]), LowerChar(text[2]), LowerChar(text[3])];
  }

  /**
   * The accepted spellings of a leaf, exactly: after an optional `0x`, the bare
   * digest or the digest behind the SHA3-256 multihash prefix, in any letter
   * case. The two never clash: the length tells them apart.
   */
  lemma {:induction false} ParseAcceptsExactlyTheSpellings(input: string, h: Hash32)
    ensures
      ParseLeafHex(input) == Ok(h) <==>
      var text := Lower(Strip0x(input));
      text == HexEncode(h) || text == MULTIHASH_PREFIX + HexEncode(h)
  {
    var trimmed := Strip0x(input);
    var text := Lower(trimmed);
    EncodedLength(h);
    if |trimmed| == 68 {
      LowerSlice(trimmed, 4);
      LowerPrefix(trimmed[..4]);
      DecodeInvertsEncode(trimmed[4..], h);
      assert text == text[..4] + text[4..];
      assert (MULTIHASH_PREFIX + HexEncode(h))[..4] == MULTIHASH_PREFIX;
      assert (MULTIHASH_PREFIX + HexEncode(h))[4..] == HexEncode(h);
    } else if |trimmed| == 64 {
      DecodeInvertsEncode(trimmed, h);
    }
  }

  lemma {:induction false} EncodedIsLower(bytes: seq<Byte>)
    ensures Lower(HexEncode(bytes)) == HexEncode(bytes)
    ensures bytes != [] ==> !("0x" <= HexEncode(bytes))
  {
    if bytes != [] {
      var b := bytes[0] as nat;
      var digits := [HexDigit(b / 16), HexDigit(b % 16)];
      EncodedIsLower(bytes[1..]);
      LowerTwo(HexEncode(bytes));
      assert HexEncode(bytes)[2..] == HexEncode(bytes[1..]);
      assert LowerChar(digits[0]) == digits[0] && LowerChar(digits[1]) == digits[1];
      assert digits[1] != 'x';
    }
  }

  // ---- The spellings, character by character ----

  const LOWER_DIGITS: string := "0123456789abcdef"
  const UPPER_DIGITS: string := "0123456789ABCDEF"

  ghost predicate IsDigit(c: char, n: nat) {
    n < 16 && (c == LOWER_DIGITS[n] || c == UPPER_DIGITS[n])
  }

  /** Byte `i` in hex, the high half first, in either letter case. */
  ghost predicate PairIs(text: string, h: Hash32, i: nat)
    requires |text| == 64 && i < 32
  {
    IsDigit(text[2 * i], h[i] as nat / 16) && IsDigit(text[2 * i + 1], h[i] as nat % 16)
  }

  /** `text` is the 64 hex digits of `h`, two for each byte. */
  ghost predicate Digits(text: string, h: Hash32) {
    |text| == 64 && forall i :: 0 <= i < 32 ==> PairIs(text, h, i)
  }

  /** The accepted spellings: the digits, with the multihash prefix or not, with `0x` or not. */
  ghost predicate IsSpelling(input: string, h: Hash32) {
    || Digits(input, h)
    || ("1620" <= input && Digits(input[4..], h))
    || ("0x" <= input && Digits(input[2..], h))
    || ("0x1620" <= input && Digits(input[6..], h))
  }

  lemma {:induction false} EncodedAt(bytes: seq<Byte>, i: nat)
    requires i < |bytes|
    ensures |HexEncode(bytes)| == 2 * |bytes|
    ensures HexEncode(bytes)[2 * i] == LOWER_DIGITS[bytes[i] as nat / 16]
    ensures HexEncode(bytes)[2 * i + 1] == LOWER_DIGITS[bytes[i] as nat % 16]
  {
    EncodedLength(bytes);
    if i > 0 {
      EncodedAt(bytes[1..], i - 1);
      assert HexEncode(bytes)[2..] == HexEncode(bytes[1..]);
    }
  }

  lemma {:induction false} LowerAt(text: string, i: nat)
    requires i < |text|
    ensures Lower(text)[i] == LowerChar(text[i])
  {
    if i > 0 {
      LowerAt(text[1..], i - 1);
    }
  }

  lemma DigitCase(c: char, n: nat)
    requires n < 16
    ensures LowerChar(c) == LOWER_DIGITS[n] <==> IsDigit(c, n)
  {
  }

  lemma PairCase(text: string, h: Hash32, i: nat)
    requires |text| == 64 && i < 32
    ensures |HexEncode(h)| == 64
    ensures PairIs(text, h, i) <==>
      Lower(text)[2 * i] == HexEncode(h)[2 * i] && Lower(text)[2 * i + 1] == HexEncode(h)[2 * i + 1]
  {
    EncodedAt(h, i);
    LowerAt(text, 2 * i);
    LowerAt(text, 2 * i + 1);
    DigitCase(text[2 * i], h[i] as nat / 16);
    DigitCase(text[2 * i + 1], h[i] as nat % 16);
  }

  /** The lower-cased text is the encoding exactly when it is the digits. */
  lemma LowerIsDigits(text: string, h: Hash32)
    ensures Lower(text) == HexEncode(h) <==> Digits(text, h)
  {
    EncodedLength(h);
    if Digits(text, h) {
      forall k | 0 <= k < 64
        ensures Lower(text)[k] == HexEncode(h)[k]
      {
        var i := k / 2;
        assert PairIs(text, h, i);
        PairCase(text, h, i);
        assert k == 2 * i || k == 2 * i + 1;
      }
    }
    if Lower(text) == HexEncode(h) {
      forall i | 0 <= i < 32
        ensures PairIs(text, h, i)
      {
        PairCase(text, h, i);
      }
    }
  }

  lemma PrefixedIsDigits(text: string, h: Hash32)
    ensures Lower(text) == MULTIHASH_PREFIX + HexEncode(h) <==> "1620" <= text && Digits(text[4..], h)
  {
    EncodedLength(h);
    if |text| == 68 {
      LowerSlice(text, 4);
      LowerPrefix(text[..4]);
      LowerIsDigits(text[4..], h);
      assert Lower(text) == Lower(text)[..4] + Lower(text)[4..];
      assert (MULTIHASH_PREFIX + HexEncode(h))[..4] == MULTIHASH_PREFIX;
      assert (MULTIHASH_PREFIX + HexEncode(h))[4..] == HexEncode(h);
    }
  }

  /** A text with `0x` in front is neither of the bare spellings. */
  lemma PrefixIsNoDigit(input: string, h: Hash32)
    requires "0x" <= input
    ensures !Digits(input, h) && !("1620" <= input)
  {
    assert input[0] == '0' && input[1] == 'x';
    assert |input| == 64 ==> !PairIs(input, h, 0);
  }

  /** A leaf parses exactly from its spellings. */
  lemma ParsesExactlySpellings(input: string, h: Hash32)
    ensures ParseLeafHex(input) == Ok(h) <==> IsSpelling(input, h)
  {
    ParseAcceptsExactlyTheSpellings(input, h);
    LowerIsDigits(Strip0x(input), h);
    PrefixedIsDigits(Strip0x(input), h);
    if "0x" <= input {
      PrefixIsNoDigit(input, h);
      assert "0x1620" <= input <==> "1620" <= input[2..];
      assert "0x1620" <= input ==> input[2..][4..] == input[6..];
    }
  }

  /** A refusal for its length: the characters after `0x` are neither 64 nor, after the multihash prefix, 4 and 64. */
  lemma BadLengthIs(input: string, n: nat)
    ensures ParseLeafHex(input) == Err(BadLength(n)) <==>
      && |input| == (if "0x" <= input then n + 2 else n) && n != 64
      && !(n == 68 && ("1620" <= input || "0x1620" <= input))
  {
    var trimmed := Strip0x(input);
    assert |trimmed| == 68 ==> (trimmed[..4] == MULTIHASH_PREFIX <==> "1620" <= trimmed);
    if "0x" <= input {
      assert "0x1620" <= input <==> "1620" <= trimmed;
      assert input[1] == 'x' && "1620"[1] == '6';
    }
  }

  /** The canonical form is `0x` and the 64 lower-case digits. */
  lemma CanonicalIs(h: Hash32)
    ensures |HexLower(h)| == 66 && HexLower(h)[0] == '0' && HexLower(h)[1] == 'x'
    ensures forall i :: 0 <= i < 32 ==>
      && HexLower(h)[2 + 2 * i] == LOWER_DIGITS[h[i] as nat / 16]
      && HexLower(h)[3 + 2 * i] == LOWER_DIGITS[h[i] as nat % 16]
  {
    EncodedLength(h);
    forall i | 0 <= i < 32
      ensures HexEncode(h)[2 * i] == LOWER_DIGITS[h[i] as nat / 16]
      ensures HexEncode(h)[2 * i + 1] == LOWER_DIGITS[h[i] as nat % 16]
    {
      EncodedAt(h, i);
    }
  }

  /** The canonical form reads back, by the submission parser and from a pending record. */
  lemma {:induction false} CanonicalRoundTrip(h: Hash32)
    ensures ParseLeafHex(HexLower(h)) == Ok(h)
    ensures DecodeStoredLeaf(HexLower(h)) == Ok(h)
  {
    EncodedIsLower(h);
    EncodedLength(h);
    assert HexLower(h)[2..] == HexEncode(h);
    ParseAcceptsExactlyTheSpellings(HexLower(h), h);
    DecodeInvertsEncode(HexEncode(h), h);
    assert TrimAll0x(HexLower(h)) == TrimAll0x(HexEncode(h)) == HexEncode(h);
  }
}
