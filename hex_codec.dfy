/** The hexadecimal text <-> byte conversions of the tool:
    `hex::encode` of a single byte (two lower-case digits), `bytes_to_hex`
    (two upper-case digits per byte, used for the log lines) and
    `convert_str_hex` (chunks of two characters parsed with
    `u8::from_str_radix(_, 16)`, each failure being an `unwrap` panic). */
module HexCodec {
  import opened Wrappers

  type byte = x: int | 0 <= x < 256

  predicate IsLowerHexDigit(c: char) {
    '0' <= c <= '9' || 'a' <= c <= 'f'
  }

  /** The digits `char::to_digit(16)` accepts: either case. */
  predicate IsHexDigit(c: char) {
    '0' <= c <= '9' || 'a' <= c <= 'f' || 'A' <= c <= 'F'
  }

  /** The digits `{:X}` writes: no lower-case letter. */
  predicate IsUpperHexDigit(c: char) {
    '0' <= c <= '9' || 'A' <= c <= 'F'
  }

  /** Value of a hexadecimal digit of either case. */
  function DigitValue(c: char): (v: nat)
    requires IsHexDigit(c)
    ensures v < 16
  {
    if '0' <= c <= '9' then c as int - '0' as int
    else if 'a' <= c <= 'f' then c as int - 'a' as int + 10
    else c as int - 'A' as int + 10
  }

  function LowerDigit(n: nat): (c: char)
    requires n < 16
    ensures IsLowerHexDigit(c) && DigitValue(c) == n
  {
    if n < 10 then ('0' as int + n) as char else ('a' as int + n - 10) as char
  }

  function UpperDigit(n: nat): (c: char)
    requires n < 16
    ensures IsHexDigit(c) && !('a' <= c <= 'f') && DigitValue(c) == n
  {
    if n < 10 then ('0' as int + n) as char else ('A' as int + n - 10) as char
  }

  /** `hex::encode([b])`: two lower-case digits, most significant nibble first. */
  function HexByte(b: byte): (s: string)
    ensures |s| == 2 && IsLowerHexDigit(s[0]) && IsLowerHexDigit(s[1])
    ensures 16 * DigitValue(s[0]) + DigitValue(s[1]) == b
  {
    [LowerDigit(b / 16), LowerDigit(b % 16)]
  }

  /** `format!("{:02X}", b)`: two upper-case digits. */
  function UpperPair(b: byte): (s: string)
    ensures |s| == 2 && IsHexDigit(s[0]) && IsHexDigit(s[1])
    ensures IsUpperHexDigit(s[0]) && IsUpperHexDigit(s[1])
    ensures 16 * DigitValue(s[0]) + DigitValue(s[1]) == b
  {
    [UpperDigit(b / 16), UpperDigit(b % 16)]
  }

  /** `bytes_to_hex`: the concatenation of the upper-case pairs. */
  function BytesToHex(data: seq<byte>): (s: string)
    ensures |s| == 2 * |data|
    ensures forall k | 0 <= k < |s| :: IsHexDigit(s[k])
    ensures forall k | 0 <= k < |s| :: IsUpperHexDigit(s[k])
  {
    if |data| == 0 then "" else UpperPair(data[0]) + BytesToHex(data[1..])
  }

  /** `u8::from_str_radix(chunk, 16)` on a chunk of one or two characters:
      a lone sign is rejected, a leading `+` is skipped, `-` is an invalid
      digit for an unsigned type, and every remaining character must be a
      hexadecimal digit of either case. Two digits always fit in a `u8`. */
  function ParseChunk(chunk: string): (r: Option<byte>)
    requires 1 <= |chunk| <= 2
    ensures r.Some? <==>
      (|chunk| == 2 && chunk[0] == '+' && IsHexDigit(chunk[1])) ||
      (forall k | 0 <= k < |chunk| :: IsHexDigit(chunk[k]))
  {
    var digits := if |chunk| == 2 && chunk[0] == '+' then chunk[1..] else chunk;
    if !(forall k | 0 <= k < |digits| :: IsHexDigit(digits[k])) then None
    else if |digits| == 1 then Some(DigitValue(digits[0]))
    else Some(16 * DigitValue(digits[0]) + DigitValue(digits[1]))
  }

  /** `convert_str_hex`: split the text into chunks of two characters (the
      last one shorter when the length is odd) and parse each; the first
      chunk that does not parse makes the `unwrap` panic, modelled as None. */
  function ConvertStrHex(hex: string): (r: Option<seq<byte>>)
    ensures r.Some? ==> |r.value| == (|hex| + 1) / 2
    decreases |hex|
  {
    if |hex| == 0 then Some([])
    else
      var n := if |hex| >= 2 then 2 else 1;
      match ParseChunk(hex[..n])
      case None => None
      case Some(b) =>
        match ConvertStrHex(hex[n..])
        case None => None
        case Some(rest) => Some([b] + rest)
  }

  /** Converting text whose first part has an even length converts each
      part on its own and concatenates the bytes; it fails exactly when
      one of the parts fails. */
  lemma {:induction false} ConvertConcat(a: string, b: string)
    requires |a| % 2 == 0
    ensures ConvertStrHex(a + b) ==
              if ConvertStrHex(a).Some? && ConvertStrHex(b).Some?
              then Some(ConvertStrHex(a).value + ConvertStrHex(b).value) else None
    decreases |a|
  {
    if |a| == 0 {
      assert a + b == b;
      assert ConvertStrHex(a) == Some([]);
      if ConvertStrHex(b).Some? {
        assert [] + ConvertStrHex(b).value == ConvertStrHex(b).value;
      }
    } else {
      assert (a + b)[..2] == a[..2];
      assert (a + b)[2..] == a[2..] + b;
      ConvertConcat(a[2..], b);
      var head := ParseChunk(a[..2]);
      var tail := ConvertStrHex(a[2..]);
      if head.Some? && tail.Some? && ConvertStrHex(b).Some? {
        assert ConvertStrHex(a) == Some([head.value] + tail.value);
        assert [head.value] + (tail.value + ConvertStrHex(b).value) ==
               ([head.value] + tail.value) + ConvertStrHex(b).value;
      }
    }
  }

  /** An even-length text of 2n hexadecimal digits converts to n bytes, each
      built from two consecutive digits, the high nibble first. */
  lemma {:induction false} ConvertDigits(hex: string)
    requires |hex| % 2 == 0
    requires forall k | 0 <= k < |hex| :: IsHexDigit(hex[k])
    ensures ConvertStrHex(hex).Some?
    ensures |ConvertStrHex(hex).value| == |hex| / 2
    ensures forall i | 0 <= i < |hex| / 2 ::
      ConvertStrHex(hex).value[i] == 16 * DigitValue(hex[2 * i]) + DigitValue(hex[2 * i + 1])
    decreases |hex|
  {
    if |hex| > 0 {
      ConvertDigits(hex[2..]);
      var rest := ConvertStrHex(hex[2..]).value;
      assert ParseChunk(hex[..2]) == Some(16 * DigitValue(hex[0]) + DigitValue(hex[1]));
      forall i | 1 <= i < |hex| / 2
        ensures ConvertStrHex(hex).value[i] == 16 * DigitValue(hex[2 * i]) + DigitValue(hex[2 * i + 1])
      {
        assert hex[2..][2 * (i - 1)] == hex[2 * i];
        assert hex[2..][2 * (i - 1) + 1] == hex[2 * i + 1];
      }
    }
  }

  /** Round trip: parsing the upper-case text of a byte string gives the
      byte string back. */
  lemma {:induction false} ConvertBytesToHex(data: seq<byte>)
    ensures ConvertStrHex(BytesToHex(data)) == Some(data)
  {
    if |data| > 0 {
      var s := BytesToHex(data);
      ConvertBytesToHex(data[1..]);
      assert s[..2] == UpperPair(data[0]);
      assert s[2..] == BytesToHex(data[1..]);
      assert ParseChunk(s[..2]) == Some(data[0]);
      assert [data[0]] + data[1..] == data;
    }
  }
}
