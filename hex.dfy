/** Hex text of a digest: `hashlib` `hexdigest()` (lower-case digits) followed
    by `str.upper()`, together with a decoder that reads such text back. */
module Hex {
  import opened Wrappers

  type byte = x: int | 0 <= x < 256

  const LowerDigits: string := "0123456789abcdef"
  const UpperDigits: string := "0123456789ABCDEF"

  /** `hexdigest()`: two lower-case digits per byte, high nibble first. */
  function Hexlify(bs: seq<byte>): (r: string)
    ensures |r| == 2 * |bs|
  {
    if bs == [] then []
    else [LowerDigits[bs[0] / 16], LowerDigits[bs[0] % 16]] + Hexlify(bs[1..])
  }

  /** `str.upper()` on one character; only ASCII letters are mapped, which is
      all that hex text can contain. */
  function UpperChar(c: char): char
  {
    if 'a' <= c <= 'z' then (c as int - 32) as char else c
  }

  /** `str.upper()` keeps the length. */
  function Upper(s: string): (r: string)
    ensures |r| == |s|
  {
    seq(|s|, i requires 0 <= i < |s| => UpperChar(s[i]))
  }

  /** Upper-casing keeps the value of every character read as a hex digit:
      `a-f` become `A-F`, and no other character changes from digit to
      non-digit or back. */
  lemma UpperKeepsDigits(s: string)
    ensures forall i :: 0 <= i < |s| ==> DigitValue(Upper(s)[i]) == DigitValue(s[i])
  {
    forall i | 0 <= i < |s| ensures DigitValue(Upper(s)[i]) == DigitValue(s[i]) {
      var c := s[i];
      if 'a' <= c <= 'z' {
        assert Upper(s)[i] == (c as int - 32) as char;
      }
    }
  }

  /** Every character is one of `0-9A-F`. */
  predicate IsUpperHex(s: string)
  {
    forall i :: 0 <= i < |s| ==> s[i] in UpperDigits
  }

  /** Value of one hex digit of either case. */
  function DigitValue(c: char): Option<nat>
  {
    if '0' <= c <= '9' then Some(c as int - '0' as int)
    else if 'a' <= c <= 'f' then Some(c as int - 'a' as int + 10)
    else if 'A' <= c <= 'F' then Some(c as int - 'A' as int + 10)
    else None
  }

  /** Reads hex text of even length back into bytes (the inverse of `Hexlify`). */
  function Unhexlify(s: string): Option<seq<byte>>
    decreases |s|
  {
    if s == [] then Some([])
    else if |s| == 1 then None
    else match (DigitValue(s[0]), DigitValue(s[1]), Unhexlify(s[2..]))
      case (Some(hi), Some(lo), Some(rest)) =>
        if hi < 16 && lo < 16 then Some([hi * 16 + lo] + rest) else None
      case _ => None
  }

  /** Upper-casing a hex digit gives the digit of the same value in `0-9A-F`. */
  lemma UpperDigit(n: nat)
    requires n < 16
    ensures UpperChar(LowerDigits[n]) == UpperDigits[n]
    ensures DigitValue(UpperDigits[n]) == Some(n)
    ensures DigitValue(LowerDigits[n]) == Some(n)
  {
  }

  /** A byte is its high nibble times 16 plus its low nibble. */
  lemma Nibbles(b: byte)
    ensures b / 16 < 16 && b / 16 * 16 + b % 16 == b
  {
  }

  /** Byte `i` of the input is spelled by digits `2 * i` and `2 * i + 1`. */
  lemma {:induction false} HexlifyAt(bs: seq<byte>, i: nat)
    requires i < |bs|
    ensures Hexlify(bs)[2 * i] == LowerDigits[bs[i] / 16]
    ensures Hexlify(bs)[2 * i + 1] == LowerDigits[bs[i] % 16]
  {
    if i > 0 {
      HexlifyAt(bs[1..], i - 1);
    }
  }

  /** Upper-casing works character by character, so it distributes over `+`. */
  lemma UpperAppend(a: string, b: string)
    ensures Upper(a + b) == Upper(a) + Upper(b)
  {
  }

  /** Upper-cased hex text is twice as long as the bytes and uses only `0-9A-F`. */
  lemma {:induction false} UpperHexlifyAlphabet(bs: seq<byte>)
    ensures |Upper(Hexlify(bs))| == 2 * |bs|
    ensures IsUpperHex(Upper(Hexlify(bs)))
  {
    if bs != [] {
      UpperHexlifyAlphabet(bs[1..]);
      UpperDigit(bs[0] / 16);
      UpperDigit(bs[0] % 16);
      UpperAppend([LowerDigits[bs[0] / 16], LowerDigits[bs[0] % 16]], Hexlify(bs[1..]));
    }
  }

  /** Decoding a text that starts with two digits reads their byte first. */
  lemma UnhexlifyPair(hi: nat, lo: nat, t: string, rest: seq<byte>)
    requires hi < 16 && lo < 16
    requires Unhexlify(t) == Some(rest)
    ensures Unhexlify([UpperDigits[hi], UpperDigits[lo]] + t) == Some([hi * 16 + lo] + rest)
  {
    var s := [UpperDigits[hi], UpperDigits[lo]] + t;
    UpperDigit(hi);
    UpperDigit(lo);
    assert s[2..] == t;
  }

  /** Upper-cased hex text of a non-empty byte string: the first byte's two
      digits, then the text of the rest. */
  lemma UpperHexlifyCons(bs: seq<byte>)
    requires bs != []
    ensures Upper(Hexlify(bs)) == [UpperDigits[bs[0] / 16], UpperDigits[bs[0] % 16]] + Upper(Hexlify(bs[1..]))
  {
    UpperAppend([LowerDigits[bs[0] / 16], LowerDigits[bs[0] % 16]], Hexlify(bs[1..]));
    UpperDigit(bs[0] / 16);
    UpperDigit(bs[0] % 16);
  }

  /** Decoding the upper-cased hex text of any bytes gives the bytes back. */
  lemma {:induction false} UpperHexlifyRoundTrip(bs: seq<byte>)
    ensures Unhexlify(Upper(Hexlify(bs))) == Some(bs)
  {
    if bs != [] {
      UpperHexlifyCons(bs);
      UpperHexlifyRoundTrip(bs[1..]);
      var b := bs[0];
      Nibbles(b);
      UnhexlifyPair(b / 16, b % 16, Upper(Hexlify(bs[1..])), bs[1..]);
      assert [b / 16 * 16 + b % 16] == [b];
      assert [b] + bs[1..] == bs;
    }
  }

  /** The first `2 * k` digits of the text are the text of the first `k` bytes. */
  lemma {:induction false} HexlifyPrefix(bs: seq<byte>, k: nat)
    requires k <= |bs|
    ensures Hexlify(bs)[..2 * k] == Hexlify(bs[..k])
  {
    if k > 0 {
      HexlifyPrefix(bs[1..], k - 1);
      assert bs[..k] == [bs[0]] + bs[1..][..k - 1];
    }
  }

  /** The first `2 * k + 1` upper-cased digits: the text of the first `k` bytes
      followed by the high digit of byte `k`. */
  lemma UpperHexlifyOddPrefix(bs: seq<byte>, k: nat)
    requires k < |bs|
    ensures var r := Upper(Hexlify(bs)[..2 * k + 1]);
              && |r| == 2 * k + 1
              && IsUpperHex(r)
              && r == Upper(Hexlify(bs))[..2 * k + 1]
              && Unhexlify(r[..2 * k]) == Some(bs[..k])
              && r[2 * k] == UpperDigits[bs[k] / 16]
  {
    var h := Hexlify(bs);
    var r := Upper(h[..2 * k + 1]);
    UpperHexlifyAlphabet(bs);
    HexlifyPrefix(bs, k);
    UpperHexlifyRoundTrip(bs[..k]);
    HexlifyAt(bs, k);
    UpperDigit(bs[k] / 16);
    assert r[..2 * k] == Upper(h[..2 * k]);
    assert r == Upper(h)[..2 * k + 1];
  }
}
