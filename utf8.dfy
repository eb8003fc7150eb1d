/// Well-formed UTF-8 byte sequences, as accepted by `std::str::from_utf8`
/// (RFC 3629, section 4: no overlong forms, no surrogates, nothing above
/// U+10FFFF).
module Utf8 {
  import opened Base

  predicate IsContinuation(b: byte)
  {
    0x80 <= b <= 0xBF
  }

  /// Length of the well-formed character encoded at the start of `bs`, or
  /// 0 if `bs` does not start with one.
  function CharLength(bs: seq<byte>): (n: nat)
    ensures n <= 4 && n <= |bs|
    ensures |bs| > 0 && bs[0] < 0x80 ==> n == 1
  {
    if |bs| == 0 then 0
    else
      var b0 := bs[0];
      if b0 < 0x80 then 1
      else if 0xC2 <= b0 <= 0xDF then
        if |bs| >= 2 && IsContinuation(bs[1]) then 2 else 0
      else if 0xE0 <= b0 <= 0xEF then
        var lo := if b0 == 0xE0 then 0xA0 else 0x80;
        var hi := if b0 == 0xED then 0x9F else 0xBF;
        if |bs| >= 3 && lo <= bs[1] <= hi && IsContinuation(bs[2]) then 3 else 0
      else if 0xF0 <= b0 <= 0xF4 then
        var lo := if b0 == 0xF0 then 0x90 else 0x80;
        var hi := if b0 == 0xF4 then 0x8F else 0xBF;
        if |bs| >= 4 && lo <= bs[1] <= hi && IsContinuation(bs[2]) && IsContinuation(bs[3]) then 4 else 0
      else 0
  }

  /// `str::from_utf8(bs).is_ok()`.
  predicate Valid(bs: seq<byte>)
    decreases |bs|
  {
    |bs| == 0 || (CharLength(bs) > 0 && Valid(bs[CharLength(bs)..]))
  }

  predicate IsAscii(bs: seq<byte>)
  {
    forall i :: 0 <= i < |bs| ==> bs[i] < 0x80
  }

  /// Plain ASCII is well-formed UTF-8.
  lemma {:induction false} AsciiIsValid(bs: seq<byte>)
    requires IsAscii(bs)
    ensures Valid(bs)
    decreases |bs|
  {
    if |bs| > 0 {
      assert CharLength(bs) == 1;
      assert IsAscii(bs[1..]) by {
        forall i | 0 <= i < |bs[1..]| ensures bs[1..][i] < 0x80 {
          assert bs[1..][i] == bs[i + 1];
        }
      }
      AsciiIsValid(bs[1..]);
    }
  }

  /// A continuation byte can never start a well-formed text.
  lemma ContinuationStartIsInvalid(bs: seq<byte>)
    requires |bs| > 0 && IsContinuation(bs[0])
    ensures !Valid(bs)
  {
  }

  /// The ASCII encoding of a string of ASCII characters.
  function AsciiBytes(s: string): (bs: seq<byte>)
    requires forall i :: 0 <= i < |s| ==> s[i] as int < 0x80
    ensures |bs| == |s| && IsAscii(bs)
    ensures forall i :: 0 <= i < |s| ==> bs[i] == s[i] as int
  {
    if |s| == 0 then [] else [s[0] as int as byte] + AsciiBytes(s[1..])
  }
}
