/// Shared vocabulary: bytes, optional values, and the string helpers the
/// Rust code gets from `std` (decimal formatting, `{:?}` of a `Vec<usize>`,
/// ASCII lower-casing, substring search).
module Base {

  /// An octet, as in `u8`.
  type byte = b: int | 0 <= b < 256

  datatype Option<T> = None | Some(value: T)
  {
    function GetOr(default: T): T
    {
      if Some? then value else default
    }
  }

  /// The decimal digit for `d`.
  function DigitChar(d: nat): char
    requires d < 10
  {
    ['0','1','2','3','4','5','6','7','8','9'][d]
  }

  /// Decimal rendering of a `usize`, as `{}` prints it.
  function NatToString(n: nat): (s: string)
    ensures |s| >= 1
    ensures forall i :: 0 <= i < |s| ==> '0' <= s[i] <= '9'
    ensures n < 10 <==> |s| == 1
  {
    if n < 10 then [DigitChar(n)] else NatToString(n / 10) + [DigitChar(n % 10)]
  }

  /// The value a string of decimal digits denotes.
  function DecimalValue(s: string): nat
    requires forall i :: 0 <= i < |s| ==> '0' <= s[i] <= '9'
  {
    if |s| == 0 then 0 else 10 * DecimalValue(s[..|s| - 1]) + (s[|s| - 1] as int - '0' as int)
  }

  /// Printing a number and reading it back gives the number again,
  /// so `NatToString` never maps two numbers to the same text.
  lemma {:induction false} DecimalRoundTrip(n: nat)
    ensures DecimalValue(NatToString(n)) == n
  {
    var s := NatToString(n);
    if n >= 10 {
      DecimalRoundTrip(n / 10);
      assert s[..|s| - 1] == NatToString(n / 10);
    }
  }

  /// `", "`-separated decimal rendering of a list of numbers.
  function JoinNats(xs: seq<nat>): string
  {
    if |xs| == 0 then ""
    else if |xs| == 1 then NatToString(xs[0])
    else NatToString(xs[0]) + ", " + JoinNats(xs[1..])
  }

  /// `{:?}` of a `Vec<usize>`, e.g. `[1, 2, 3]`.
  function ShapeDebug(xs: seq<nat>): (s: string)
    ensures |s| >= 2 && s[0] == '[' && s[|s| - 1] == ']'
  {
    "[" + JoinNats(xs) + "]"
  }

  /// ASCII lower-casing of one character; every other character is kept.
  function ToLowerChar(c: char): char
  {
    if 'A' <= c <= 'Z' then (c as int + 32) as char else c
  }

  function ToLower(s: string): (r: string)
    ensures |r| == |s|
    ensures forall i :: 0 <= i < |s| ==> r[i] == ToLowerChar(s[i])
  {
    if |s| == 0 then "" else [ToLowerChar(s[0])] + ToLower(s[1..])
  }

  /// `pat` occurs in `s` starting at index `i`.
  predicate OccursAt<T(==)>(s: seq<T>, pat: seq<T>, i: nat)
  {
    i + |pat| <= |s| && s[i..i + |pat|] == pat
  }

  /// Substring search, as `str::contains` with a string pattern.
  predicate Contains<T(==)>(s: seq<T>, pat: seq<T>)
  {
    exists i: nat | i <= |s| :: OccursAt(s, pat, i)
  }

  /// Searches left to right for `pat`; the partner of `Contains`.
  function FindFrom<T(==)>(s: seq<T>, pat: seq<T>, from: nat): (r: Option<nat>)
    decreases |s| - from
    ensures r.Some? ==> from <= r.value && OccursAt(s, pat, r.value)
    ensures r.None? ==> forall i: nat :: from <= i ==> !OccursAt(s, pat, i)
  {
    if from + |pat| > |s| then None
    else if s[from..from + |pat|] == pat then Some(from)
    else FindFrom(s, pat, from + 1)
  }

  lemma ContainsIffFound<T>(s: seq<T>, pat: seq<T>)
    ensures Contains(s, pat) <==> FindFrom(s, pat, 0).Some?
  {
    if FindFrom(s, pat, 0).Some? {
      assert OccursAt(s, pat, FindFrom(s, pat, 0).value);
    }
  }
}
