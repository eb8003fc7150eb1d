/// `std::path::Path::extension` on Unix-style paths, the only part of
/// path handling the detectors and engines use.
module Paths {
  import opened Base

  /// `str::split(sep)`: always at least one piece.
  function Split(s: string, sep: char): (parts: seq<string>)
    ensures |parts| >= 1
  {
    if |s| == 0 then [""]
    else if s[0] == sep then [""] + Split(s[1..], sep)
    else
      var rest := Split(s[1..], sep);
      [[s[0]] + rest[0]] + rest[1..]
  }

  /// The normal components of a path: empty pieces (repeated or trailing
  /// separators) and `.` pieces are not components.
  function Components(path: string): seq<string>
  {
    Filter(Split(path, '/'))
  }

  function Filter(parts: seq<string>): (r: seq<string>)
    ensures forall i :: 0 <= i < |r| ==> r[i] != "" && r[i] != "."
  {
    if |parts| == 0 then []
    else if parts[0] == "" || parts[0] == "." then Filter(parts[1..])
    else [parts[0]] + Filter(parts[1..])
  }

  /// `Path::file_name`: the last component, unless it is `..` or there is none.
  function FileName(path: string): (r: Option<string>)
    ensures r.Some? ==> r.value != "" && r.value != "." && r.value != ".."
  {
    var cs := Components(path);
    if |cs| == 0 || cs[|cs| - 1] == ".." then None else Some(cs[|cs| - 1])
  }

  /// Index of the last occurrence of `c` in `s`.
  function LastIndexOf(s: string, c: char): (r: Option<nat>)
    ensures r.Some? ==> r.value < |s| && s[r.value] == c
                        && forall j :: r.value < j < |s| ==> s[j] != c
    ensures r.None? ==> forall j :: 0 <= j < |s| ==> s[j] != c
  {
    if |s| == 0 then None
    else if s[|s| - 1] == c then Some(|s| - 1)
    else LastIndexOf(s[..|s| - 1], c)
  }

  /// The extension of a file name: the text after its last dot, provided
  /// that dot is not the name's first character.
  function NameExtension(name: string): (r: Option<string>)
    ensures r.Some? ==> '.' !in r.value
    ensures r.Some? ==> forall c :: c in r.value ==> c in name
  {
    match LastIndexOf(name, '.')
    case None => None
    case Some(i) =>
      if i == 0 then None
      else
        var ext := name[i + 1..];
        assert forall j :: 0 <= j < |ext| ==> ext[j] == name[i + 1 + j];
        Some(ext)
  }

  /// `Path::extension`.
  function Extension(path: string): (r: Option<string>)
    ensures r.Some? ==> '.' !in r.value && '/' !in r.value
  {
    NoSeparatorInComponents(path);
    match FileName(path)
    case None => None
    case Some(name) => NameExtension(name)
  }

  lemma {:induction false} SplitHasNoSeparator(s: string, sep: char)
    ensures forall k :: 0 <= k < |Split(s, sep)| ==> sep !in Split(s, sep)[k]
  {
    if |s| > 0 {
      SplitHasNoSeparator(s[1..], sep);
    }
  }

  lemma {:induction false} FilterKeeps(parts: seq<string>, sep: char)
    requires forall k :: 0 <= k < |parts| ==> sep !in parts[k]
    ensures forall k :: 0 <= k < |Filter(parts)| ==> sep !in Filter(parts)[k]
  {
    if |parts| > 0 {
      FilterKeeps(parts[1..], sep);
    }
  }

  lemma NoSeparatorInComponents(path: string)
    ensures FileName(path).Some? ==> '/' !in FileName(path).value
  {
    SplitHasNoSeparator(path, '/');
    FilterKeeps(Split(path, '/'), '/');
  }
}
