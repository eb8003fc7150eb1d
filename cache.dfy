/// The model cache of the API: where its directory is, which file holds
/// each key, and what looking up, saving and clearing do. The file
/// system is a value: a map from file paths to their contents and the set
/// of existing directories. Paths are Unix paths compared as text.
module Cache {
  import opened Base
  import opened Errors
  import Paths

  // ---------------------------------------------------------------------
  // Paths

  predicate IsAbsolute(p: string)
  {
    |p| > 0 && p[0] == '/'
  }

  /// `p` names something strictly inside the directory `dir`.
  predicate Under(p: string, dir: string)
  {
    |p| > |dir| && p[..|dir|] == dir && p[|dir|] == '/'
  }

  /// `PathBuf::join` on Unix: an absolute component replaces the path;
  /// a relative one is appended after a separator, which is left out when
  /// the path is empty or already ends in one.
  function Join(base: string, c: string): (r: string)
    ensures IsAbsolute(c) ==> r == c
    ensures !IsAbsolute(c) && |base| > 0 && base[|base| - 1] != '/' ==>
              |r| == |base| + 1 + |c| && r[..|base|] == base && r[|base|] == '/' && r[|base| + 1..] == c
    ensures !IsAbsolute(c) && (|base| == 0 || base[|base| - 1] == '/') ==> r == base + c
  {
    if IsAbsolute(c) then c
    else if |base| == 0 || base[|base| - 1] == '/' then base + c
    else base + "/" + c
  }

  /// `Path::parent` of a file path: everything before the last separator
  /// (the root for a top-level file, the empty path for a bare name).
  function ParentDir(p: string): (d: string)
    ensures |d| <= |p|
    ensures Paths.LastIndexOf(p, '/') == None ==> d == ""
  {
    match Paths.LastIndexOf(p, '/')
    case None => ""
    case Some(i) => if i == 0 then "/" else p[..i]
  }

  const XdgCacheHome := "XDG_CACHE_HOME"
  const Home := "HOME"
  const AppData := "APPDATA"
  const NoCacheDirMessage := "Unable to determine cache directory"

  /// A directory path a file can be joined under with one separator.
  predicate Joinable(dir: string)
  {
    |dir| > 0 && dir[|dir| - 1] != '/'
  }

  /// `get_cache_dir`: the first of `$XDG_CACHE_HOME/inference`,
  /// `$HOME/.cache/inference` and `$APPDATA/inference/cache` whose
  /// variable is set (to any value, the empty one included).
  function GetCacheDir(env: map<string, string>): (r: Result<string>)
    ensures r.Ok? <==> XdgCacheHome in env || Home in env || AppData in env
    ensures r.Err? ==> r.error == ModelLoad(NoCacheDirMessage)
    ensures r.Ok? ==> Joinable(r.value)
    ensures XdgCacheHome in env ==> r == Ok(Join(env[XdgCacheHome], "inference"))
    ensures XdgCacheHome !in env && Home in env ==> r == Ok(Join(Join(env[Home], ".cache"), "inference"))
    ensures XdgCacheHome !in env && Home !in env && AppData in env ==>
              r == Ok(Join(Join(env[AppData], "inference"), "cache"))
  {
    if XdgCacheHome in env then Ok(Join(env[XdgCacheHome], "inference"))
    else if Home in env then Ok(Join(Join(env[Home], ".cache"), "inference"))
    else if AppData in env then Ok(Join(Join(env[AppData], "inference"), "cache"))
    else Err(ModelLoadError(NoCacheDirMessage))
  }

  /// The file that holds `key`: `<dir>/<key>.bin`.
  function CacheFile(dir: string, key: string): string
  {
    Join(dir, key + ".bin")
  }

  /// A relative key is stored directly below the cache directory, and
  /// different relative keys are stored in different files.
  lemma CacheFileUnderDir(dir: string, k1: string, k2: string)
    requires Joinable(dir) && !IsAbsolute(k1) && !IsAbsolute(k2)
    ensures Under(CacheFile(dir, k1), dir)
    ensures CacheFile(dir, k1) == CacheFile(dir, k2) ==> k1 == k2
  {
    var f1 := CacheFile(dir, k1);
    var f2 := CacheFile(dir, k2);
    assert !IsAbsolute(k1 + ".bin") && !IsAbsolute(k2 + ".bin") by {
      if |k1| > 0 { assert (k1 + ".bin")[0] == k1[0]; }
      if |k2| > 0 { assert (k2 + ".bin")[0] == k2[0]; }
    }
    if f1 == f2 {
      assert k1 + ".bin" == f1[|dir| + 1..] == k2 + ".bin";
      assert k1 == (k1 + ".bin")[..|k1|];
      assert k2 == (k2 + ".bin")[..|k2|];
    }
  }

  /// A key without separators is stored in the cache directory itself;
  /// an absolute key escapes it.
  lemma CacheFileParent(dir: string, key: string)
    requires Joinable(dir) && !IsAbsolute(key) && '/' !in key
    ensures ParentDir(CacheFile(dir, key)) == dir
    ensures CacheFile(dir, "/tmp/model") == "/tmp/model.bin"
  {
    var f := CacheFile(dir, key);
    var name := key + ".bin";
    assert !IsAbsolute(name) by { if |key| > 0 { assert name[0] == key[0]; } }
    assert forall j :: |dir| < j < |f| ==> f[j] == name[j - |dir| - 1];
    assert '/' !in name;
    assert Paths.LastIndexOf(f, '/') == Some(|dir|);
  }

  // ---------------------------------------------------------------------
  // Keys

  type U64 = x: nat | x < 0x1_0000_0000_0000_0000

  function HexDigit(d: nat): char
    requires d < 16
  {
    "0123456789abcdef"[d]
  }

  predicate IsHexDigit(c: char)
  {
    '0' <= c <= '9' || 'a' <= c <= 'f'
  }

  /// `{:x}`: lower-case hexadecimal without leading zeros.
  function LowerHex(n: nat): (s: string)
    ensures |s| >= 1
    ensures forall i :: 0 <= i < |s| ==> IsHexDigit(s[i])
  {
    if n < 16 then [HexDigit(n)] else LowerHex(n / 16) + [HexDigit(n % 16)]
  }

  function HexDigitValue(c: char): nat
    requires IsHexDigit(c)
  {
    if c <= '9' then c as int - '0' as int else c as int - 'a' as int + 10
  }

  /// The number a string of lower-case hexadecimal digits denotes.
  function HexValue(s: string): nat
    requires forall i :: 0 <= i < |s| ==> IsHexDigit(s[i])
  {
    if |s| == 0 then 0 else 16 * HexValue(s[..|s| - 1]) + HexDigitValue(s[|s| - 1])
  }

  /// Reading the hexadecimal text back gives the number.
  lemma {:induction false} HexRoundTrip(n: nat)
    ensures HexValue(LowerHex(n)) == n
  {
    var s := LowerHex(n);
    if n >= 16 {
      HexRoundTrip(n / 16);
      assert s[..|s| - 1] == LowerHex(n / 16);
    }
  }

  /// `url_to_cache_key`: "url_" and the hexadecimal `DefaultHasher` value
  /// of the URL; the hash itself is not part of this model.
  function UrlToCacheKey(url: string, hash: string -> U64): (key: string)
    ensures |key| > 4 && key[..4] == "url_"
    ensures !IsAbsolute(key) && '/' !in key
  {
    "url_" + LowerHex(hash(url))
  }

  /// Two URLs share a key exactly when their hashes are equal.
  lemma UrlKeysDifferByHash(u1: string, u2: string, hash: string -> U64)
    ensures UrlToCacheKey(u1, hash) == UrlToCacheKey(u2, hash) <==> hash(u1) == hash(u2)
  {
    if UrlToCacheKey(u1, hash) == UrlToCacheKey(u2, hash) {
      assert LowerHex(hash(u1)) == UrlToCacheKey(u1, hash)[4..] == UrlToCacheKey(u2, hash)[4..] == LowerHex(hash(u2));
      HexRoundTrip(hash(u1));
      HexRoundTrip(hash(u2));
    }
  }

  // ---------------------------------------------------------------------
  // The file system

  datatype FileSystem = FileSystem(files: map<string, seq<byte>>, dirs: set<string>)

  /// `Path::exists`.
  predicate Exists(fs: FileSystem, p: string)
  {
    p in fs.files || p in fs.dirs
  }

  /// `load_from_cache`: the stored bytes, or `None` when the file is
  /// missing or cannot be read (`readOk` is the read's outcome).
  function Lookup(fs: FileSystem, env: map<string, string>, key: string, readOk: bool): (r: Result<Option<seq<byte>>>)
    ensures r.Err? <==> GetCacheDir(env).Err?
    ensures r.Err? ==> r == Err(GetCacheDir(env).error)
    ensures r.Ok? ==> var f := CacheFile(GetCacheDir(env).value, key);
                      (r.value.Some? <==> readOk && f in fs.files)
                      && (r.value.Some? ==> r.value.value == fs.files[f])
  {
    var dir :- GetCacheDir(env);
    var f := CacheFile(dir, key);
    if Exists(fs, f) then
      if readOk && f in fs.files then Ok(Some(fs.files[f])) else Ok(None)
    else Ok(None)
  }

  /// `save_to_cache`: creates the directory and writes the file, ignoring
  /// either failure. Writing needs the file's parent directory and fails
  /// on a directory; `mkdirOk` and `writeOk` are the outcomes the
  /// operating system reports otherwise.
  function Save(fs: FileSystem, env: map<string, string>, key: string, data: seq<byte>, mkdirOk: bool, writeOk: bool)
    : (r: Result<FileSystem>)
    ensures r.Err? <==> GetCacheDir(env).Err?
    ensures r.Err? ==> r == Err(GetCacheDir(env).error)
    ensures r.Ok? ==> forall p :: p in fs.files && p != CacheFile(GetCacheDir(env).value, key)
                                  ==> p in r.value.files && r.value.files[p] == fs.files[p]
    ensures r.Ok? ==> r.value.files.Keys <= fs.files.Keys + {CacheFile(GetCacheDir(env).value, key)}
  {
    var dir :- GetCacheDir(env);
    if !mkdirOk then Ok(fs)
    else
      var created := fs.(dirs := fs.dirs + {dir});
      var f := CacheFile(dir, key);
      if writeOk && ParentDir(f) in created.dirs && f !in created.dirs then
        Ok(created.(files := created.files[f := data]))
      else Ok(created)
  }

  /// Saving a key without separators and then looking it up gives the
  /// saved bytes back, unless a directory stands in the way; saving never
  /// changes what any other key gives.
  lemma SaveThenLookup(fs: FileSystem, env: map<string, string>, key: string, other: string, data: seq<byte>,
                       mkdirOk: bool, writeOk: bool, readOk: bool)
    requires GetCacheDir(env).Ok? && !IsAbsolute(key) && '/' !in key && !IsAbsolute(other)
    requires CacheFile(GetCacheDir(env).value, key) !in fs.dirs
    ensures mkdirOk && writeOk ==> Lookup(Save(fs, env, key, data, true, true).value, env, key, true) == Ok(Some(data))
    ensures other != key ==>
              Lookup(Save(fs, env, key, data, mkdirOk, writeOk).value, env, other, readOk) == Lookup(fs, env, other, readOk)
  {
    var dir := GetCacheDir(env).value;
    CacheFileParent(dir, key);
    CacheFileUnderDir(dir, key, other);
    var f := CacheFile(dir, key);
    assert f != dir by { assert Under(f, dir); }
    if other != key {
      CacheFileUnderDir(dir, other, key);
    }
  }

  /// A key holding a separator lands in a subdirectory that saving does
  /// not create, so unless it already exists nothing is written.
  lemma SubdirectoryKeyIsNotWritten(fs: FileSystem, env: map<string, string>, key: string, data: seq<byte>,
                                    mkdirOk: bool, writeOk: bool)
    requires GetCacheDir(env).Ok? && !IsAbsolute(key) && '/' in key
    requires ParentDir(CacheFile(GetCacheDir(env).value, key)) !in fs.dirs
    ensures Save(fs, env, key, data, mkdirOk, writeOk).value.files == fs.files
  {
    var dir := GetCacheDir(env).value;
    var f := CacheFile(dir, key);
    var name := key + ".bin";
    assert !IsAbsolute(name) by { if |key| > 0 { assert name[0] == key[0]; } }
    var j :| 0 <= j < |key| && key[j] == '/';
    assert f[|dir| + 1 + j] == '/';
    var last := Paths.LastIndexOf(f, '/');
    assert last.Some? && last.value >= |dir| + 1 + j;
    assert ParentDir(f) != dir;
  }

  const ClearFailedPrefix := "Failed to clear cache: "

  /// `clear_cache`: when the directory exists, removes it and everything
  /// in it, or fails with the removal's error (`removeError`).
  function Clear(fs: FileSystem, env: map<string, string>, removeError: Option<string>): (r: Result<FileSystem>)
    ensures GetCacheDir(env).Err? ==> r == Err(GetCacheDir(env).error)
    ensures GetCacheDir(env).Ok? && !Exists(fs, GetCacheDir(env).value) ==> r == Ok(fs)
    ensures GetCacheDir(env).Ok? && Exists(fs, GetCacheDir(env).value) && removeError.Some? ==>
              r == Err(ModelLoad(ClearFailedPrefix + removeError.value))
    ensures r.Ok? ==> r.value.files.Keys <= fs.files.Keys && r.value.dirs <= fs.dirs
    ensures r.Ok? ==> forall p :: p in r.value.files ==> r.value.files[p] == fs.files[p]
    ensures r.Ok? && Exists(fs, GetCacheDir(env).value) ==>
              forall p :: p in fs.files ==> (p in r.value.files <==> p != GetCacheDir(env).value && !Under(p, GetCacheDir(env).value))
  {
    var dir :- GetCacheDir(env);
    if !Exists(fs, dir) then Ok(fs)
    else if removeError.Some? then Err(ModelLoadError(ClearFailedPrefix + removeError.value))
    else
      Ok(FileSystem(map p | p in fs.files && p != dir && !Under(p, dir) :: fs.files[p],
                    set d | d in fs.dirs && d != dir && !Under(d, dir)))
  }

  /// After the cache directory is cleared every relative key misses.
  lemma ClearEmptiesCache(fs: FileSystem, env: map<string, string>, key: string, readOk: bool)
    requires Clear(fs, env, None).Ok? && Exists(fs, GetCacheDir(env).value)
    requires !IsAbsolute(key)
    ensures Lookup(Clear(fs, env, None).value, env, key, readOk) == Ok(None)
  {
    CacheFileUnderDir(GetCacheDir(env).value, key, key);
  }

  // ---------------------------------------------------------------------
  // Cache size

  /// What iterating a directory yields: an entry whose metadata could or
  /// could not be read, or an error that ends the iteration.
  datatype DirEntry = Entry(size: Option<nat>) | NextEntryFailed

  /// The outcome of `read_dir` on the cache directory, in the order the
  /// operating system lists the entries.
  datatype Listing = ReadDirFailed(reason: string) | Listed(entries: seq<DirEntry>)

  const ReadDirFailedPrefix := "Failed to read cache directory: "

  /// The sizes of the entries before the first failed one, skipping
  /// entries whose metadata could not be read.
  function EntriesSize(entries: seq<DirEntry>): nat
  {
    if |entries| == 0 then 0
    else match entries[0]
      case NextEntryFailed => 0
      case Entry(size) => size.GetOr(0) + EntriesSize(entries[1..])
  }

  /// A failed entry hides everything after it.
  lemma {:induction false} EntriesSizeStopsAtFailure(before: seq<DirEntry>, after: seq<DirEntry>)
    requires forall i :: 0 <= i < |before| ==> before[i].Entry?
    ensures EntriesSize(before + [NextEntryFailed] + after) == EntriesSize(before)
  {
    if |before| > 0 {
      assert (before + [NextEntryFailed] + after)[1..] == before[1..] + [NextEntryFailed] + after;
      EntriesSizeStopsAtFailure(before[1..], after);
    }
  }

  /// Without failures the sizes of two listings add up.
  lemma {:induction false} EntriesSizeAppend(a: seq<DirEntry>, b: seq<DirEntry>)
    requires forall i :: 0 <= i < |a| ==> a[i].Entry?
    ensures EntriesSize(a + b) == EntriesSize(a) + EntriesSize(b)
  {
    if |a| > 0 {
      assert (a + b)[0] == a[0] && (a + b)[1..] == a[1..] + b;
      EntriesSizeAppend(a[1..], b);
    } else {
      assert a + b == b;
    }
  }
}
