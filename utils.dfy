/** String helpers of the service (utils.py): file-name sanitising, file
    extensions and the audio-format check, identifier formats, password
    verification against an abstract hash, and the processing-time estimate.
    Paths are POSIX paths. */
module Utils {
  import opened Common

  // ---------------------------------------------------------------------------
  // Path components

  /** The part of `t` after its last '/'. */
  function AfterLastSlash(t: string): (r: string)
    ensures |r| <= |t| && r == t[|t| - |r|..]
    ensures '/' !in r
    ensures |r| < |t| ==> t[|t| - |r| - 1] == '/'
  {
    if t == [] || t[|t| - 1] == '/' then [] else AfterLastSlash(t[..|t| - 1]) + [t[|t| - 1]]
  }

  predicate IsSlash(c: char)
  {
    c == '/'
  }

  /** `Path(p).name`: the last component, ignoring trailing slashes and "."
      components, or "" when there is none. */
  function PathName(p: string): (r: string)
    ensures '/' !in r && r != "."
    ensures |r| <= |p|
    ensures var last := AfterLastSlash(RStripWhere(p, IsSlash)); last != "." ==> r == last
    decreases |p|
  {
    var t := RStripWhere(p, IsSlash);
    var last := AfterLastSlash(t);
    if last == "." then PathName(t[..|t| - 1]) else last
  }

  /** The text after the last '/' of `dir + "/" + name` is `name`. */
  lemma {:induction false} AfterLastSlashOfJoin(dir: string, name: string)
    requires '/' !in name
    ensures AfterLastSlash(dir + "/" + name) == name
    decreases |name|
  {
    var t := dir + "/" + name;
    if name == [] {
      assert t[|t| - 1] == '/';
    } else {
      var init := name[..|name| - 1];
      assert t[..|t| - 1] == dir + "/" + init;
      AfterLastSlashOfJoin(dir, init);
      assert init + [name[|name| - 1]] == name;
    }
  }

  /** The name of a path is its last component, with or without a directory
      in front of it and a slash after it. */
  lemma PathNameIsLastComponent(dir: string, name: string)
    requires name != [] && '/' !in name && name != "."
    ensures PathName(name) == name
    ensures PathName(dir + "/" + name) == name
    ensures PathName(dir + "/" + name + "/") == name
  {
    assert name[|name| - 1] != '/';
    var joined := dir + "/" + name;
    assert RStripWhere(name, IsSlash) == name;
    assert AfterLastSlash(name) == name by {
      AfterLastSlashOfJoin("", name);
      assert AfterLastSlash("" + "/" + name) == name;
      AfterLastSlashWithoutSlash(name);
    }
    assert joined[|joined| - 1] == name[|name| - 1];
    assert RStripWhere(joined, IsSlash) == joined;
    AfterLastSlashOfJoin(dir, name);
    assert RStripWhere(joined + "/", IsSlash) == joined by {
      assert (joined + "/")[..|joined|] == joined;
    }
  }

  /** A text without '/' is all after its last '/'. */
  lemma {:induction false} AfterLastSlashWithoutSlash(t: string)
    requires '/' !in t
    ensures AfterLastSlash(t) == t
  {
    if t != [] {
      assert '/' !in t[..|t| - 1];
      AfterLastSlashWithoutSlash(t[..|t| - 1]);
    }
  }

  // ---------------------------------------------------------------------------
  // sanitize_filename

  predicate IsAsciiAlnum(c: char)
  {
    'a' <= c <= 'z' || 'A' <= c <= 'Z' || '0' <= c <= '9'
  }

  /** The characters `sanitize_filename` keeps. */
  predicate IsSafeFilenameChar(c: char)
  {
    IsAsciiAlnum(c) || c in "._- "
  }

  /** `a` can be obtained from `b` by deleting characters. */
  predicate IsSubsequence(a: string, b: string)
    decreases |b|
  {
    if b == [] then a == []
    else (a != [] && a[0] == b[0] && IsSubsequence(a[1..], b[1..])) || IsSubsequence(a, b[1..])
  }

  /** `"".join(c for c in s if c.isalnum() or c in "._- ")`. */
  function KeepSafe(s: string): (r: string)
    ensures |r| <= |s|
    ensures forall k :: 0 <= k < |r| ==> IsSafeFilenameChar(r[k])
  {
    if s == [] then []
    else if IsSafeFilenameChar(s[0]) then [s[0]] + KeepSafe(s[1..])
    else KeepSafe(s[1..])
  }

  /** Filtering one more character keeps it exactly when it is safe, so
      every safe character of the input survives, in order. */
  lemma {:induction false} KeepSafeSnoc(s: string, c: char)
    ensures KeepSafe(s + [c]) == KeepSafe(s) + (if IsSafeFilenameChar(c) then [c] else [])
  {
    if s != [] {
      assert (s + [c])[0] == s[0];
      assert (s + [c])[1..] == s[1..] + [c];
      KeepSafeSnoc(s[1..], c);
    } else {
      assert [c][1..] == [];
    }
  }

  lemma {:induction false} KeepSafeIsSubsequence(s: string)
    ensures IsSubsequence(KeepSafe(s), s)
  {
    if s != [] {
      KeepSafeIsSubsequence(s[1..]);
      if IsSafeFilenameChar(s[0]) {
        assert ([s[0]] + KeepSafe(s[1..]))[1..] == KeepSafe(s[1..]);
      }
    }
  }

  lemma {:induction false} EmptyIsSubsequence(b: string)
    ensures IsSubsequence([], b)
  {
    if b != [] {
      EmptyIsSubsequence(b[1..]);
    }
  }

  /** Dropping the first character keeps a subsequence a subsequence. */
  lemma {:induction false} SubsequenceTail(a: string, b: string)
    requires a != [] && IsSubsequence(a, b)
    ensures IsSubsequence(a[1..], b)
    decreases |b|
  {
    if !(a[0] == b[0] && IsSubsequence(a[1..], b[1..])) {
      SubsequenceTail(a, b[1..]);
    }
  }

  /** Every prefix of a subsequence is a subsequence. */
  lemma {:induction false} PrefixOfSubsequence(a: string, b: string, n: nat)
    requires n <= |a| && IsSubsequence(a, b)
    ensures IsSubsequence(a[..n], b)
    decreases |b|
  {
    if n == 0 {
      EmptyIsSubsequence(b);
    } else if a[0] == b[0] && IsSubsequence(a[1..], b[1..]) {
      assert a[..n][1..] == a[1..][..n - 1];
      PrefixOfSubsequence(a[1..], b[1..], n - 1);
    } else {
      PrefixOfSubsequence(a, b[1..], n);
    }
  }

  /** Every infix of a subsequence is a subsequence. */
  lemma {:induction false} InfixOfSubsequence(a: string, b: string, i: nat, n: nat)
    requires i + n <= |a| && IsSubsequence(a, b)
    ensures IsSubsequence(Infix(a, i, n), b)
    decreases i
  {
    if i > 0 {
      SubsequenceTail(a, b);
      assert Infix(a, i, n) == Infix(a[1..], i - 1, n);
      InfixOfSubsequence(a[1..], b, i - 1, n);
    } else {
      assert Infix(a, i, n) == a[..n];
      PrefixOfSubsequence(a, b, n);
    }
  }

  /** `sanitize_filename`. */
  function SanitizeFilename(filename: string): (r: string)
    ensures |r| <= |PathName(filename)| <= |filename|
  {
    Strip(KeepSafe(PathName(filename)))
  }

  /** Stripping keeps only characters of its input. */
  lemma StripKeepsSafeChars(s: string)
    requires forall k :: 0 <= k < |s| ==> IsSafeFilenameChar(s[k])
    ensures var r := Strip(s); forall k :: 0 <= k < |r| ==> IsSafeFilenameChar(r[k])
  {
    var r := Strip(s);
    var i := StripStart(s);
    forall k | 0 <= k < |r| ensures IsSafeFilenameChar(r[k]) {
      assert r[k] == s[i + k];
    }
  }

  /** Stripping a subsequence of `b` leaves a subsequence of `b`. */
  lemma StripOfSubsequence(a: string, b: string)
    requires IsSubsequence(a, b)
    ensures IsSubsequence(Strip(a), b)
  {
    var r := Strip(a);
    var i := StripStart(a);
    InfixOfSubsequence(a, b, i, |r|);
  }

  /** A sanitised name holds only letters, digits, '.', '_', '-' and ' ', so
      no '/' (no path traversal); it has no whitespace at either end; and it
      is obtained from the last path component by deleting characters. */
  lemma SanitizeFilenameIsSafe(filename: string)
    ensures var r := SanitizeFilename(filename);
            && (forall k :: 0 <= k < |r| ==> IsSafeFilenameChar(r[k]))
            && '/' !in r
            && (r != [] ==> !IsSpace(r[0]) && !IsSpace(r[|r| - 1]))
            && IsSubsequence(r, PathName(filename))
  {
    var name := PathName(filename);
    KeptAndStrippedIsSafe(name);
    assert SanitizeFilename(filename) == Strip(KeepSafe(name));
  }

  /** The same for the filtering and stripping of any name. */
  lemma KeptAndStrippedIsSafe(name: string)
    ensures var r := Strip(KeepSafe(name));
            && (forall k :: 0 <= k < |r| ==> IsSafeFilenameChar(r[k]))
            && '/' !in r
            && (r != [] ==> !IsSpace(r[0]) && !IsSpace(r[|r| - 1]))
            && IsSubsequence(r, name)
  {
    var kept := KeepSafe(name);
    StripKeepsSafeChars(kept);
    KeepSafeIsSubsequence(name);
    StripOfSubsequence(kept, name);
    assert !IsSafeFilenameChar('/');
  }

  // ---------------------------------------------------------------------------
  // Extensions and audio formats

  /** The index of the last `c` in `s`, or -1 (`str.rfind`). */
  function LastIndexOf(s: string, c: char): (i: int)
    ensures -1 <= i < |s|
    ensures i >= 0 ==> s[i] == c
    ensures forall k :: i < k < |s| ==> s[k] != c
  {
    if s == [] then -1
    else if s[|s| - 1] == c then |s| - 1
    else LastIndexOf(s[..|s| - 1], c)
  }

  /** `Path(name).suffix`: from the last '.' on, when that dot is neither
      the first nor the last character of the name. */
  function Suffix(name: string): (r: string)
    ensures r == "" || (r[0] == '.' && |r| >= 2 && |r| < |name|)
    ensures r == name[|name| - |r|..]
    ensures r != "" ==> '.' !in r[1..]
    ensures forall i :: 0 < i < |name| - 1 && name[i] == '.' && '.' !in name[i + 1..] ==> r == name[i..]
  {
    var i := LastIndexOf(name, '.');
    if 0 < i < |name| - 1 then name[i..] else ""
  }

  /** `get_file_extension`: the lower-cased suffix of the last component. */
  function GetFileExtension(filename: string): (ext: string)
    ensures ext == "" || (ext[0] == '.' && |ext| >= 2)
    ensures forall k :: 0 <= k < |ext| ==> !IsUpper(ext[k])
    ensures ext != "" ==> |ext| < |PathName(filename)|
    ensures ext == ToLower(Suffix(PathName(filename)))
  {
    ToLower(Suffix(PathName(filename)))
  }

  /** `settings.ALLOWED_AUDIO_FORMATS`. */
  const AllowedAudioFormats: set<string> := {".wav", ".mp3", ".flac", ".ogg", ".m4a"}

  /** `is_audio_file`. */
  function IsAudioFile(filename: string): (ok: bool)
    ensures ok ==> 4 <= |GetFileExtension(filename)| < |PathName(filename)|
  {
    var ext := GetFileExtension(filename);
    if ext in AllowedAudioFormats then AllowedFormatShape(ext); true else false
  }

  /** `name` ends, up to letter case, in an allowed extension, with at
      least one character before it. */
  predicate EndsWithAllowedFormat(name: string)
  {
    exists ext :: ext in AllowedAudioFormats && |ext| < |name| && ToLower(name[|name| - |ext|..]) == ext
  }

  /** An accepted name ends, up to letter case, in one of the allowed
      extensions, and has something before the dot. */
  lemma AudioFileEndsWithAllowedFormat(filename: string)
    requires IsAudioFile(filename)
    ensures EndsWithAllowedFormat(PathName(filename))
  {
    var name := PathName(filename);
    assert ToLower(Suffix(name)) in AllowedAudioFormats;
    AllowedSuffixEndsName(name);
  }

  /** Conversely, a name ending in an allowed extension is accepted. */
  lemma EndsWithAllowedFormatIsAudioFile(filename: string)
    requires EndsWithAllowedFormat(PathName(filename))
    ensures IsAudioFile(filename)
  {
    AllowedEndingIsSuffix(PathName(filename));
  }

  /** The dot of an allowed extension that ends the name is the name's
      last dot, so the extension is the name's suffix. */
  lemma AllowedEndingIsSuffix(name: string)
    requires EndsWithAllowedFormat(name)
    ensures ToLower(Suffix(name)) in AllowedAudioFormats
  {
    var ext :| ext in AllowedAudioFormats && |ext| < |name| && ToLower(name[|name| - |ext|..]) == ext;
    var i := |name| - |ext|;
    var tail := name[i..];
    AllowedFormatShape(ext);
    LoweringKeepsDots(tail, ext);
    assert tail[0] == '.';
    forall k | i < k < |name| ensures name[k] != '.' {
      assert name[k] == tail[k - i];
    }
    LastDotAt(name, i);
  }

  /** Each allowed extension is a dot followed by at least one character
      and no further dot. */
  lemma AllowedFormatShape(ext: string)
    requires ext in AllowedAudioFormats
    ensures |ext| >= 4 && ext[0] == '.'
    ensures forall k :: 1 <= k < |ext| ==> ext[k] != '.'
  {
  }

  /** Lowering a string leaves its dots where they were. */
  lemma LoweringKeepsDots(t: string, e: string)
    requires ToLower(t) == e
    ensures forall k :: 0 <= k < |t| ==> (t[k] == '.' <==> e[k] == '.')
  {
    forall k | 0 <= k < |t| ensures t[k] == '.' <==> e[k] == '.' {
      assert e[k] == LowerChar(t[k]);
    }
  }

  lemma LastDotAt(s: string, i: nat)
    requires i < |s| && s[i] == '.'
    requires forall k :: i < k < |s| ==> s[k] != '.'
    ensures LastIndexOf(s, '.') == i
  {
  }

  lemma AllowedSuffixEndsName(name: string)
    requires ToLower(Suffix(name)) in AllowedAudioFormats
    ensures EndsWithAllowedFormat(name)
  {
    var ext := ToLower(Suffix(name));
    assert ext != "";
    assert |ext| < |name| && ToLower(name[|name| - |ext|..]) == ext;
  }

  // ---------------------------------------------------------------------------
  // Identifiers

  predicate IsLowerHexDigit(c: char)
  {
    '0' <= c <= '9' || 'a' <= c <= 'f'
  }

  predicate IsLowerHex(s: string)
  {
    forall k :: 0 <= k < |s| ==> IsLowerHexDigit(s[k])
  }

  const TaskIdPrefix := "task_"
  const ApiKeyPrefix := "waveq_"

  /** `uuid4().hex`: 32 lower-case hexadecimal digits. */
  predicate IsUuidHex(hex: string)
  {
    |hex| == 32 && IsLowerHex(hex)
  }

  /** `generate_task_id`, given the random UUID's hex digits. */
  function GenerateTaskId(uuidHex: string): (id: string)
    requires IsUuidHex(uuidHex)
    ensures |id| == 21 && id[..5] == TaskIdPrefix && IsLowerHex(id[5..])
  {
    TaskIdPrefix + uuidHex[..16]
  }

  /** The prefix check of `verify_api_key` (api/auth.py). */
  predicate HasApiKeyPrefix(key: string)
  {
    ApiKeyPrefix <= key
  }

  /** `generate_api_key`, given the random UUID's hex digits: the key passes
      the API's prefix check. */
  function GenerateApiKey(uuidHex: string): (key: string)
    requires IsUuidHex(uuidHex)
    ensures |key| == 38 && HasApiKeyPrefix(key) && IsLowerHex(key[6..])
  {
    ApiKeyPrefix + uuidHex
  }

  /** A task id never passes the API-key check, and vice versa. */
  lemma TaskIdsAreNotApiKeys(h1: string, h2: string)
    requires IsUuidHex(h1) && IsUuidHex(h2)
    ensures !HasApiKeyPrefix(GenerateTaskId(h1))
    ensures GenerateApiKey(h2) != GenerateTaskId(h1)
  {
    assert GenerateTaskId(h1)[0] == 't';
  }

  // ---------------------------------------------------------------------------
  // Passwords

  /** `verify_password`, with `hash_password` (SHA-256 hex digest) abstracted
      as the function `hash`. */
  function VerifyPassword(password: string, hashed: string, hash: string -> string): bool
  {
    hash(password) == hashed
  }

  /** With a hash that tells passwords apart, a password verifies against
      the hash of another exactly when the two are the same. */
  lemma VerifyPasswordExact(password: string, other: string, hash: string -> string)
    requires forall a, b :: hash(a) == hash(b) ==> a == b
    ensures VerifyPassword(password, hash(other), hash) <==> password == other
  {
  }

  /** A password always verifies against its own hash. */
  lemma VerifyOwnHash(password: string, hash: string -> string)
    ensures VerifyPassword(password, hash(password), hash)
  {
  }

  // ---------------------------------------------------------------------------
  // Processing-time estimate

  /** Seconds per megabyte for each operation; 2.0 for any other operation. */
  function ProcessingRate(operation: string): (rate: real)
    ensures rate > 0.0
    ensures operation !in {"denoise", "transcribe", "trim", "separate", "sentiment", "tts"} ==> rate == 2.0
  {
    match operation
    case "denoise" => 2.0
    case "transcribe" => 3.0
    case "trim" => 1.0
    case "separate" => 5.0
    case "sentiment" => 3.5
    case "tts" => 0.5
    case _ => 2.0
  }

  /** `estimate_processing_time`. */
  function EstimateProcessingTime(fileSizeMb: real, operation: string): (seconds: real)
    ensures seconds == fileSizeMb * ProcessingRate(operation)
    ensures fileSizeMb >= 0.0 ==> seconds >= 0.0
  {
    fileSizeMb * ProcessingRate(operation)
  }

  /** The estimate grows with the file size for every operation. */
  lemma EstimateIsMonotone(a: real, b: real, operation: string)
    requires a <= b
    ensures EstimateProcessingTime(a, operation) <= EstimateProcessingTime(b, operation)
  {
    var rate := ProcessingRate(operation);
    assert (b - a) * rate >= 0.0;
  }
}
