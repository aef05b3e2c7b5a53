/**
 * The `.env` loader run at start-up (`load_env` in app.py) and the lookup of
 * the transcription credential that follows it.
 *
 * The file is given as the sequence of lines that iterating over it yields
 * (each with its line terminator, if any), or as absent when opening it fails
 * with `FileNotFoundError`. The process environment is a map that the loader
 * updates and returns.
 */
module DotEnv {
  import opened Wrappers

  /** The name of the credential variable and the value used when it is unset. */
  const ApiKeyName := "DEEPGRAM_API_KEY"
  const Placeholder := "YOUR_DEEPGRAM_API_KEY_HERE"

  /** Python's `str.isspace` for one code point: the characters `str.strip()` removes. */
  predicate IsSpace(c: char) {
    var n := c as int;
    || (0x09 <= n <= 0x0D) || (0x1C <= n <= 0x20) || n == 0x85 || n == 0xA0
    || n == 0x1680 || (0x2000 <= n <= 0x200A) || n == 0x2028 || n == 0x2029
    || n == 0x202F || n == 0x205F || n == 0x3000
  }

  /** The index of the first non-whitespace character of `s` at or after `i` (or `|s|`). */
  function SkipLeading(s: string, i: nat): (n: nat)
    requires i <= |s|
    ensures i <= n <= |s|
    ensures forall k | i <= k < n :: IsSpace(s[k])
    ensures n < |s| ==> !IsSpace(s[n])
    decreases |s| - i
  {
    if i < |s| && IsSpace(s[i]) then SkipLeading(s, i + 1) else i
  }

  /** The end of `s[lo..j]` once its trailing whitespace is dropped. */
  function SkipTrailing(s: string, lo: nat, j: nat): (m: nat)
    requires lo <= j <= |s|
    ensures lo <= m <= j
    ensures forall k | m <= k < j :: IsSpace(s[k])
    ensures m > lo ==> !IsSpace(s[m - 1])
    decreases j - lo
  {
    if j > lo && IsSpace(s[j - 1]) then SkipTrailing(s, lo, j - 1) else j
  }

  /** `str.strip()`: the text between the leading and the trailing whitespace of `s`. */
  function Strip(s: string): (r: string)
    ensures |r| <= |s|
    ensures r != [] ==> !IsSpace(r[0]) && !IsSpace(r[|r| - 1])
  {
    var start := SkipLeading(s, 0);
    s[start..SkipTrailing(s, start, |s|)]
  }

  /**
   * What `Strip` removes is whitespace at either end, what it keeps neither
   * begins nor ends with whitespace, and it is empty exactly for a blank line.
   */
  lemma StripIsTrimmedInfix(s: string) returns (start: nat)
    ensures start + |Strip(s)| <= |s| && Strip(s) == s[start..start + |Strip(s)|]
    ensures forall k | 0 <= k < start :: IsSpace(s[k])
    ensures forall k | start + |Strip(s)| <= k < |s| :: IsSpace(s[k])
    ensures Strip(s) != [] ==> !IsSpace(Strip(s)[0]) && !IsSpace(Strip(s)[|Strip(s)| - 1])
    ensures Strip(s) == [] <==> forall k | 0 <= k < |s| :: IsSpace(s[k])
  {
    start := SkipLeading(s, 0);
    var end := SkipTrailing(s, start, |s|);
    assert |Strip(s)| == end - start;
    if end > start {
      assert Strip(s)[0] == s[start];
      assert Strip(s)[|Strip(s)| - 1] == s[end - 1];
    }
  }

  /** `s.split('=', 1)` when it yields two parts; `None` when `s` has no '='. */
  function SplitAtFirst(s: string): (r: Option<(string, string)>)
    ensures r.None? <==> '=' !in s
    ensures r.Some? ==> r.value.0 + "=" + r.value.1 == s && '=' !in r.value.0
  {
    if s == [] then None
    else if s[0] == '=' then Some(([], s[1..]))
    else
      match SplitAtFirst(s[1..])
      case None => None
      case Some((key, value)) =>
        assert s == [s[0]] + s[1..];
        Some(([s[0]] + key, value))
  }

  /**
   * The split is the only one whose key has no '=': the value is everything
   * after the first '=' and may itself contain '='.
   */
  lemma {:induction false} SplitAtFirstUnique(key: string, value: string)
    requires '=' !in key
    ensures SplitAtFirst(key + "=" + value) == Some((key, value))
  {
    var s := key + "=" + value;
    if key == [] {
      assert s[1..] == value;
    } else {
      assert s[1..] == key[1..] + "=" + value;
      SplitAtFirstUnique(key[1..], value);
      assert [s[0]] + key[1..] == key;
    }
  }

  /** How the loader treats one line. */
  datatype LineKind =
    | Skipped                            // blank, or a comment starting in column 0
    | Entry(key: string, value: string)  // `key=value` after stripping
    | NoSeparator                        // unpacking one part into two raises ValueError

  predicate IsComment(line: string) {
    |line| > 0 && line[0] == '#'
  }

  /** The classification of one raw line. */
  function ParseLine(line: string): (p: LineKind)
    ensures p.Skipped? <==> Strip(line) == [] || IsComment(line)
    ensures p.NoSeparator? <==> !p.Skipped? && '=' !in Strip(line)
    ensures p.Entry? ==> p.key + "=" + p.value == Strip(line) && '=' !in p.key
  {
    var stripped := Strip(line);
    if stripped == [] || IsComment(line) then Skipped
    else
      match SplitAtFirst(stripped)
      case None => NoSeparator
      case Some((key, value)) => Entry(key, value)
  }

  /** The classification of every line of a file, in order. */
  function Classify(lines: seq<string>): seq<LineKind> {
    seq(|lines|, j requires 0 <= j < |lines| => ParseLine(lines[j]))
  }

  /** The classified line assigns the variable `key`. */
  predicate Assigns(kind: LineKind, key: string) {
    kind.Entry? && kind.key == key
  }

  /**
   * The outcome of loading: the new environment, or the `ValueError` raised
   * at line `line`, together with the environment as that line left it
   * (assignments of earlier lines are not undone).
   */
  datatype LoadResult =
    | Loaded(environ: map<string, string>)
    | Failed(line: nat, environ: map<string, string>)

  /** Processing the classified lines `kinds[i..]` starting from `environ`. */
  function LoadFrom(environ: map<string, string>, kinds: seq<LineKind>, i: nat): (r: LoadResult)
    requires i <= |kinds|
    ensures r.Failed? ==> i <= r.line < |kinds| && kinds[r.line].NoSeparator?
    decreases |kinds| - i
  {
    if i == |kinds| then Loaded(environ)
    else
      match kinds[i]
      case Skipped => LoadFrom(environ, kinds, i + 1)
      case Entry(key, value) => LoadFrom(environ[key := value], kinds, i + 1)
      case NoSeparator => Failed(i, environ)
  }

  /** Loading a whole file into `environ`. */
  function Load(environ: map<string, string>, lines: seq<string>): (r: LoadResult)
    ensures r.Failed? ==> r.line < |lines| && ParseLine(lines[r.line]).NoSeparator?
  {
    LoadFrom(environ, Classify(lines), 0)
  }

  /** `load_env`: a missing file leaves the environment as it is. */
  method LoadEnv(file: Option<seq<string>>, environ: map<string, string>) returns (r: LoadResult)
    ensures file.None? ==> r == Loaded(environ)
    ensures file.Some? ==> r == Load(environ, file.value)
  {
    if file.None? {
      return Loaded(environ);
    }
    var lines := file.value;
    ghost var kinds := Classify(lines);
    var env := environ;
    for i := 0 to |lines|
      invariant LoadFrom(env, kinds, i) == Load(environ, lines)
    {
      var line := lines[i];
      var stripped := Strip(line);
      if stripped != [] && !IsComment(line) {
        var parts := SplitAtFirst(stripped);
        if parts.None? {
          return Failed(i, env);
        }
        env := env[parts.value.0 := parts.value.1];
      }
    }
    return Loaded(env);
  }

  /** Loading fails exactly when some line has no '=', and then at the first such line. */
  lemma {:induction false} FailsAtFirstNoSeparator(environ: map<string, string>, kinds: seq<LineKind>, i: nat)
    requires i <= |kinds|
    ensures LoadFrom(environ, kinds, i).Failed? <==> exists j | i <= j < |kinds| :: kinds[j].NoSeparator?
    ensures LoadFrom(environ, kinds, i).Failed? ==>
              forall j | i <= j < LoadFrom(environ, kinds, i).line :: !kinds[j].NoSeparator?
    decreases |kinds| - i
  {
    if i < |kinds| {
      match kinds[i]
      case Skipped => FailsAtFirstNoSeparator(environ, kinds, i + 1);
      case Entry(key, value) => FailsAtFirstNoSeparator(environ[key := value], kinds, i + 1);
      case NoSeparator =>
    }
  }

  /** A variable no remaining line assigns keeps its value (or its absence). */
  lemma {:induction false} UnassignedKept(environ: map<string, string>, kinds: seq<LineKind>, i: nat, key: string)
    requires i <= |kinds| && LoadFrom(environ, kinds, i).Loaded?
    requires forall j | i <= j < |kinds| :: !Assigns(kinds[j], key)
    ensures key in LoadFrom(environ, kinds, i).environ <==> key in environ
    ensures key in environ ==> LoadFrom(environ, kinds, i).environ[key] == environ[key]
    decreases |kinds| - i
  {
    if i < |kinds| {
      assert !Assigns(kinds[i], key);
      match kinds[i]
      case Skipped => UnassignedKept(environ, kinds, i + 1, key);
      case Entry(k, v) => UnassignedKept(environ[k := v], kinds, i + 1, key);
    }
  }

  /** The last line that assigns a variable decides its value: later lines overwrite earlier ones. */
  lemma {:induction false} LastAssignmentWins(environ: map<string, string>, kinds: seq<LineKind>, i: nat, n: nat, key: string, value: string)
    requires i <= n < |kinds| && LoadFrom(environ, kinds, i).Loaded?
    requires kinds[n] == Entry(key, value)
    requires forall j | n < j < |kinds| :: !Assigns(kinds[j], key)
    ensures key in LoadFrom(environ, kinds, i).environ
    ensures LoadFrom(environ, kinds, i).environ[key] == value
    decreases n - i
  {
    if i == n {
      UnassignedKept(environ[key := value], kinds, i + 1, key);
    } else {
      match kinds[i]
      case Skipped => LastAssignmentWins(environ, kinds, i + 1, n, key, value);
      case Entry(k, v) => LastAssignmentWins(environ[k := v], kinds, i + 1, n, key, value);
    }
  }

  /** On failure, the environment holds exactly what the lines before the failing one produced. */
  lemma {:induction false} FailureKeepsEarlierLines(environ: map<string, string>, kinds: seq<LineKind>, i: nat)
    requires i <= |kinds| && LoadFrom(environ, kinds, i).Failed?
    ensures i <= LoadFrom(environ, kinds, i).line
    ensures LoadFrom(environ, kinds[..LoadFrom(environ, kinds, i).line], i) ==
              Loaded(LoadFrom(environ, kinds, i).environ)
    decreases |kinds| - i
  {
    var n := LoadFrom(environ, kinds, i).line;
    var prefix := kinds[..n];
    if i < n {
      assert prefix[i] == kinds[i];
      match kinds[i]
      case Skipped => FailureKeepsEarlierLines(environ, kinds, i + 1);
      case Entry(k, v) => FailureKeepsEarlierLines(environ[k := v], kinds, i + 1);
    }
  }

  /** `os.getenv('DEEPGRAM_API_KEY', placeholder)`. */
  function ApiKey(environ: map<string, string>): (k: string)
    ensures k == Placeholder <==> ApiKeyName !in environ || environ[ApiKeyName] == Placeholder
  {
    if ApiKeyName in environ then environ[ApiKeyName] else Placeholder
  }

  /**
   * The credential the bridge uses after loading a file: the value of the
   * last line that assigns it.
   */
  lemma ApiKeyFromFile(environ: map<string, string>, lines: seq<string>, n: nat, value: string)
    requires n < |lines|
    requires ParseLine(lines[n]) == Entry(ApiKeyName, value)
    requires forall j | n < j < |lines| :: !Assigns(ParseLine(lines[j]), ApiKeyName)
    ensures Load(environ, lines).Loaded? ==> ApiKey(Load(environ, lines).environ) == value
  {
    if Load(environ, lines).Loaded? {
      LastAssignmentWins(environ, Classify(lines), 0, n, ApiKeyName, value);
    }
  }
}
