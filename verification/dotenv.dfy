/**
 * The fallback `.env` reader of `_load_env` (used when python-dotenv is not
 * installed): each line is trimmed, blank lines and `#` comments are skipped,
 * the rest is split at its first '=', one pair of matching quotes is removed
 * from the value, and a variable already in the environment is never replaced.
 */
module DotEnv {
  import opened Wrappers
  import opened Text

  /** Removes one pair of surrounding double quotes, or else of single quotes. */
  function StripQuotes(value: string): (r: string)
    ensures |value| >= 2 && value[0] == value[|value| - 1] && (value[0] == '"' || value[0] == '\'')
            ==> r == value[1..|value| - 1]
    ensures |value| == 1 && (value[0] == '"' || value[0] == '\'') ==> r == []
    ensures (value == [] || (value[0] != '"' && value[0] != '\'') || value[|value| - 1] != value[0]) ==> r == value
  {
    if |value| >= 1 && value[0] == '"' && value[|value| - 1] == '"' then
      // `value[1:-1]` of the one-character string `"` is empty
      if |value| == 1 then "" else value[1..|value| - 1]
    else if |value| >= 1 && value[0] == '\'' && value[|value| - 1] == '\'' then
      if |value| == 1 then "" else value[1..|value| - 1]
    else value
  }

  /**
   * One line of the file: `None` when the trimmed line is empty, starts with '#'
   * or has no '='; otherwise the trimmed text before the first '=' and the
   * trimmed, unquoted text after it.
   */
  function ParseLine(line: string): (r: Option<(string, string)>)
    ensures r.None? <==> var t := Strip(line); t == [] || t[0] == '#' || Lacks(t, '=')
    ensures r.Some? ==> Lacks(r.value.0, '=')
  {
    var t := Strip(line);
    if t == [] || t[0] == '#' then None
    else
      var i := FirstIndex(t, '=');
      if i == |t| then None
      else
        KeyLacksSeparator(t);
        Some((Strip(t[..i]), StripQuotes(Strip(t[i + 1..]))))
  }

  /** The trimmed text before the first '=' holds no '='. */
  lemma KeyLacksSeparator(t: string)
    ensures Lacks(Strip(t[..FirstIndex(t, '=')]), '=')
  {
    var i := FirstIndex(t, '=');
    assert Lacks(t[..i], '=');
    StripOmits(t[..i], '=');
  }

  /** A line `KEY="value"` reads back as exactly that key and value, whatever the value holds. */
  lemma ParseQuotedAssignment(key: string, value: string)
    requires key != [] && key[0] != '#' && Lacks(key, '=')
    requires !IsSpace(key[0]) && !IsSpace(key[|key| - 1])
    ensures ParseLine(key + "=\"" + value + "\"") == Some((key, value))
  {
    var quoted := "\"" + value + "\"";
    assert key + "=\"" + value + "\"" == "" + key + "" + "=" + quoted + "";
    ParseAssignment("", key, "", quoted, "");
    StripKeeps(quoted);
    assert quoted[1..|quoted| - 1] == value;
  }

  /** A line `KEY=VALUE` with a bare value reads back as that key and value; the value may contain '='. */
  lemma ParseBareAssignment(key: string, value: string)
    requires key != [] && key[0] != '#' && Lacks(key, '=')
    requires !IsSpace(key[0]) && !IsSpace(key[|key| - 1])
    requires value != [] ==> !IsSpace(value[0]) && !IsSpace(value[|value| - 1])
    requires value != [] ==> value[0] != '"' && value[0] != '\''
    ensures ParseLine(key + "=" + value) == Some((key, value))
  {
    assert key + "=" + value == "" + key + "" + "=" + value + "";
    ParseAssignment("", key, "", value, "");
    StripKeeps(value);
  }

  /**
   * A line made of a key without '=', then '=', then text not ending in
   * whitespace, with any whitespace before the key, between the key and '='
   * and at the end of the line, assigns the unquoted, trimmed text to the
   * trimmed key.
   */
  lemma ParseAssignment(lead: string, key: string, gap: string, rest: string, trail: string)
    requires AllSpace(lead) && AllSpace(gap) && AllSpace(trail)
    requires key != [] && key[0] != '#' && Lacks(key, '=')
    requires !IsSpace(key[0]) && !IsSpace(key[|key| - 1])
    requires rest != [] ==> !IsSpace(rest[|rest| - 1])
    ensures ParseLine(lead + key + gap + "=" + rest + trail) == Some((key, StripQuotes(Strip(rest))))
  {
    var line := lead + key + gap + "=" + rest + trail;
    var core := key + gap + "=" + rest;
    var i := |key| + |gap|;
    LineShape(lead, key, gap, rest, trail);
    AssignmentParts(key, gap, rest);
    StripPaddedCore(lead, core, trail);
    StripSame(line, lead + core + trail);
    StripKeyGap(key, gap);
    StripSame(core[..i], key + gap);
    ParseRegrouped(line, core, key, rest, i);
  }

  /** Equal texts strip alike. */
  lemma StripSame(s: string, t: string)
    requires s == t
    ensures Strip(s) == Strip(t)
  {
  }

  /** A line that trims to `core`, split at its first '=' into a trimmed key and `rest`. */
  lemma ParseRegrouped(line: string, core: string, key: string, rest: string, i: nat)
    requires Strip(line) == core && core != [] && core[0] != '#'
    requires i < |core| && FirstIndex(core, '=') == i
    requires Strip(core[..i]) == key && core[i + 1..] == rest
    ensures ParseLine(line) == Some((key, StripQuotes(Strip(rest))))
  {
    ParseTrimmedLine(line, core, i);
  }

  /** Whitespace after a trimmed key is removed by `strip()`. */
  lemma StripKeyGap(key: string, gap: string)
    requires key != [] && !IsSpace(key[0]) && !IsSpace(key[|key| - 1]) && AllSpace(gap)
    ensures Strip(key + gap) == key
  {
    var s := key + gap;
    assert s[..0] == [];
    assert s[|key|..] == gap;
    assert s[0..|key|] == key;
    StripUnique(s, 0, |key|);
  }

  /** The line regrouped around its trimmed part. */
  lemma LineShape(lead: string, key: string, gap: string, rest: string, trail: string)
    ensures lead + key + gap + "=" + rest + trail == lead + (key + gap + "=" + rest) + trail
  {
  }

  /** The pieces of `key + gap + "=" + rest`, position by position. */
  lemma AssignmentParts(key: string, gap: string, rest: string)
    requires key != [] && Lacks(key, '=') && AllSpace(gap)
    requires !IsSpace(key[0]) && !IsSpace(key[|key| - 1])
    requires rest != [] ==> !IsSpace(rest[|rest| - 1])
    ensures var core := key + gap + "=" + rest;
            var i := |key| + |gap|;
            && core[0] == key[0] && !IsSpace(core[|core| - 1])
            && FirstIndex(core, '=') == i
            && core[..i] == key + gap && core[i + 1..] == rest
  {
    var core := key + gap + "=" + rest;
    var i := |key| + |gap|;
    assert core[..i] == key + gap;
    assert core[i + 1..] == rest;
    assert core[i] == '=';
    forall k | 0 <= k < i ensures core[k] != '=' {
      if k < |key| { assert core[k] == key[k]; } else { assert core[k] == gap[k - |key|]; }
    }
    FirstIndexAt(core, '=', i);
    if rest == [] { assert core[|core| - 1] == '='; } else { assert core[|core| - 1] == rest[|rest| - 1]; }
  }

  /** A text that starts and ends with no whitespace is what `strip()` leaves of it padded with whitespace. */
  lemma StripPaddedCore(lead: string, core: string, trail: string)
    requires AllSpace(lead) && AllSpace(trail) && core != []
    requires !IsSpace(core[0]) && !IsSpace(core[|core| - 1])
    ensures Strip(lead + core + trail) == core
  {
    var line := lead + core + trail;
    var a, b := |lead|, |lead| + |core|;
    assert line[..a] == lead;
    assert line[b..] == trail;
    assert line[a..b] == core;
    assert line[a] == core[0] && line[b - 1] == core[|core| - 1];
    StripUnique(line, a, b);
  }

  /** A line that trims to `t`, whose first '=' is at `i`, splits there. */
  lemma ParseTrimmedLine(line: string, t: string, i: nat)
    requires Strip(line) == t && t != [] && t[0] != '#'
    requires i < |t| && FirstIndex(t, '=') == i
    ensures ParseLine(line) == Some((Strip(t[..i]), StripQuotes(Strip(t[i + 1..]))))
  {
  }

  /** What a line of the file says: nothing, or an assignment `(key, value)`. */
  type Entry = Option<(string, string)>

  /** The entries of a file, line by line. */
  function Entries(lines: seq<string>): (r: seq<Entry>)
    ensures |r| == |lines| && forall i :: 0 <= i < |lines| ==> r[i] == ParseLine(lines[i])
  {
    seq(|lines|, i requires 0 <= i < |lines| => ParseLine(lines[i]))
  }

  /** The effect of one entry on the environment: a new variable is added, an existing one kept. */
  function ApplyEntry(env: map<string, string>, entry: Entry): map<string, string>
  {
    match entry
    case None => env
    case Some((key, value)) => if key in env then env else env[key := value]
  }

  /** The environment after applying `entries` in order. */
  function ApplyEntries(env: map<string, string>, entries: seq<Entry>): map<string, string>
  {
    if entries == [] then env
    else ApplyEntry(ApplyEntries(env, entries[..|entries| - 1]), entries[|entries| - 1])
  }

  predicate Defines(entry: Entry, key: string) {
    entry.Some? && entry.value.0 == key
  }

  /** The index of the first entry that assigns `key`, or `|entries|` when none does. */
  function FirstDefinition(entries: seq<Entry>, key: string): (i: nat)
    ensures i <= |entries|
    ensures i < |entries| ==> Defines(entries[i], key)
    ensures forall j :: 0 <= j < i ==> !Defines(entries[j], key)
  {
    if entries == [] then 0
    else
      var front := entries[..|entries| - 1];
      var i := FirstDefinition(front, key);
      assert forall j :: 0 <= j < i ==> entries[j] == front[j];
      if i < |front| then i
      else if Defines(entries[|entries| - 1], key) then |entries| - 1
      else |entries|
  }

  /** Applying one more entry of a file. */
  lemma ApplyOneMore(env: map<string, string>, entries: seq<Entry>, i: nat)
    requires i < |entries|
    ensures ApplyEntries(env, entries[..i + 1]) == ApplyEntry(ApplyEntries(env, entries[..i]), entries[i])
  {
    assert entries[..i + 1][..i] == entries[..i];
  }

  /** A variable already in the environment is never overwritten, and no variable is removed. */
  lemma {:induction false} LoadKeepsExisting(env: map<string, string>, entries: seq<Entry>, key: string)
    requires key in env
    ensures key in ApplyEntries(env, entries) && ApplyEntries(env, entries)[key] == env[key]
  {
    if entries != [] {
      LoadKeepsExisting(env, entries[..|entries| - 1], key);
    }
  }

  /**
   * A variable not in the environment is set exactly when some entry assigns it,
   * and then to the value of the first such entry.
   */
  lemma {:induction false} LoadFirstDefinitionWins(env: map<string, string>, entries: seq<Entry>, key: string)
    requires key !in env
    ensures var result := ApplyEntries(env, entries);
            var i := FirstDefinition(entries, key);
            && (key in result <==> i < |entries|)
            && (key in result ==> entries[i] == Some((key, result[key])))
  {
    if entries != [] {
      var front := entries[..|entries| - 1];
      LoadFirstDefinitionWins(env, front, key);
      assert forall j :: 0 <= j < |front| ==> entries[j] == front[j];
    }
  }

  /** Every variable the loader adds comes from some line of the file. */
  lemma LoadOnlyAddsDefinedKeys(env: map<string, string>, lines: seq<string>, key: string)
    requires key in ApplyEntries(env, Entries(lines)) && key !in env
    ensures exists i :: 0 <= i < |lines| && Defines(ParseLine(lines[i]), key)
  {
    LoadFirstDefinitionWins(env, Entries(lines), key);
    var i := FirstDefinition(Entries(lines), key);
    assert Defines(Entries(lines)[i], key);
  }

  /** `os.environ`, which the loader updates in place. */
  class Environment {
    var vars: map<string, string>

    constructor (vars: map<string, string>)
      ensures this.vars == vars
    {
      this.vars := vars;
    }

    /** `_load_env` without python-dotenv; `dotenv` is the `.env` file's lines, `None` when it does not exist. */
    method LoadDotEnv(dotenv: Option<seq<string>>)
      modifies this
      ensures dotenv.None? ==> vars == old(vars)
      ensures dotenv.Some? ==> vars == ApplyEntries(old(vars), Entries(dotenv.value))
    {
      if dotenv.Some? {
        LoadLines(dotenv.value);
      }
    }

    /** One line of the file: an assignment to a variable not yet set is added. */
    method LoadLine(line: string)
      modifies this
      ensures vars == ApplyEntry(old(vars), ParseLine(line))
    {
      var parsed := ParseLine(line);
      if parsed.Some? {
        var (key, value) := parsed.value;
        if key !in vars {
          vars := vars[key := value];
        }
      }
    }

    /** Reads the lines of an existing `.env` file in order. */
    method LoadLines(lines: seq<string>)
      modifies this
      ensures vars == ApplyEntries(old(vars), Entries(lines))
    {
      ghost var entries := Entries(lines);
      var i := 0;
      while i < |lines|
        invariant 0 <= i <= |lines|
        invariant vars == ApplyEntries(old(vars), entries[..i])
      {
        ApplyOneMore(old(vars), entries, i);
        assert entries[i] == ParseLine(lines[i]);
        LoadLine(lines[i]);
        i := i + 1;
      }
      assert entries[..|lines|] == entries;
    }
  }
}


/**
 * The configuration constants of the command-line client, read from the
 * environment with their built-in defaults.
 */
module Settings {
  import opened Wrappers
  import opened Text
  import opened Io

  datatype Config = Config(
    baseUrl: string,
    timeout: int,
    defaultVoice: string,
    defaultQuality: int,
    defaultSpeed: real,
    defaultFormat: string,
    tempDir: Option<string>,
    outputDir: string)

  /** `os.getenv(key, default)`: a variable set to "" is returned as "". */
  function GetEnv(env: map<string, string>, key: string, default: string): (r: string)
    ensures key in env ==> r == env[key]
    ensures key !in env ==> r == default
  {
    if key in env then env[key] else default
  }

  /** `_get_env_int`: the default when the variable is unset or empty, else `int(value)`, which may raise. */
  function GetEnvInt(env: map<string, string>, key: string, default: int): (r: Result<int, Exception>)
    ensures key !in env || env[key] == "" ==> r == Success(default)
    ensures key in env && env[key] != "" ==>
              (r.Success? <==> ParseInt(env[key]).Some?) && (r.Success? ==> r.value == ParseInt(env[key]).value)
    ensures r.Failure? ==> r.error.ValueError?
  {
    if key !in env || env[key] == "" then Success(default)
    else
      match ParseInt(env[key])
      case Some(n) => Success(n)
      case None => Failure(ValueError("invalid literal for int() with base 10: '" + env[key] + "'"))
  }

  /** A variable holding a printed integer is read back as that integer, not the default. */
  lemma GetEnvIntReadsPrinted(env: map<string, string>, key: string, default: int, n: int)
    requires key in env && env[key] == IntToString(n)
    ensures GetEnvInt(env, key, default) == Success(n)
  {
    ParseIntRoundTrip(n);
  }

  /** A variable holding only whitespace is not empty, so it is a parse failure rather than the default. */
  lemma GetEnvIntBlankFails(env: map<string, string>, key: string, default: int)
    requires key in env && env[key] != "" && forall k :: 0 <= k < |env[key]| ==> IsSpace(env[key][k])
    ensures GetEnvInt(env, key, default).Failure?
  {
    ParseIntBlank(env[key]);
  }

  /** `_get_env_float`; Python's `float()` is the oracle `parseFloat`. */
  function GetEnvFloat(env: map<string, string>, key: string, default: real, parseFloat: string -> Option<real>)
    : (r: Result<real, Exception>)
    ensures key !in env || env[key] == "" ==> r == Success(default)
    ensures key in env && env[key] != "" ==> (r.Success? <==> parseFloat(env[key]).Some?)
    ensures key in env && env[key] != "" && r.Success? ==> r.value == parseFloat(env[key]).value
    ensures r.Failure? ==> r.error.ValueError?
  {
    if key !in env || env[key] == "" then Success(default)
    else
      match parseFloat(env[key])
      case Some(x) => Success(x)
      case None => Failure(ValueError("could not convert string to float: '" + env[key] + "'"))
  }

  /**
   * The module-level constants, evaluated in source order; the first variable
   * that does not parse raises and the module fails to load.
   */
  function LoadConfig(env: map<string, string>, parseFloat: string -> Option<real>): (r: Result<Config, Exception>)
    ensures r.Success? <==>
              GetEnvInt(env, "TIMEOUT", 30).Success?
              && GetEnvInt(env, "DEFAULT_QUALITY", 5).Success?
              && GetEnvFloat(env, "DEFAULT_SPEED", 1.05, parseFloat).Success?
    ensures GetEnvInt(env, "TIMEOUT", 30).Failure? ==> r == Failure(GetEnvInt(env, "TIMEOUT", 30).error)
    ensures GetEnvInt(env, "TIMEOUT", 30).Success? && GetEnvInt(env, "DEFAULT_QUALITY", 5).Failure? ==>
              r == Failure(GetEnvInt(env, "DEFAULT_QUALITY", 5).error)
    ensures r.Failure? && GetEnvInt(env, "TIMEOUT", 30).Success? && GetEnvInt(env, "DEFAULT_QUALITY", 5).Success? ==>
              r == Failure(GetEnvFloat(env, "DEFAULT_SPEED", 1.05, parseFloat).error)
    ensures r.Success? ==>
              && r.value.baseUrl == GetEnv(env, "BASE_URL", "http://localhost:8765")
              && r.value.timeout == GetEnvInt(env, "TIMEOUT", 30).value
              && r.value.defaultVoice == GetEnv(env, "DEFAULT_VOICE", "M1")
              && r.value.defaultQuality == GetEnvInt(env, "DEFAULT_QUALITY", 5).value
              && r.value.defaultSpeed == GetEnvFloat(env, "DEFAULT_SPEED", 1.05, parseFloat).value
              && r.value.defaultFormat == GetEnv(env, "DEFAULT_FORMAT", "wav")
              && r.value.outputDir == GetEnv(env, "OUTPUT_DIR", "output")
    ensures r.Success? ==> (r.value.tempDir.None? <==> "TEMP_DIR" !in env || env["TEMP_DIR"] == "")
    ensures r.Success? && r.value.tempDir.Some? ==> r.value.tempDir.value == env["TEMP_DIR"]
  {
    var baseUrl := GetEnv(env, "BASE_URL", "http://localhost:8765");
    match GetEnvInt(env, "TIMEOUT", 30)
    case Failure(e) => Failure(e)
    case Success(timeout) =>
      var defaultVoice := GetEnv(env, "DEFAULT_VOICE", "M1");
      match GetEnvInt(env, "DEFAULT_QUALITY", 5)
      case Failure(e) => Failure(e)
      case Success(defaultQuality) =>
        match GetEnvFloat(env, "DEFAULT_SPEED", 1.05, parseFloat)
        case Failure(e) => Failure(e)
        case Success(defaultSpeed) =>
          var defaultFormat := GetEnv(env, "DEFAULT_FORMAT", "wav");
          // `_get_env('TEMP_DIR', '') or None`
          var tempDir := GetEnv(env, "TEMP_DIR", "");
          var outputDir := GetEnv(env, "OUTPUT_DIR", "output");
          Success(Config(baseUrl, timeout, defaultVoice, defaultQuality, defaultSpeed, defaultFormat,
                         if tempDir == "" then None else Some(tempDir), outputDir))
  }

  /** With nothing set, every constant takes its built-in default. */
  lemma DefaultConfig(parseFloat: string -> Option<real>)
    ensures LoadConfig(map[], parseFloat)
            == Success(Config("http://localhost:8765", 30, "M1", 5, 1.05, "wav", None, "output"))
  {
  }
}
