/**
 * The Python string and path primitives the client's decision logic is built from:
 * `str.strip()`, `startswith`/`endswith`, `rstrip('/')`, `lower()`/`upper()`,
 * decimal printing (`f"{i+1}"`) and `int()` parsing, `os.path.join` and
 * `pathlib.PurePath.suffix`.
 */
module Text {
  import opened Wrappers

  /** Python's `str.isspace()`: the characters `str.strip()` and `int()` discard. */
  predicate IsSpace(c: char) {
    || c == ' '
    || ('\t' <= c <= '\r')
    || ('\U{1C}' <= c <= '\U{1F}')
    || c == '\U{85}' || c == '\U{A0}' || c == '\U{1680}'
    || ('\U{2000}' <= c <= '\U{200A}')
    || c == '\U{2028}' || c == '\U{2029}' || c == '\U{202F}' || c == '\U{205F}' || c == '\U{3000}'
  }

  /** `s.lstrip()` */
  function TrimStart(s: string): (r: string)
    ensures |r| <= |s| && r == s[|s| - |r|..]
    ensures forall k :: 0 <= k < |s| - |r| ==> IsSpace(s[k])
    ensures r != [] ==> !IsSpace(r[0])
  {
    if s != [] && IsSpace(s[0]) then TrimStart(s[1..]) else s
  }

  /** `s.rstrip()` */
  function TrimEnd(s: string): (r: string)
    ensures |r| <= |s| && r == s[..|r|]
    ensures forall k :: |r| <= k < |s| ==> IsSpace(s[k])
    ensures r != [] ==> !IsSpace(r[|r| - 1])
  {
    if s != [] && IsSpace(s[|s| - 1]) then TrimEnd(s[..|s| - 1]) else s
  }

  /** `s.strip()` */
  function Strip(s: string): (r: string)
    ensures |r| <= |s|
    ensures r != [] ==> !IsSpace(r[0]) && !IsSpace(r[|r| - 1])
  {
    TrimEnd(TrimStart(s))
  }

  /** Every character of `s` is whitespace. */
  predicate AllSpace(s: string) {
    forall k :: 0 <= k < |s| ==> IsSpace(s[k])
  }

  /** `s.lstrip()` drops exactly the whitespace before the first other character. */
  lemma {:induction false} TrimStartAt(s: string, a: nat)
    requires a <= |s| && AllSpace(s[..a]) && (a < |s| ==> !IsSpace(s[a]))
    ensures TrimStart(s) == s[a..]
    decreases a
  {
    if 0 < a {
      assert s[..a][0] == s[0];
      var tail := s[1..];
      var spaces := tail[..a - 1];
      forall k | 0 <= k < |spaces| ensures IsSpace(spaces[k]) {
        assert spaces[k] == s[..a][k + 1];
      }
      if a < |s| {
        assert tail[a - 1] == s[a];
      }
      TrimStartAt(tail, a - 1);
      assert tail[a - 1..] == s[a..];
    }
  }

  /** `s.rstrip()` drops exactly the whitespace after the last other character. */
  lemma {:induction false} TrimEndAt(s: string, b: nat)
    requires b <= |s| && AllSpace(s[b..]) && (0 < b ==> !IsSpace(s[b - 1]))
    ensures TrimEnd(s) == s[..b]
    decreases |s| - b
  {
    if b < |s| {
      assert s[b..][|s| - 1 - b] == s[|s| - 1];
      var front := s[..|s| - 1];
      forall k | 0 <= k < |front| - b ensures IsSpace(front[b..][k]) {
        assert front[b..][k] == s[b..][k];
      }
      if 0 < b {
        assert front[b - 1] == s[b - 1];
      }
      TrimEndAt(front, b);
      assert front[..b] == s[..b];
    }
  }

  /**
   * `s.strip()` is the slice `s[a..b]` whenever only whitespace lies outside
   * it and the slice neither starts nor ends with whitespace.
   */
  lemma StripUnique(s: string, a: nat, b: nat)
    requires a <= b <= |s| && AllSpace(s[..a]) && AllSpace(s[b..])
    requires a < b ==> !IsSpace(s[a]) && !IsSpace(s[b - 1])
    ensures Strip(s) == s[a..b]
  {
    if a < b {
      TrimStartAt(s, a);
      TrimEndOfTail(s, a, b);
    } else {
      AllSpaceJoined(s, a);
      TrimStartAt(s, |s|);
    }
  }

  /** Trimming the end of `s[a..]` stops at `b` when `s[b..]` is whitespace and `s[b - 1]` is not. */
  lemma TrimEndOfTail(s: string, a: nat, b: nat)
    requires a < b <= |s| && AllSpace(s[b..]) && !IsSpace(s[b - 1])
    ensures TrimEnd(s[a..]) == s[a..b]
  {
    var tail := s[a..];
    assert tail[b - a..] == s[b..];
    TrimEndAt(tail, b - a);
  }

  /** A text whose halves are whitespace is whitespace. */
  lemma AllSpaceJoined(s: string, a: nat)
    requires a <= |s| && AllSpace(s[..a]) && AllSpace(s[a..])
    ensures AllSpace(s[..|s|])
  {
    forall k | 0 <= k < |s| ensures IsSpace(s[k]) {
      if k < a { assert s[..a][k] == s[k]; } else { assert s[a..][k - a] == s[k]; }
    }
  }

  /** Where `s.strip()` lies in `s`. */
  lemma StripBounds(s: string) returns (a: nat, b: nat)
    ensures a <= b <= |s| && Strip(s) == s[a..b] && AllSpace(s[..a]) && AllSpace(s[b..])
    ensures a < b ==> !IsSpace(s[a]) && !IsSpace(s[b - 1])
  {
    a := LeadBound(s);
    var tail := s[a..];
    var m := TailBound(tail);
    b := a + m;
    SlicesOfTail(s, a, m, b);
    StripOf(s, tail, tail[..m], s[a..b]);
    if 0 < m {
      assert tail[0] == s[a] && tail[m - 1] == s[b - 1];
    }
  }

  /** The two pieces of `s[a..]` cut at `m`, as slices of `s`. */
  lemma SlicesOfTail(s: string, a: nat, m: nat, b: nat)
    requires b == a + m <= |s|
    ensures s[a..][..m] == s[a..b] && s[a..][m..] == s[b..]
  {
  }

  /** `strip()` is `rstrip()` after `lstrip()`. */
  lemma StripOf(s: string, front: string, back: string, r: string)
    requires TrimStart(s) == front && TrimEnd(front) == back && back == r
    ensures Strip(s) == r
  {
  }

  /** Where `s.lstrip()` starts in `s`. */
  lemma LeadBound(s: string) returns (a: nat)
    ensures a <= |s| && TrimStart(s) == s[a..] && AllSpace(s[..a]) && (a < |s| ==> !IsSpace(s[a]))
  {
    var front := TrimStart(s);
    a := |s| - |front|;
    if a < |s| {
      assert s[a] == front[0];
    }
  }

  /** Where `s.rstrip()` ends in `s`. */
  lemma TailBound(s: string) returns (b: nat)
    ensures b <= |s| && TrimEnd(s) == s[..b] && AllSpace(s[b..]) && (0 < b ==> !IsSpace(s[b - 1]))
  {
    var back := TrimEnd(s);
    b := |back|;
    var spaces := s[b..];
    forall k | 0 <= k < |spaces| ensures IsSpace(spaces[k]) {
      assert spaces[k] == s[b + k];
    }
  }

  /** Stripping removes characters, so a character absent before is absent after. */
  lemma StripOmits(s: string, c: char)
    requires Lacks(s, c)
    ensures Lacks(Strip(s), c)
  {
    var front := TrimStart(s);
    forall k | 0 <= k < |Strip(s)| ensures Strip(s)[k] != c {
      assert Strip(s)[k] == front[k] == s[|s| - |front| + k];
    }
  }

  /** Stripping a string that neither starts nor ends with whitespace changes nothing. */
  lemma StripKeeps(s: string)
    requires s != [] ==> !IsSpace(s[0]) && !IsSpace(s[|s| - 1])
    ensures Strip(s) == s
  {
    assert TrimStart(s) == s;
  }

  /** `s.strip()` is empty exactly when `s` is all whitespace. */
  lemma StripEmpty(s: string)
    ensures Strip(s) == [] <==> forall k :: 0 <= k < |s| ==> IsSpace(s[k])
  {
    var t := TrimStart(s);
    if t != [] {
      assert t[0] == s[|s| - |t|];
    }
  }

  /** `c not in s` */
  predicate Lacks(s: string, c: char) {
    forall k :: 0 <= k < |s| ==> s[k] != c
  }

  predicate StartsWith(s: string, prefix: string) {
    |prefix| <= |s| && s[..|prefix|] == prefix
  }

  predicate EndsWith(s: string, suffix: string) {
    |suffix| <= |s| && s[|s| - |suffix|..] == suffix
  }

  lemma EndsWithAppended(s: string, suffix: string)
    ensures EndsWith(s + suffix, suffix)
  {
    assert (s + suffix)[|s|..] == suffix;
  }

  /** `s.find(c)`, with `|s|` standing for "absent". */
  function FirstIndex(s: string, c: char): (i: nat)
    ensures i <= |s|
    ensures i < |s| ==> s[i] == c
    ensures forall k :: 0 <= k < i ==> s[k] != c
  {
    if s == [] then 0
    else if s[0] == c then 0
    else 1 + FirstIndex(s[1..], c)
  }

  /** The first occurrence of `c` is at `j` when `s[j]` is `c` and no earlier character is. */
  lemma FirstIndexAt(s: string, c: char, j: nat)
    requires j < |s| && s[j] == c && forall k :: 0 <= k < j ==> s[k] != c
    ensures FirstIndex(s, c) == j
  {
  }

  /** `s.rfind(c)`: -1 when absent. */
  function LastIndex(s: string, c: char): (i: int)
    ensures -1 <= i < |s|
    ensures i >= 0 ==> s[i] == c
    ensures forall k :: i < k < |s| ==> s[k] != c
  {
    if s == [] then -1
    else if s[|s| - 1] == c then |s| - 1
    else LastIndex(s[..|s| - 1], c)
  }

  /** `s.rstrip(c)`: every trailing `c` is removed. */
  function RStrip(s: string, c: char): (r: string)
    ensures |r| <= |s| && r == s[..|r|]
    ensures r != [] ==> r[|r| - 1] != c
    ensures forall k :: |r| <= k < |s| ==> s[k] == c
  {
    if s != [] && s[|s| - 1] == c then RStrip(s[..|s| - 1], c) else s
  }

  /** ASCII case mapping; `str.lower()` and `str.upper()` also map non-ASCII letters. */
  function LowerChar(c: char): char {
    if 'A' <= c <= 'Z' then (c as int + 32) as char else c
  }

  function UpperChar(c: char): char {
    if 'a' <= c <= 'z' then (c as int - 32) as char else c
  }

  function Lower(s: string): (r: string)
    ensures |r| == |s| && forall k :: 0 <= k < |s| ==> r[k] == LowerChar(s[k])
  {
    seq(|s|, k requires 0 <= k < |s| => LowerChar(s[k]))
  }

  function Upper(s: string): (r: string)
    ensures |r| == |s| && forall k :: 0 <= k < |s| ==> r[k] == UpperChar(s[k])
  {
    seq(|s|, k requires 0 <= k < |s| => UpperChar(s[k]))
  }

  // ---------------------------------------------------------------------------
  // Decimal numbers: `f"{n}"` and `int(s)`
  // ---------------------------------------------------------------------------

  predicate IsDigit(c: char) {
    '0' <= c <= '9'
  }

  function DigitChar(d: nat): (c: char)
    requires d < 10
    ensures IsDigit(c)
  {
    ('0' as int + d) as char
  }

  function DigitValue(c: char): nat
    requires IsDigit(c)
  {
    c as int - '0' as int
  }

  predicate AllDigits(s: string) {
    forall k :: 0 <= k < |s| ==> IsDigit(s[k])
  }

  /** The number a string of digits denotes. */
  function DigitsValue(s: string): nat
    requires AllDigits(s)
  {
    if s == [] then 0 else DigitsValue(s[..|s| - 1]) * 10 + DigitValue(s[|s| - 1])
  }

  /** `str(n)` for a natural number: no sign, no leading zero. */
  function NatToString(n: nat): (s: string)
    ensures s != [] && AllDigits(s)
    ensures |s| > 1 ==> s[0] != '0'
  {
    if n < 10 then [DigitChar(n)] else NatToString(n / 10) + [DigitChar(n % 10)]
  }

  /** `str(n)` */
  function IntToString(n: int): (s: string)
  {
    if n < 0 then "-" + NatToString(-n) else NatToString(n)
  }

  /** Printing a natural number and reading its digits back gives the number. */
  lemma {:induction false} NatToStringValue(n: nat)
    ensures DigitsValue(NatToString(n)) == n
  {
    if n >= 10 {
      NatToStringValue(n / 10);
      var s := NatToString(n);
      assert s[..|s| - 1] == NatToString(n / 10);
    }
  }

  /** Distinct numbers print differently, so `output_{i+1}` names never collide. */
  lemma NatToStringInjective(a: nat, b: nat)
    requires a != b
    ensures NatToString(a) != NatToString(b)
  {
    NatToStringValue(a);
    NatToStringValue(b);
  }

  /**
   * The digits of a base-10 `int()` literal: decimal digits, where an underscore
   * may separate two digits.
   */
  predicate IsDigitGroup(s: string) {
    && s != []
    && IsDigit(s[0]) && IsDigit(s[|s| - 1])
    && (forall k :: 0 <= k < |s| ==> IsDigit(s[k]) || s[k] == '_')
    && (forall k :: 0 <= k < |s| - 1 ==> !(s[k] == '_' && s[k + 1] == '_'))
  }

  function RemoveUnderscores(s: string): (r: string)
    requires forall k :: 0 <= k < |s| ==> IsDigit(s[k]) || s[k] == '_'
    ensures AllDigits(r)
    ensures AllDigits(s) ==> r == s
  {
    if s == [] then []
    else if s[|s| - 1] == '_' then RemoveUnderscores(s[..|s| - 1])
    else RemoveUnderscores(s[..|s| - 1]) + [s[|s| - 1]]
  }

  /** The value of a digit group, or `None` when `s` is not one. */
  function ParseDigitGroup(s: string): (r: Option<nat>)
  {
    if IsDigitGroup(s) then Some(DigitsValue(RemoveUnderscores(s))) else None
  }

  /**
   * Python's `int(s)` in base 10: surrounding whitespace is ignored, one optional
   * sign, then a digit group. `None` stands for the `ValueError` it raises.
   */
  function ParseInt(s: string): (r: Option<int>)
    ensures r.Some? ==> Strip(s) != []
  {
    var t := Strip(s);
    if t == [] then None
    else if t[0] == '-' || t[0] == '+' then
      match ParseDigitGroup(t[1..])
      case None => None
      case Some(magnitude) => Some(if t[0] == '-' then -(magnitude as int) else magnitude)
    else
      match ParseDigitGroup(t)
      case None => None
      case Some(magnitude) => Some(magnitude)
  }

  lemma DigitsAreDigitGroup(s: string)
    requires s != [] && AllDigits(s)
    ensures ParseDigitGroup(s) == Some(DigitsValue(s))
  {
  }

  /** A string that starts with a digit or '-' and ends with a digit has nothing to strip. */
  lemma StripNumeral(s: string)
    requires s != [] && (IsDigit(s[0]) || s[0] == '-') && IsDigit(s[|s| - 1])
    ensures Strip(s) == s
  {
    StripKeeps(s);
  }

  /** `int()` of a plain digit string. */
  lemma ParseDigitString(s: string)
    requires s != [] && AllDigits(s)
    ensures ParseInt(s) == Some(DigitsValue(s))
  {
    StripNumeral(s);
    DigitsAreDigitGroup(s);
  }

  /** `int()` of a minus sign followed by a plain digit string. */
  lemma ParseNegatedDigitString(s: string)
    requires s != [] && AllDigits(s)
    ensures ParseInt("-" + s) == Some(-(DigitsValue(s) as int))
  {
    var n := "-" + s;
    assert n[1..] == s;
    StripNumeral(n);
    DigitsAreDigitGroup(s);
  }

  /** `int(str(n)) == n` */
  lemma ParseIntRoundTrip(n: int)
    ensures ParseInt(IntToString(n)) == Some(n)
  {
    var m: nat := if n < 0 then -n else n;
    NatToStringValue(m);
    if n < 0 {
      ParseNegatedDigitString(NatToString(m));
    } else {
      ParseDigitString(NatToString(m));
    }
  }

  /** A value made of whitespace only is not an integer. */
  lemma ParseIntBlank(s: string)
    requires forall k :: 0 <= k < |s| ==> IsSpace(s[k])
    ensures ParseInt(s) == None
  {
    StripEmpty(s);
  }

  // ---------------------------------------------------------------------------
  // Paths
  // ---------------------------------------------------------------------------

  /** The final path component: what follows the last '/'. */
  function BaseName(path: string): (r: string)
    ensures forall k :: 0 <= k < |r| ==> r[k] != '/'
  {
    path[LastIndex(path, '/') + 1..]
  }

  /**
   * `pathlib.PurePath(path).suffix`: from the last '.' of the final component,
   * provided that '.' is neither its first nor its last character; "" otherwise.
   */
  function Suffix(path: string): (r: string)
    ensures r != [] ==> r[0] == '.' && |r| >= 2
  {
    var name := BaseName(path);
    var i := LastIndex(name, '.');
    if 0 < i < |name| - 1 then
      name[i..]
    else ""
  }

  /** `os.path.join(dir, name)` for a relative `name`. */
  function JoinPath(dir: string, name: string): (r: string)
    ensures EndsWith(r, name)
  {
    if dir == [] then name
    else if dir[|dir| - 1] == '/' then (EndsWithAppended(dir, name); dir + name)
    else (EndsWithAppended(dir + "/", name); dir + "/" + name)
  }

  /** The last component of `dir` joined with a plain file name is that file name. */
  lemma BaseNameOfJoin(dir: string, name: string)
    requires Lacks(name, '/')
    ensures BaseName(JoinPath(dir, name)) == name
  {
    var p := JoinPath(dir, name);
    var i := LastIndex(p, '/');
    var start := |p| - |name|;
    assert p[start..] == name;
    forall k | start <= k < |p| ensures p[k] != '/' {
      assert p[k] == name[k - start];
    }
    if dir != [] {
      assert p[start - 1] == '/';
    }
    assert i == start - 1;
  }

  /** A file name `stem.ext` under any directory has suffix `.ext`. */
  lemma SuffixOfJoin(dir: string, stem: string, ext: string)
    requires stem != [] && ext != []
    requires Lacks(stem, '/') && Lacks(ext, '/') && Lacks(ext, '.')
    ensures Suffix(JoinPath(dir, stem + "." + ext)) == "." + ext
  {
    var name := stem + "." + ext;
    DottedName(stem, ext);
    BaseNameOfJoin(dir, name);
    DottedTail(stem, ext);
  }

  /** In `stem.ext`, with no separator in either part and no dot in `ext`, the last dot is the one added. */
  lemma DottedName(stem: string, ext: string)
    requires Lacks(stem, '/') && Lacks(ext, '/') && Lacks(ext, '.')
    ensures Lacks(stem + "." + ext, '/')
    ensures LastIndex(stem + "." + ext, '.') == |stem|
  {
    var name := stem + "." + ext;
    forall k | 0 <= k < |name| ensures name[k] != '/' && (k > |stem| ==> name[k] != '.') {
      DottedChar(stem, ext, k);
    }
    LastIndexAt(name, '.', |stem|);
  }

  /** What follows the stem of `stem.ext` is `.ext`. */
  lemma DottedTail(stem: string, ext: string)
    ensures (stem + "." + ext)[|stem|..] == "." + ext
  {
    assert stem + "." + ext == stem + ("." + ext);
  }

  /** The characters of `stem.ext`, position by position. */
  lemma DottedChar(stem: string, ext: string, k: nat)
    requires k < |stem| + 1 + |ext|
    ensures (stem + "." + ext)[k] == if k < |stem| then stem[k] else if k == |stem| then '.' else ext[k - |stem| - 1]
  {
  }

  /** The last occurrence of `c` is at `j` when `s[j]` is `c` and no later character is. */
  lemma LastIndexAt(s: string, c: char, j: nat)
    requires j < |s| && s[j] == c && forall k :: j < k < |s| ==> s[k] != c
    ensures LastIndex(s, c) == j
  {
  }

  /** Two names joined onto the same directory give the same path only if they are equal. */
  lemma JoinPathInjective(dir: string, a: string, b: string)
    requires JoinPath(dir, a) == JoinPath(dir, b)
    ensures a == b
  {
    var p := JoinPath(dir, a);
    var prefix := if dir == [] then "" else if dir[|dir| - 1] == '/' then dir else dir + "/";
    assert p == prefix + a && p == prefix + b;
    assert a == p[|prefix|..] == b;
  }
}
