/** The JavaScript string operations the core relies on, over `seq<char>`:
    `trim`, `join`, `slice`, `indexOf`, `lastIndexOf`, `includes`,
    `toLowerCase`, `replace` with a string pattern, and the decimal
    rendering of an array index inside a template string. */
module Strings {

  /** The characters `String.prototype.trim` removes: the ECMAScript
      WhiteSpace and LineTerminator code points. */
  predicate IsWhitespace(c: char) {
    || c == ' ' || c == '\t' || c == '\n' || c == '\r'
    || c == '\U{000B}' || c == '\U{000C}' || c == '\U{00A0}' || c == '\U{1680}'
    || ('\U{2000}' <= c <= '\U{200A}')
    || c == '\U{2028}' || c == '\U{2029}' || c == '\U{202F}' || c == '\U{205F}'
    || c == '\U{3000}' || c == '\U{FEFF}'
  }

  predicate AllWhitespace(s: string) {
    forall i :: 0 <= i < |s| ==> IsWhitespace(s[i])
  }

  predicate StartsWith(s: string, prefix: string) {
    |prefix| <= |s| && s[..|prefix|] == prefix
  }

  predicate EndsWith(s: string, suffix: string) {
    |suffix| <= |s| && s[|s| - |suffix|..] == suffix
  }

  /** Drops the leading whitespace: what is left is a suffix of `s`. */
  function TrimStart(s: string): (r: string)
    ensures |r| <= |s| && r == s[|s| - |r|..]
    ensures AllWhitespace(s[..|s| - |r|])
    ensures r == [] || !IsWhitespace(r[0])
  {
    if s != [] && IsWhitespace(s[0]) then
      var r := TrimStart(s[1..]);
      assert s[..|s| - |r|] == [s[0]] + s[1..][..|s| - 1 - |r|];
      r
    else
      s
  }

  /** Drops the trailing whitespace: what is left is a prefix of `s`. */
  function TrimEnd(s: string): (r: string)
    ensures |r| <= |s| && r == s[..|r|]
    ensures AllWhitespace(s[|r|..])
    ensures r == [] || !IsWhitespace(r[|r| - 1])
  {
    if s != [] && IsWhitespace(s[|s| - 1]) then
      var r := TrimEnd(s[..|s| - 1]);
      assert s[|r|..] == s[..|s| - 1][|r|..] + [s[|s| - 1]];
      r
    else
      s
  }

  /** `String.prototype.trim`: the result neither starts nor ends with
      whitespace; TrimExact says which infix of `s` it is. */
  function Trim(s: string): (r: string)
    ensures |r| <= |s|
    ensures r == [] || (!IsWhitespace(r[0]) && !IsWhitespace(r[|r| - 1]))
  {
    TrimEnd(TrimStart(s))
  }

  lemma {:induction false} TrimStartExact(s: string, a: nat)
    requires a <= |s| && AllWhitespace(s[..a])
    requires a == |s| || !IsWhitespace(s[a])
    ensures TrimStart(s) == s[a..]
    decreases a
  {
    if a > 0 {
      assert IsWhitespace(s[..a][0]);
      assert s[1..][..a - 1] == s[1..a];
      assert s[1..][a - 1..] == s[a..];
      TrimStartExact(s[1..], a - 1);
    }
  }

  lemma {:induction false} TrimEndExact(s: string, b: nat)
    requires b <= |s| && AllWhitespace(s[b..])
    requires b == 0 || !IsWhitespace(s[b - 1])
    ensures TrimEnd(s) == s[..b]
    decreases |s| - b
  {
    if b < |s| {
      assert IsWhitespace(s[b..][|s| - 1 - b]);
      assert s[..|s| - 1][b..] == s[b..|s| - 1];
      assert s[..|s| - 1][..b] == s[..b];
      TrimEndExact(s[..|s| - 1], b);
    }
  }

  lemma AllWhitespaceJoin(s: string, a: nat)
    requires a <= |s| && AllWhitespace(s[..a]) && AllWhitespace(s[a..])
    ensures AllWhitespace(s[..|s|])
  {
    forall i | 0 <= i < |s| ensures IsWhitespace(s[..|s|][i]) {
      if i < a { assert s[..a][i] == s[i]; } else { assert s[a..][i - a] == s[i]; }
    }
  }

  /** Trimming yields exactly the infix `s[a..b]` when everything outside it
      is whitespace and the infix has no whitespace at either end. */
  lemma TrimExact(s: string, a: nat, b: nat)
    requires a <= b <= |s|
    requires AllWhitespace(s[..a]) && AllWhitespace(s[b..])
    requires a < b ==> !IsWhitespace(s[a]) && !IsWhitespace(s[b - 1])
    ensures Trim(s) == s[a..b]
  {
    if a == b {
      AllWhitespaceJoin(s, a);
      TrimStartExact(s, |s|);
      assert TrimStart(s) == [];
    } else {
      TrimStartExact(s, a);
      TrimEndInfix(s, a, b);
    }
  }

  /** A string with no whitespace at either end is its own trim. */
  lemma TrimUnpadded(s: string)
    requires s != [] ==> !IsWhitespace(s[0]) && !IsWhitespace(s[|s| - 1])
    ensures Trim(s) == s
  {
    assert s[..0] == [] && s[|s|..] == [];
    TrimExact(s, 0, |s|);
    assert s[0..|s|] == s;
  }

  lemma TrimEndInfix(s: string, a: nat, b: nat)
    requires a < b <= |s| && AllWhitespace(s[b..]) && !IsWhitespace(s[b - 1])
    ensures TrimEnd(s[a..]) == s[a..b]
  {
    var t := s[a..];
    assert t[b - a..] == s[b..];
    assert t[b - a - 1] == s[b - 1];
    TrimEndExact(t, b - a);
    assert t[..b - a] == s[a..b];
  }

  /** A string that starts with a non-whitespace character trims to a
      nonempty string. */
  lemma NonBlankTrim(s: string)
    requires |s| > 0 && !IsWhitespace(s[0])
    ensures |Trim(s)| > 0
  {
    assert s[..0] == [];
    TrimStartExact(s, 0);
    assert TrimStart(s) == s;
  }

  /** Trimming twice is trimming once. */
  lemma TrimIdempotent(s: string)
    ensures Trim(Trim(s)) == Trim(s)
  {
    var t := Trim(s);
    assert t[..0] == [] && t[|t|..] == [];
    TrimExact(t, 0, |t|);
    assert t[0..|t|] == t;
  }

  /** `Array.prototype.join`. */
  function Join(parts: seq<string>, sep: string): (r: string)
    ensures parts == [] ==> r == []
    ensures |parts| > 0 ==> StartsWith(r, parts[0]) && EndsWith(r, parts[|parts| - 1])
  {
    if |parts| == 0 then ""
    else if |parts| == 1 then parts[0]
    else
      var rest := Join(parts[1..], sep);
      assert parts[1..][|parts| - 2] == parts[|parts| - 1];
      assert (parts[0] + sep + rest)[..|parts[0]|] == parts[0];
      parts[0] + sep + rest
  }

  function DigitChar(d: nat): char
    requires d < 10
  {
    "0123456789"[d]
  }

  /** The decimal rendering of a natural number, as a template string
      renders an array index. */
  function NatToString(n: nat): (r: string)
    ensures |r| > 0
    ensures forall i :: 0 <= i < |r| ==> '0' <= r[i] <= '9'
  {
    if n < 10 then [DigitChar(n)] else NatToString(n / 10) + [DigitChar(n % 10)]
  }

  /** Reads a string of decimal digits back as a number. */
  function ParseNat(s: string): nat
    requires forall i :: 0 <= i < |s| ==> '0' <= s[i] <= '9'
  {
    if s == [] then 0 else 10 * ParseNat(s[..|s| - 1]) + (s[|s| - 1] as int - '0' as int)
  }

  /** The decimal rendering loses nothing: distinct indices give distinct paths. */
  lemma {:induction false} NatToStringRoundTrip(n: nat)
    ensures ParseNat(NatToString(n)) == n
  {
    var r := NatToString(n);
    if n >= 10 {
      NatToStringRoundTrip(n / 10);
      assert r[..|r| - 1] == NatToString(n / 10);
    }
  }

  function LowerChar(c: char): char {
    if 'A' <= c <= 'Z' then (c as int + 32) as char else c
  }

  /** `String.prototype.toLowerCase`, for the ASCII letters. */
  function Lower(s: string): (r: string)
    ensures |r| == |s|
    ensures forall i :: 0 <= i < |s| ==> r[i] == LowerChar(s[i])
  {
    if s == [] then [] else [LowerChar(s[0])] + Lower(s[1..])
  }

  /** Lower-casing twice is lower-casing once. */
  lemma LowerIdempotent(s: string)
    ensures Lower(Lower(s)) == Lower(s)
  {
  }

  /** `sub` occurs in `s` at position `j`. */
  predicate OccursAt(s: string, sub: string, j: int) {
    0 <= j && j + |sub| <= |s| && s[j..j + |sub|] == sub
  }

  /** `s.indexOf(sub, k)`: the first position at or after `k` where `sub`
      occurs, or -1. */
  function IndexFrom(s: string, sub: string, k: nat): (i: int)
    requires k <= |s|
    ensures i == -1 || (k <= i && OccursAt(s, sub, i))
    ensures i >= 0 ==> forall j :: k <= j < i ==> !OccursAt(s, sub, j)
    ensures i == -1 ==> forall j :: k <= j ==> !OccursAt(s, sub, j)
    decreases |s| - k
  {
    if k + |sub| > |s| then -1
    else if s[k..k + |sub|] == sub then k
    else IndexFrom(s, sub, k + 1)
  }

  /** `s.indexOf(sub)`. */
  function IndexOf(s: string, sub: string): int {
    IndexFrom(s, sub, 0)
  }

  /** `s.includes(sub)`. */
  predicate Contains(s: string, sub: string) {
    IndexOf(s, sub) >= 0
  }

  /** `s.indexOf(c)` for a one-character string. */
  function IndexOfChar(s: string, c: char): (i: int)
    ensures -1 <= i < |s|
    ensures i >= 0 ==> s[i] == c && forall j :: 0 <= j < i ==> s[j] != c
    ensures i == -1 <==> c !in s
  {
    if s == [] then -1
    else if s[0] == c then 0
    else
      var k := IndexOfChar(s[1..], c);
      if k < 0 then -1 else k + 1
  }

  /** `s.lastIndexOf(c)` for a one-character string. */
  function LastIndexOfChar(s: string, c: char): (i: int)
    ensures -1 <= i < |s|
    ensures i >= 0 ==> s[i] == c && forall j :: i < j < |s| ==> s[j] != c
    ensures i == -1 <==> c !in s
  {
    if s == [] then -1
    else if s[|s| - 1] == c then |s| - 1
    else
      var k := LastIndexOfChar(s[..|s| - 1], c);
      assert c in s[..|s| - 1] ==> c in s;
      assert c in s ==> c in s[..|s| - 1] by {
        if c in s { var j :| 0 <= j < |s| && s[j] == c; assert s[..|s| - 1][j] == c; }
      }
      k
  }

  /** `s.slice(from, to)` for non-negative bounds: both are clamped to the
      length, and an empty range gives the empty string. */
  function Slice(s: string, from: nat, to: nat): (r: string)
    ensures from < to <= |s| ==> r == s[from..to]
    ensures to <= from || |s| <= from ==> r == []
    ensures |s| <= to && from < |s| ==> r == s[from..]
  {
    var a := if from < |s| then from else |s|;
    var b := if to < |s| then to else |s|;
    if a < b then s[a..b] else []
  }

  /** `sub` occurs somewhere in `s` exactly when `includes` says so. */
  lemma ContainsIff(s: string, sub: string)
    ensures Contains(s, sub) <==> exists j :: OccursAt(s, sub, j)
  {
    var i := IndexOf(s, sub);
    if i >= 0 {
      assert OccursAt(s, sub, i);
    }
  }

  /** The replacement text that `String.prototype.replace` inserts for a
      string pattern (GetSubstitution, section 22.1.3.19.1 of ECMA-262). A
      string pattern has no capture groups, so only `$$`, `$&`, `` $` `` and
      `$'` are expanded; every other `$` stands for itself. */
  function Substitution(replacement: string, matched: string, before: string, after: string): string
    decreases |replacement|
  {
    if replacement == [] then []
    else if |replacement| >= 2 && replacement[0] == '$' && replacement[1] in "$&`'" then
      var expansion :=
        if replacement[1] == '$' then "$"
        else if replacement[1] == '&' then matched
        else if replacement[1] == '`' then before
        else after;
      expansion + Substitution(replacement[2..], matched, before, after)
    else
      [replacement[0]] + Substitution(replacement[1..], matched, before, after)
  }

  /** A replacement without `$` is inserted as it is. */
  lemma {:induction false} SubstitutionLiteral(replacement: string, matched: string, before: string, after: string)
    requires '$' !in replacement
    ensures Substitution(replacement, matched, before, after) == replacement
    decreases |replacement|
  {
    if replacement != [] {
      assert '$' !in replacement[1..] by {
        forall k | 0 <= k < |replacement[1..]| ensures replacement[1..][k] != '$' {
          assert replacement[1..][k] == replacement[k + 1];
        }
      }
      SubstitutionLiteral(replacement[1..], matched, before, after);
    }
  }

  /** `s.replace(pattern, replacement)` with a string pattern: the first
      occurrence, if any, is replaced by the expanded replacement. */
  function ReplaceFirst(s: string, pattern: string, replacement: string): string {
    var i := IndexOf(s, pattern);
    if i < 0 then s
    else s[..i] + Substitution(replacement, pattern, s[..i], s[i + |pattern|..]) + s[i + |pattern|..]
  }

  /** Without an occurrence nothing changes. */
  lemma ReplaceFirstAbsent(s: string, pattern: string, replacement: string)
    requires forall j :: !OccursAt(s, pattern, j)
    ensures ReplaceFirst(s, pattern, replacement) == s
  {
  }

  /** Only the first occurrence, at `i`, is replaced. */
  lemma ReplaceFirstAt(s: string, pattern: string, replacement: string, i: nat)
    requires OccursAt(s, pattern, i)
    requires forall j :: 0 <= j < i ==> !OccursAt(s, pattern, j)
    ensures ReplaceFirst(s, pattern, replacement)
            == s[..i] + Substitution(replacement, pattern, s[..i], s[i + |pattern|..]) + s[i + |pattern|..]
  {
    assert IndexOf(s, pattern) == i;
  }

  /** The concatenation of a sequence of strings (what a reader of a text
      stream accumulates from its chunks). */
  function Concat(parts: seq<string>): string {
    if parts == [] then [] else parts[0] + Concat(parts[1..])
  }
}
