/**
 * JavaScript's view of text, as far as a skill file needs it: what white space is and how it is trimmed,
 * lines and their ends, searching for a part of a text, and quoting as JSON writes it. Characters are Unicode
 * scalar values.
 */
module SkillText {
  /** What `\s` matches and `trim` removes. */
  predicate IsSpace(c: char) {
    || '\U{0009}' <= c <= '\U{000D}' || c == ' ' || c == '\U{00A0}' || c == '\U{1680}' || '\U{2000}' <= c <= '\U{200A}'
    || c == '\U{2028}' || c == '\U{2029}' || c == '\U{202F}' || c == '\U{205F}' || c == '\U{3000}' || c == '\U{FEFF}'
  }

  /** By code point: what ECMAScript counts as white space and as line terminators. */
  lemma SpaceCodes(c: char)
    ensures var n := c as int;
            IsSpace(c) <==> n in {9, 10, 11, 12, 13, 32, 160, 5760, 8232, 8233, 8239, 8287, 12288, 65279} || 8192 <= n < 8203
    ensures EndsLine(c) <==> c as int in {10, 13, 8232, 8233}
  {
  }

  /** What `.` does not match. */
  predicate EndsLine(c: char) {
    c == '\n' || c == '\r' || c == '\U{2028}' || c == '\U{2029}'
  }

  function TrimStart(s: string): string {
    if s != "" && IsSpace(s[0]) then TrimStart(s[1..]) else s
  }

  function TrimEnd(s: string): string {
    if s != "" && IsSpace(s[|s| - 1]) then TrimEnd(s[..|s| - 1]) else s
  }

  function Trim(s: string): string {
    TrimEnd(TrimStart(s))
  }

  /** No white space at either end. */
  predicate Trimmed(s: string) {
    s == "" || (!IsSpace(s[0]) && !IsSpace(s[|s| - 1]))
  }

  lemma {:induction false} TrimEndIsPrefix(s: string)
    ensures |TrimEnd(s)| <= |s| && TrimEnd(s) == s[..|TrimEnd(s)|]
    ensures TrimEnd(s) == "" || !IsSpace(TrimEnd(s)[|TrimEnd(s)| - 1])
    ensures forall i :: |TrimEnd(s)| <= i < |s| ==> IsSpace(s[i])
  {
    if s != "" && IsSpace(s[|s| - 1]) {
      TrimEndIsPrefix(s[..|s| - 1]);
    }
  }

  lemma {:induction false} TrimStartIsSuffix(s: string)
    ensures |TrimStart(s)| <= |s| && TrimStart(s) == s[|s| - |TrimStart(s)|..]
    ensures TrimStart(s) == "" || !IsSpace(TrimStart(s)[0])
    ensures forall i :: 0 <= i < |s| - |TrimStart(s)| ==> IsSpace(s[i])
  {
    if s != "" && IsSpace(s[0]) {
      var rest := s[1..];
      TrimStartIsSuffix(rest);
      var k := |rest| - |TrimStart(rest)|;
      assert rest[k..] == s[k + 1..];
      assert forall i :: 0 < i <= k ==> s[i] == rest[i - 1];
    }
  }

  /** A trimmed text is what lies between the white space at its ends. */
  lemma TrimIsTrimmed(s: string)
    ensures Trimmed(Trim(s))
    ensures Trim(s) == s <==> Trimmed(s)
    ensures forall c :: c in s && !IsSpace(c) ==> c in Trim(s)
  {
    TrimStartIsSuffix(s);
    TrimEndIsPrefix(TrimStart(s));
  }

  /** White space around a trimmed text goes. */
  lemma {:induction false} TrimAround(before: string, s: string, after: string)
    requires Trimmed(s) && (forall c :: c in before ==> IsSpace(c)) && (forall c :: c in after ==> IsSpace(c))
    ensures Trim(before + s + after) == s
  {
    var all := before + s + after;
    TrimStartIsSuffix(all);
    TrimEndIsPrefix(TrimStart(all));
    var start, kept := |all| - |TrimStart(all)|, |Trim(all)|;
    if s != "" {
      assert all[|before|] == s[0] && all[|before| + |s| - 1] == s[|s| - 1];
      assert start == |before|;
      assert TrimStart(all)[|s| - 1] == s[|s| - 1];
      assert kept == |s|;
    } else {
      assert forall i :: 0 <= i < |all| ==> IsSpace(all[i]);
    }
  }

  // ---- lines -----------------------------------------------------------------------------------

  /** `\r\n` and a lone `\r` become `\n`. */
  function Normalize(s: string): string
    decreases |s|
  {
    if s == "" then ""
    else if s[0] != '\r' then [s[0]] + Normalize(s[1..])
    else ['\n'] + Normalize(if |s| > 1 && s[1] == '\n' then s[2..] else s[1..])
  }

  lemma {:induction false} NormalizeJoins(a: string, b: string)
    requires a == "" || a[|a| - 1] != '\r'
    ensures Normalize(a + b) == Normalize(a) + Normalize(b)
    decreases |a|
  {
    if a == "" {
      assert a + b == b;
    } else {
      var skip := if a[0] == '\r' && |a| > 1 && a[1] == '\n' then 2 else 1;
      assert (a + b)[skip..] == a[skip..] + b && (a + b)[0] == a[0] && (|a| > 1 ==> (a + b)[1] == a[1]);
      NormalizeJoins(a[skip..], b);
    }
  }

  lemma {:induction false} NormalizeKeeps(s: string)
    requires '\r' !in s
    ensures Normalize(s) == s
    decreases |s|
  {
    if s != "" {
      NormalizeKeeps(s[1..]);
    }
  }

  lemma {:induction false} NormalizedHasNoReturn(s: string)
    ensures '\r' !in Normalize(s)
    decreases |s|
  {
    if s != "" {
      NormalizedHasNoReturn(s[if s[0] == '\r' && |s| > 1 && s[1] == '\n' then 2 else 1..]);
    }
  }

  /** `split(sep)`. */
  function Split(s: string, sep: char): (parts: seq<string>)
    ensures parts != []
    decreases |s|
  {
    if s == "" then [""]
    else if s[0] == sep then [""] + Split(s[1..], sep)
    else
      var rest := Split(s[1..], sep);
      [[s[0]] + rest[0]] + rest[1..]
  }

  lemma {:induction false} SplitOne(s: string, sep: char)
    requires sep !in s
    ensures Split(s, sep) == [s]
    decreases |s|
  {
    if s != "" {
      SplitOne(s[1..], sep);
      assert [s[0]] + s[1..] == s;
    }
  }

  lemma {:induction false} SplitMore(s: string, sep: char, rest: string)
    requires sep !in s
    ensures Split(s + [sep] + rest, sep) == [s] + Split(rest, sep)
    decreases |s|
  {
    var all := s + [sep] + rest;
    if s == "" {
      assert all[0] == sep && all[1..] == rest;
    } else {
      SplitMore(s[1..], sep, rest);
      assert [s[0]] + s[1..] == s;
      assert all[0] == s[0] && all[1..] == s[1..] + [sep] + rest;
    }
  }

  predicate OccursAt(s: string, part: string, at: nat) {
    at + |part| <= |s| && s[at..at + |part|] == part
  }

  /** `indexOf`: the first place from `at` on, or -1. */
  function IndexOf(s: string, part: string, at: nat): (i: int)
    ensures i == -1 || (at <= i && OccursAt(s, part, i))
    ensures forall k :: at <= k && OccursAt(s, part, k) ==> i != -1 && i <= k
    decreases |s| - at
  {
    if OccursAt(s, part, at) then at else if at >= |s| then -1 else IndexOf(s, part, at + 1)
  }
}
