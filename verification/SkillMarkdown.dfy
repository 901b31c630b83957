/**
 * A `SKILL.md` file: how one is written for a skill, with its block of front matter and its body, how one
 * is read, line by line, what of a skill survives the way, and when printing what was read back gives the
 * file that was written.
 */
module SkillMarkdown {
  import opened Options
  import opened SkillText

  // ---- reading ---------------------------------------------------------------------------------

  datatype Value = Text(text: string) | List(items: seq<string>)

  datatype Block = Block(block: string, body: string)

  datatype Entry = Entry(key: string, rest: string)

  const FENCE := "\n---\n"

  predicate EndsWith(s: string, end: string) {
    |end| <= |s| && s[|s| - |end|..] == end
  }

  /** The block between the first line and the closing line, and the body after it. */
  function FrontmatterBlock(raw: string): Option<Block> {
    var text := Normalize(raw);
    if !("---\n" <= text) then None
    else
      var end := IndexOf(text, FENCE, 4);
      var closeAt := if end == -1 && EndsWith(text, "\n---") then |text| - 4 else end;
      if closeAt == -1 then None
      else
        var after := if end == -1 then -1 else IndexOf(text, "\n", closeAt + 1);
        Some(Block(if closeAt < 4 then "" else text[4..closeAt], if after == -1 then "" else text[after + 1..]))
  }

  predicate IsKeyChar(c: char) {
    'A' <= c <= 'Z' || 'a' <= c <= 'z' || '0' <= c <= '9' || c == '_' || c == '-'
  }

  /** How many characters at the start may be a key. */
  function KeyLength(s: string): (n: nat)
    ensures n <= |s| && (forall i :: 0 <= i < n ==> IsKeyChar(s[i])) && (n < |s| ==> !IsKeyChar(s[n]))
  {
    if s == "" || !IsKeyChar(s[0]) then 0 else 1 + KeyLength(s[1..])
  }

  /** What follows a key and its colon, unless a line end of any kind is in it. */
  function RestOf(after: string): Option<string> {
    if exists c :: c in TrimStart(after) && EndsLine(c) then None else Some(Trim(TrimStart(after)))
  }

  /** `key: rest` */
  function KeyLine(line: string): Option<Entry> {
    var n := KeyLength(line);
    if n == 0 || n == |line| || line[n] != ':' then None
    else
      var rest := RestOf(line[n + 1..]);
      if rest.None? then None else Some(Entry(line[..n], rest.value))
  }

  function StripQuotes(s: string): string {
    if s != "" && s[0] == s[|s| - 1] && s[0] in {'"', '\''} then if |s| == 1 then "" else s[1..|s| - 1] else s
  }

  /** `- item`, indented or not. */
  function ItemLine(line: string): Option<string> {
    var s := TrimStart(line);
    if |s| >= 2 && s[0] == '-' && IsSpace(s[1]) then Some(StripQuotes(Trim(s[1..]))) else None
  }

  function InlineItems(parts: seq<string>): seq<string> {
    if parts == [] then []
    else
      var item := StripQuotes(Trim(parts[0]));
      (if item == "" then [] else [item]) + InlineItems(parts[1..])
  }

  /** `[a, b]`; an empty list has no items. */
  function InlineList(rest: string): seq<string>
    requires |rest| >= 2
  {
    var inner := Trim(rest[1..|rest| - 1]);
    if inner == "" then [] else InlineItems(Split(inner, ','))
  }

  predicate IsInlineList(rest: string) {
    |rest| >= 2 && rest[0] == '[' && rest[|rest| - 1] == ']'
  }

  /** `items`, and the items of the dashed lines from line `i` on. */
  function BlockItems(lines: seq<string>, i: nat, items: seq<string>): seq<string>
    decreases |lines| - i
  {
    if i >= |lines| || ItemLine(lines[i]).None? then items else BlockItems(lines, i + 1, items + [ItemLine(lines[i]).value])
  }

  predicate IsBlankOrComment(line: string) {
    Trim(line) == "" || Trim(line)[0] == '#'
  }

  /** What a `key:` line gives, with the dashed lines from line `i` on when nothing follows the key. */
  function ValueOf(rest: string, lines: seq<string>, i: nat): Value {
    if rest == "" then List(BlockItems(lines, i, [])) else if IsInlineList(rest) then List(InlineList(rest)) else Text(StripQuotes(rest))
  }

  function EntryAt(line: string): Option<Entry> {
    if IsBlankOrComment(line) then None else KeyLine(line)
  }

  /** The line after the entry at line `i`. */
  function After(rest: string, lines: seq<string>, i: nat): (next: nat)
    ensures i < next
  {
    if rest == "" then i + 1 + |BlockItems(lines, i + 1, [])| else i + 1
  }

  /** The entries of the lines from line `i` on, put over those before. */
  function Entries(lines: seq<string>, i: nat, before: map<string, Value>): map<string, Value>
    decreases |lines| - i
  {
    if i >= |lines| then before
    else
      var entry := EntryAt(lines[i]);
      if entry.None? then Entries(lines, i + 1, before)
      else Entries(lines, After(entry.value.rest, lines, i), before[entry.value.key := ValueOf(entry.value.rest, lines, i + 1)])
  }

  method CollectBlockItems(lines: seq<string>, i: nat) returns (items: seq<string>)
    requires i <= |lines|
    ensures items == BlockItems(lines, i, []) && i + |items| <= |lines|
  {
    items := [];
    for j := i to |lines|
      invariant j == i + |items| && BlockItems(lines, i, []) == BlockItems(lines, j, items)
    {
      var item := ItemLine(lines[j]);
      if item.None? {
        return;
      }
      items := items + [item.value];
    }
  }

  /** One `key:` line and any dashed lines under it. */
  method ParseFrontmatterEntry(rest: string, lines: seq<string>, i: nat) returns (value: Value, next: nat)
    requires i < |lines|
    ensures value == ValueOf(rest, lines, i + 1) && next == After(rest, lines, i) <= |lines|
  {
    if rest == "" {
      var items := CollectBlockItems(lines, i + 1);
      return List(items), i + 1 + |items|;
    }
    if IsInlineList(rest) {
      return List(InlineList(rest)), i + 1;
    }
    return Text(StripQuotes(rest)), i + 1;
  }

  method ParseFrontmatterEntries(block: string) returns (frontmatter: map<string, Value>)
    ensures frontmatter == Entries(Split(block, '\n'), 0, map[])
  {
    frontmatter := map[];
    var lines := Split(block, '\n');
    var i := 0;
    while i < |lines|
      invariant 0 <= i <= |lines|
      invariant Entries(lines, 0, map[]) == Entries(lines, i, frontmatter)
    {
      var entry := EntryAt(lines[i]);
      if entry.None? {
        i := i + 1;
        continue;
      }
      var value;
      value, i := ParseFrontmatterEntry(entry.value.rest, lines, i);
      frontmatter := frontmatter[entry.value.key := value];
    }
  }

  datatype Skill = Skill(name: string, description: Option<string>, body: string)

  /** The text at `key`, when there is one that is not blank. */
  function Named(frontmatter: map<string, Value>, key: string): Option<string> {
    if key in frontmatter && frontmatter[key].Text? && Trim(frontmatter[key].text) != "" then Some(Trim(frontmatter[key].text)) else None
  }

  /** A skill file as it is read; `fallback` is the name its path gives. */
  function Read(raw: string, fallback: string): Skill {
    var parsed := FrontmatterBlock(raw);
    if parsed.None? then Skill(fallback, None, raw)
    else
      var frontmatter := Entries(Split(parsed.value.block, '\n'), 0, map[]);
      var name := Named(frontmatter, "name");
      Skill(if name.Some? then name.value else fallback, Named(frontmatter, "description"), parsed.value.body)
  }

  // ---- writing ---------------------------------------------------------------------------------

  function HexDigit(n: nat): char
    requires n < 16
  {
    "0123456789abcdef"[n]
  }

  /** How `JSON.stringify` writes a character. */
  function EscapedChar(c: char): string {
    if c == '"' || c == '\\' then ['\\', c]
    else if c == '\n' then "\\n"
    else if c == '\r' then "\\r"
    else if c == '\t' then "\\t"
    else if c == '\U{0008}' then "\\b"
    else if c == '\U{000C}' then "\\f"
    else if c < ' ' then "\\u00" + [HexDigit(c as int / 16), HexDigit(c as int % 16)]
    else [c]
  }

  function Escaped(s: string): string {
    if s == "" then "" else EscapedChar(s[0]) + Escaped(s[1..])
  }

  function Quoted(s: string): string {
    "\"" + Escaped(s) + "\""
  }

  /** One line of the block. */
  function Line(key: string, s: string): string {
    key + ": " + Quoted(s)
  }

  predicate Described(skill: Skill) {
    skill.description.Some? && skill.description.value != ""
  }

  function Front(skill: Skill): string {
    var name := Line("name", skill.name);
    if Described(skill) then name + "\n" + Line("description", skill.description.value) else name
  }

  /** A skill file as it is written. */
  function Printed(skill: Skill): string {
    "---\n" + Front(skill) + "\n---\n\n" + Trim(skill.body) + "\n"
  }

  /** By code point: the short escapes of JSON, six characters for any other control character, and all else as it is. */
  lemma EscapesAsJson(c: char)
    ensures var n, e := c as int, EscapedChar(c);
            match n
            case 34 => e == "\\\""
            case 92 => e == "\\\\"
            case 8 => e == "\\b"
            case 9 => e == "\\t"
            case 10 => e == "\\n"
            case 12 => e == "\\f"
            case 13 => e == "\\r"
            case _ => if n < 32 then |e| == 6 && e[..4] == "\\u00" && HexValue(e[4]) * 16 + HexValue(e[5]) == n else e == [c]
  {
  }

  function HexValue(c: char): nat {
    if '0' <= c <= '9' then c as nat - 48 else if 'a' <= c <= 'f' then c as nat - 87 else 0
  }

  // ---- what escaping does ----------------------------------------------------------------------

  /** A character that stands for itself in a JSON string. */
  predicate IsPlain(c: char) {
    c != '"' && c != '\\' && c >= ' '
  }

  lemma EscapedCharIsPrintable(c: char)
    ensures forall d :: d in EscapedChar(c) ==> d >= ' '
    ensures forall d :: d in EscapedChar(c) && d != c ==> d <= '~'
    ensures IsPlain(c) ==> EscapedChar(c) == [c]
    ensures !IsPlain(c) ==> |EscapedChar(c)| >= 2 && EscapedChar(c)[0] == '\\'
  {
  }

  lemma {:induction false} EscapedIsPrintable(s: string)
    ensures forall d :: d in Escaped(s) ==> d >= ' '
    ensures forall d :: d in Escaped(s) && d > '~' ==> d in s
    ensures forall d :: d in s && d > '~' ==> d in Escaped(s)
    decreases |s|
  {
    if s != "" {
      EscapedCharIsPrintable(s[0]);
      EscapedIsPrintable(s[1..]);
      assert forall d :: d in Escaped(s) <==> d in EscapedChar(s[0]) || d in Escaped(s[1..]);
      assert forall d :: d in s <==> d == s[0] || d in s[1..];
    }
  }

  function Backslashes(s: string): nat {
    if s == "" then 0 else (if s[0] == '\\' then 1 else 0) + Backslashes(s[1..])
  }

  lemma {:induction false} BackslashesJoin(a: string, b: string)
    ensures Backslashes(a + b) == Backslashes(a) + Backslashes(b)
    decreases |a|
  {
    if a == "" {
      assert a + b == b;
    } else {
      BackslashesJoin(a[1..], b);
      assert (a + b)[1..] == a[1..] + b;
    }
  }

  predicate AllPlain(s: string) {
    forall c :: c in s ==> IsPlain(c)
  }

  /** Escaping leaves a text alone exactly when every character stands for itself; otherwise it adds backslashes. */
  lemma {:induction false} EscapedIffPlain(s: string)
    ensures AllPlain(s) ==> Escaped(s) == s
    ensures Backslashes(Escaped(s)) >= Backslashes(s) + if AllPlain(s) then 0 else 1
    decreases |s|
  {
    if s != "" {
      EscapedIffPlain(s[1..]);
      EscapedCharIsPrintable(s[0]);
      BackslashesJoin(EscapedChar(s[0]), Escaped(s[1..]));
      assert s == [s[0]] + s[1..];
      assert AllPlain(s) <==> IsPlain(s[0]) && AllPlain(s[1..]);
      OneCharBackslashes(s[0]);
    }
  }

  lemma OneCharBackslashes(c: char)
    ensures Backslashes(EscapedChar(c)) >= (if c == '\\' then 1 else 0) + if IsPlain(c) then 0 else 1
  {
    var e := EscapedChar(c);
    EscapedCharIsPrintable(c);
    assert e[1..] != "" ==> Backslashes(e) == (if e[0] == '\\' then 1 else 0) + Backslashes(e[1..]);
    if c == '\\' {
      assert e[1..] == ['\\'] && e[1..][1..] == "";
    }
  }

  /** Only what is not white space can be a backslash, so trimming keeps them. */
  lemma {:induction false} BackslashesOfSpace(s: string)
    requires forall c :: c in s ==> IsSpace(c)
    ensures Backslashes(s) == 0
    decreases |s|
  {
    if s != "" {
      assert s[0] in s;
      BackslashesOfSpace(s[1..]);
    }
  }

  lemma TrimKeepsBackslashes(s: string)
    ensures Backslashes(Trim(s)) == Backslashes(s)
  {
    TrimStartIsSuffix(s);
    TrimEndIsPrefix(TrimStart(s));
    var t := TrimStart(s);
    var lead, tail := s[..|s| - |t|], t[|Trim(s)|..];
    assert s == lead + t && t == Trim(s) + tail;
    BackslashesJoin(lead, t);
    BackslashesJoin(Trim(s), tail);
    BackslashesOfSpace(lead);
    BackslashesOfSpace(tail);
  }

  /** What reading makes of a written text equals it exactly when it is plain and has no white space at its ends. */
  lemma SurvivesIffPlain(s: string)
    ensures Trim(Escaped(s)) == s <==> AllPlain(s) && Trimmed(s)
  {
    EscapedIffPlain(s);
    TrimIsTrimmed(s);
    TrimKeepsBackslashes(Escaped(s));
  }

  // ---- from the written file back --------------------------------------------------------------

  /** Line ends JSON leaves in a text. */
  predicate HasLineEnd(s: string) {
    '\U{2028}' in s || '\U{2029}' in s
  }

  lemma {:induction false} KeyLengthIs(key: string, rest: string)
    requires (forall c :: c in key ==> IsKeyChar(c)) && (rest == "" || !IsKeyChar(rest[0]))
    ensures KeyLength(key + rest) == |key|
    decreases |key|
  {
    if key == "" {
      assert key + rest == rest;
    } else {
      assert key[0] in key && (key + rest)[1..] == key[1..] + rest;
      KeyLengthIs(key[1..], rest);
    }
  }

  lemma QuotedIsTrimmed(s: string)
    ensures Trim(Quoted(s)) == Quoted(s) && TrimStart(" " + Quoted(s)) == Quoted(s)
    ensures StripQuotes(Quoted(s)) == Escaped(s)
  {
    TrimIsTrimmed(Quoted(s));
    assert (" " + Quoted(s))[1..] == Quoted(s);
  }

  lemma QuotedEndsLine(s: string)
    ensures (exists c :: c in Quoted(s) && EndsLine(c)) <==> HasLineEnd(s)
  {
    EscapedIsPrintable(s);
    assert forall c :: c in Quoted(s) <==> c == '"' || c in Escaped(s);
  }

  predicate IsKey(key: string) {
    key != "" && forall c :: c in key ==> IsKeyChar(c)
  }

  lemma LineIsNoComment(key: string, s: string)
    requires IsKey(key)
    ensures !IsBlankOrComment(Line(key, s))
  {
    assert key[0] in key;
    TrimIsTrimmed(Line(key, s));
  }

  /** A written line is read as its key and the quoted text, unless a line end in it hides it. */
  lemma LineReads(key: string, s: string)
    requires IsKey(key)
    ensures EntryAt(Line(key, s)) == if HasLineEnd(s) then None else Some(Entry(key, Quoted(s)))
  {
    LineIsNoComment(key, s);
    KeyLineReads(key, s);
  }

  lemma KeyIsFound(key: string, after: string)
    requires IsKey(key)
    ensures KeyLine(key + ":" + after) == if RestOf(after).None? then None else Some(Entry(key, RestOf(after).value))
  {
    var line := key + ":" + after;
    assert line == key + (":" + after);
    KeyLengthIs(key, ":" + after);
    assert line[|key| + 1..] == after && line[..|key|] == key;
  }

  lemma RestIsQuoted(s: string)
    ensures RestOf(" " + Quoted(s)) == if HasLineEnd(s) then None else Some(Quoted(s))
  {
    QuotedIsTrimmed(s);
    QuotedEndsLine(s);
  }

  lemma KeyLineReads(key: string, s: string)
    requires IsKey(key)
    ensures KeyLine(Line(key, s)) == if HasLineEnd(s) then None else Some(Entry(key, Quoted(s)))
  {
    assert Line(key, s) == key + ":" + (" " + Quoted(s));
    KeyIsFound(key, " " + Quoted(s));
    RestIsQuoted(s);
  }

  lemma LineIsOneLine(key: string, s: string)
    requires IsKey(key)
    ensures '\n' !in Line(key, s) && '\r' !in Line(key, s)
  {
    EscapedIsPrintable(s);
    assert forall c :: c in Line(key, s) ==> c in key || c in ": " || c == '"' || c in Escaped(s);
  }

  /** No line of the block closes it. */
  predicate NoFence(block: string) {
    forall k :: 0 <= k < |block| && block[k] == '\n' ==> k + 1 < |block| && block[k + 1] != '-'
  }

  lemma FenceStarts(text: string, k: nat)
    requires OccursAt(text, FENCE, k)
    ensures text[k] == '\n' && text[k + 1] == '-'
  {
    var part := text[k..k + 5];
    assert part[0] == '\n' && part[1] == '-';
  }

  lemma FenceIsFound(block: string, rest: string)
    requires NoFence(block)
    ensures IndexOf("---\n" + block + FENCE + rest, FENCE, 4) == 4 + |block|
  {
    var text, at := "---\n" + block + FENCE + rest, 4 + |block|;
    assert text[at..at + 5] == FENCE && OccursAt(text, FENCE, at);
    forall k | 4 <= k < at
      ensures !OccursAt(text, FENCE, k)
    {
      assert text[k] == block[k - 4] && (k + 1 < at ==> text[k + 1] == block[k - 3]);
      if OccursAt(text, FENCE, k) {
        FenceStarts(text, k);
      }
    }
  }

  lemma BodyIsFound(block: string, rest: string)
    ensures IndexOf("---\n" + block + FENCE + rest, "\n", 5 + |block|) == 8 + |block|
  {
    var text, at := "---\n" + block + FENCE + rest, 4 + |block|;
    assert text[at + 4..at + 5] == "\n";
    var j := IndexOf(text, "\n", at + 1);
    assert OccursAt(text, "\n", at + 4) && text[j..j + 1][0] == '\n';
    assert text[at + 1] == '-' && text[at + 2] == '-' && text[at + 3] == '-';
  }

  lemma FrontHasNoFence(skill: Skill)
    ensures NoFence(Front(skill)) && '\r' !in Front(skill)
  {
    LineIsOneLine("name", skill.name);
    if Described(skill) {
      LineIsOneLine("description", skill.description.value);
      assert Line("description", skill.description.value)[0] == 'd';
    }
  }

  lemma NormalizeMiddle(head: string, body: string)
    requires '\r' !in head && (body == "" || body[|body| - 1] != '\r')
    ensures Normalize(head + (body + "\n")) == head + (Normalize(body) + "\n")
  {
    assert head != "" ==> head[|head| - 1] in head;
    NormalizeJoins(head, body + "\n");
    NormalizeKeeps(head);
    NormalizeJoins(body, "\n");
    NormalizeKeeps("\n");
  }

  /** The written file with its line ends normalized, in the parts that the reader sees. */
  lemma PrintedParts(skill: Skill)
    ensures Normalize(Printed(skill)) == "---\n" + Front(skill) + FENCE + ("\n" + Normalize(Trim(skill.body)) + "\n")
  {
    var front, body := Front(skill), Trim(skill.body);
    FrontHasNoFence(skill);
    TrimIsTrimmed(skill.body);
    NormalizeMiddle("---\n" + front + FENCE + "\n", body);
    PartsJoin(front, body);
    PartsJoin(front, Normalize(body));
  }

  lemma PartsJoin(front: string, body: string)
    ensures "---\n" + front + "\n---\n\n" + body + "\n" == "---\n" + front + FENCE + "\n" + (body + "\n")
    ensures "---\n" + front + FENCE + "\n" + (body + "\n") == "---\n" + front + FENCE + ("\n" + body + "\n")
  {
    assert "\n---\n\n" == FENCE + "\n";
  }

  /** The first closing line of a text is at `at`. */
  ghost predicate ClosesAt(text: string, at: nat) {
    4 <= at && OccursAt(text, "\n---\n", at) && forall k :: 4 <= k < at ==> !OccursAt(text, "\n---\n", k)
  }

  ghost predicate NeverCloses(text: string) {
    forall k :: 4 <= k ==> !OccursAt(text, "\n---\n", k)
  }

  /** A text that ends with the dashes, and no line end after them. */
  predicate ClosesAtTheEnd(text: string) {
    |text| >= 4 && text[|text| - 4..] == "\n---"
  }

  lemma BodyFollows(text: string, at: nat)
    requires OccursAt(text, "\n---\n", at)
    ensures IndexOf(text, "\n", at + 1) == at + 4
  {
    var part := text[at..at + 5];
    assert text[at + 1] == part[1] && text[at + 2] == part[2] && text[at + 3] == part[3] && text[at + 4] == part[4];
    assert OccursAt(text, "\n", at + 4);
    var j := IndexOf(text, "\n", at + 1);
    assert text[j..j + 1][0] == '\n';
  }

  /**
   * Of any text at all: the block lies between an opening line at its very start and the first closing line, or
   * closing dashes at its very end when there is no such line; the body is what follows.
   */
  lemma BlockIs(raw: string)
    ensures var text := Normalize(raw);
            match FrontmatterBlock(raw)
            case None => !("---\n" <= text) || (NeverCloses(text) && !ClosesAtTheEnd(text))
            case Some(b) => "---\n" <= text && BlockIn(text, b)
  {
    var text := Normalize(raw);
    if "---\n" <= text {
      var end := IndexOf(text, FENCE, 4);
      if end != -1 {
        BodyFollows(text, end);
        assert ClosesAt(text, end);
        assert BlockAt(text, FrontmatterBlock(raw).value, end);
      } else {
        NoClosingLine(raw);
      }
    }
  }

  lemma NoClosingLine(raw: string)
    requires var text := Normalize(raw); "---\n" <= text && IndexOf(text, FENCE, 4) == -1
    ensures var text := Normalize(raw);
            NeverCloses(text) && FrontmatterBlock(raw) == if ClosesAtTheEnd(text)
              then Some(Block(if |text| < 8 then "" else text[4..|text| - 4], "")) else None
  {
  }

  ghost predicate BlockAt(text: string, b: Block, at: nat) {
    ClosesAt(text, at) && b == Block(text[4..at], text[at + 5..])
  }

  ghost predicate BlockIn(text: string, b: Block) {
    || (exists at :: BlockAt(text, b, at))
    || (NeverCloses(text) && ClosesAtTheEnd(text) && b.body == "" && b.block == if |text| < 8 then "" else text[4..|text| - 4])
  }

  lemma TextIsClosed(text: string, block: string, rest: string)
    requires text == "---\n" + block + FENCE + rest && NoFence(block)
    ensures ClosesAt(text, 4 + |block|) && text[4..4 + |block|] == block && text[9 + |block|..] == rest && "---\n" <= text
  {
    FenceIsFound(block, rest);
  }

  /** Whatever the body holds, `---` lines too, the reader finds the block that was written and all of the body. */
  lemma BlockReadsBack(skill: Skill)
    ensures FrontmatterBlock(Printed(skill)) == Some(Block(Front(skill), "\n" + Normalize(Trim(skill.body)) + "\n"))
  {
    var block, rest := Front(skill), "\n" + Normalize(Trim(skill.body)) + "\n";
    PrintedParts(skill);
    FrontHasNoFence(skill);
    BlockOfText(Printed(skill), block, rest);
  }

  lemma BlockOfText(raw: string, block: string, rest: string)
    requires Normalize(raw) == "---\n" + block + FENCE + rest && NoFence(block)
    ensures FrontmatterBlock(raw) == Some(Block(block, rest))
  {
    var text := Normalize(raw);
    TextIsClosed(text, block, rest);
    FenceIsFound(block, rest);
    BodyIsFound(block, rest);
  }

  /** The entries with a written line's added, if it is read at all. */
  function With(before: map<string, Value>, key: string, s: string): map<string, Value> {
    if HasLineEnd(s) then before else before[key := Text(Escaped(s))]
  }

  lemma EntryReads(lines: seq<string>, i: nat, key: string, s: string, before: map<string, Value>)
    requires i < |lines| && lines[i] == Line(key, s) && IsKey(key)
    ensures Entries(lines, i, before) == Entries(lines, i + 1, With(before, key, s))
  {
    LineReads(key, s);
    QuotedIsTrimmed(s);
  }

  lemma LinesOfFront(skill: Skill)
    ensures Split(Front(skill), '\n')
         == [Line("name", skill.name)] + if Described(skill) then [Line("description", skill.description.value)] else []
  {
    var name := Line("name", skill.name);
    LineIsOneLine("name", skill.name);
    if Described(skill) {
      var description := Line("description", skill.description.value);
      LineIsOneLine("description", skill.description.value);
      assert Front(skill) == name + ['\n'] + description;
      SplitMore(name, '\n', description);
      SplitOne(description, '\n');
    } else {
      SplitOne(name, '\n');
    }
  }

  /** The entries of the written block. */
  lemma FrontReadsBack(skill: Skill)
    ensures Entries(Split(Front(skill), '\n'), 0, map[])
         == if Described(skill) then With(With(map[], "name", skill.name), "description", skill.description.value)
            else With(map[], "name", skill.name)
  {
    LinesOfFront(skill);
    var lines := Split(Front(skill), '\n');
    EntryReads(lines, 0, "name", skill.name, map[]);
    if Described(skill) {
      EntryReads(lines, 1, "description", skill.description.value, With(map[], "name", skill.name));
    }
  }

  /** A name that is safe as a directory's: letters, digits, dots, underscores and hyphens, a letter or digit first. */
  predicate SafeName(name: string) {
    name != "" && name[0] != '.' && name[0] != '_' && name[0] != '-' && forall c :: c in name ==> IsKeyChar(c) || c == '.'
  }

  lemma SafeNameSurvives(name: string)
    requires SafeName(name)
    ensures !HasLineEnd(name) && Trim(Escaped(name)) == name
  {
    SurvivesIffPlain(name);
    assert name[0] in name && name[|name| - 1] in name;
  }

  /** What reading a written file gives, for any skill with a safe name. */
  lemma WrittenReadsBack(skill: Skill, fallback: string)
    requires SafeName(skill.name)
    ensures var got := Read(Printed(skill), fallback);
            && got.name == skill.name
            && got.body == "\n" + Normalize(Trim(skill.body)) + "\n"
            && (Described(skill) && !HasLineEnd(skill.description.value) && Trim(Escaped(skill.description.value)) != "" ==>
                  got.description == Some(Trim(Escaped(skill.description.value))))
            && (!Described(skill) || HasLineEnd(skill.description.value) ==> got.description.None?)
  {
    BlockReadsBack(skill);
    FrontReadsBack(skill);
    SafeNameSurvives(skill.name);
  }

  /** Exactly the descriptions that need no escape, hold no line end and no white space at their ends come back. */
  lemma DescriptionSurvivesIff(skill: Skill, fallback: string)
    requires SafeName(skill.name) && Described(skill)
    ensures var d := skill.description.value;
            Read(Printed(skill), fallback).description == Some(d) <==> AllPlain(d) && Trimmed(d) && !HasLineEnd(d)
  {
    var d := skill.description.value;
    BlockReadsBack(skill);
    FrontReadsBack(skill);
    SafeNameSurvives(skill.name);
    SurvivesIffPlain(d);
  }

  lemma {:induction false} NormalizeKeepsEnds(s: string)
    requires s != "" && s[|s| - 1] != '\r' && s[|s| - 1] != '\n'
    ensures Normalize(s) != "" && Normalize(s)[|Normalize(s)| - 1] == s[|s| - 1]
    ensures s[0] != '\r' ==> Normalize(s)[0] == s[0]
    decreases |s|
  {
    var skip := if s[0] == '\r' && |s| > 1 && s[1] == '\n' then 2 else 1;
    if skip < |s| {
      NormalizeKeepsEnds(s[skip..]);
    }
  }

  /** The trimmed body comes back exactly when it holds no carriage return. */
  lemma BodySurvivesIff(skill: Skill, fallback: string)
    requires SafeName(skill.name)
    ensures Trim(Read(Printed(skill), fallback).body) == Trim(skill.body) <==> '\r' !in Trim(skill.body)
  {
    var body := Trim(skill.body);
    WrittenReadsBack(skill, fallback);
    TrimIsTrimmed(skill.body);
    if body != "" {
      NormalizeKeepsEnds(body);
    }
    TrimAround("\n", Normalize(body), "\n");
    NormalizedHasNoReturn(body);
    if '\r' !in body {
      NormalizeKeeps(body);
    }
  }

  /** Writing again what was read back gives the same file. */
  lemma WritingAgainChangesNothing(skill: Skill, fallback: string)
    requires SafeName(skill.name) && '\r' !in Trim(skill.body)
    requires Described(skill) ==> AllPlain(skill.description.value) && Trimmed(skill.description.value) && !HasLineEnd(skill.description.value)
    ensures Printed(Read(Printed(skill), fallback)) == Printed(skill)
  {
    WrittenReadsBack(skill, fallback);
    BodySurvivesIff(skill, fallback);
    if Described(skill) {
      DescriptionSurvivesIff(skill, fallback);
    }
  }
}
