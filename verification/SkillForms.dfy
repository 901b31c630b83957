/**
 * The forms of front matter that the reader of skill files takes, in any text: lines that are entries and lines
 * that are not, keys and what follows them, quotes, lists in brackets and lists of dashed lines, and what of all
 * this becomes the name and the description of a skill.
 */
module SkillForms {
  import opened Options
  import opened SkillText
  import opened SkillMarkdown

  predicate AllSpace(s: string) {
    forall c :: c in s ==> IsSpace(c)
  }

  // ---- keys ------------------------------------------------------------------------------------

  /** By code point: digits, letters, the dash and the underscore. */
  lemma KeyCodes(c: char)
    ensures IsKeyChar(c) <==> 48 <= c as int <= 57 || 65 <= c as int <= 90 || 97 <= c as int <= 122 || c as int == 45 || c as int == 95
  {
  }

  predicate IsRest(after: string, rest: string) {
    rest == Trim(after) && forall c :: c in TrimStart(after) ==> !EndsLine(c)
  }

  lemma {:induction false} TrimStartTwice(s: string)
    ensures TrimStart(TrimStart(s)) == TrimStart(s)
    decreases |s|
  {
    if s != "" && IsSpace(s[0]) {
      TrimStartTwice(s[1..]);
    }
  }

  lemma RestIs(after: string, rest: string)
    ensures RestOf(after) == Some(rest) <==> IsRest(after, rest)
  {
    TrimStartTwice(after);
  }

  ghost predicate KeyIs(line: string, key: string, after: string, rest: string) {
    IsKey(key) && line == key + ":" + after && IsRest(after, rest)
  }

  /** A line gives a key and what follows it exactly if the key and a colon begin it and no line end is in the rest. */
  lemma KeyLineIff(line: string, key: string, rest: string)
    ensures KeyLine(line) == Some(Entry(key, rest)) <==> exists after :: KeyIs(line, key, after, rest)
  {
    if KeyLine(line) == Some(Entry(key, rest)) {
      var n := KeyLength(line);
      RestIs(line[n + 1..], rest);
      assert line == line[..n] + ":" + line[n + 1..];
      assert KeyIs(line, key, line[n + 1..], rest);
    }
    if after :| KeyIs(line, key, after, rest) {
      KeyIsFound(key, after);
      RestIs(after, rest);
    }
  }

  // ---- quotes and lists ------------------------------------------------------------------------

  /** One pair of quotes of one kind goes, and nothing else; a lone quote goes too. */
  lemma QuotesGo(s: string, q: char)
    ensures q == '"' || q == '\'' ==> StripQuotes([q] + s + [q]) == s && StripQuotes([q]) == ""
    ensures s == "" || s[0] != s[|s| - 1] || (s[0] != '"' && s[0] != '\'') ==> StripQuotes(s) == s
  {
    assert ([q] + s + [q])[1..|s| + 1] == s;
  }

  ghost predicate ItemIs(line: string, indent: string, gap: char, text: string, item: string) {
    AllSpace(indent) && IsSpace(gap) && line == indent + "-" + [gap] + text && item == StripQuotes(Trim(text))
  }

  lemma {:induction false} IndentGoes(indent: string, s: string)
    requires AllSpace(indent) && s != "" && !IsSpace(s[0])
    ensures TrimStart(indent + s) == s
    decreases |indent|
  {
    if indent == "" {
      assert indent + s == s;
    } else {
      assert (indent + s)[0] == indent[0] && (indent + s)[1..] == indent[1..] + s;
      assert indent[0] in indent && forall c :: c in indent[1..] ==> c in indent;
      IndentGoes(indent[1..], s);
    }
  }

  lemma GapGoes(gap: char, text: string)
    requires IsSpace(gap)
    ensures Trim([gap] + text) == Trim(text)
  {
    assert ([gap] + text)[1..] == text;
  }

  lemma ItemLineIs(line: string, indent: string, gap: char, text: string)
    requires AllSpace(indent) && IsSpace(gap) && line == indent + "-" + [gap] + text
    ensures ItemLine(line) == Some(StripQuotes(Trim(text)))
  {
    var s := "-" + [gap] + text;
    assert line == indent + s && s[1..] == [gap] + text;
    IndentGoes(indent, s);
    GapGoes(gap, text);
  }

  lemma DashedLineSplits(line: string) returns (indent: string, gap: char, text: string)
    requires ItemLine(line).Some?
    ensures AllSpace(indent) && IsSpace(gap) && line == indent + "-" + [gap] + text
  {
    var s := TrimStart(line);
    TrimStartIsSuffix(line);
    indent, gap, text := line[..|line| - |s|], s[1], s[2..];
    assert line == indent + s && s == "-" + [gap] + text;
  }

  /** A dashed line is white space, a dash, white space and the item. */
  lemma ItemLineIff(line: string, item: string)
    ensures ItemLine(line) == Some(item) <==> exists indent, gap, text :: ItemIs(line, indent, gap, text, item)
  {
    if ItemLine(line) == Some(item) {
      var indent, gap, text := DashedLineSplits(line);
      ItemLineIs(line, indent, gap, text);
      assert ItemIs(line, indent, gap, text, item);
    }
    if indent, gap, text :| ItemIs(line, indent, gap, text, item) {
      ItemLineIs(line, indent, gap, text);
    }
  }

  function OneItem(part: string): seq<string> {
    var item := StripQuotes(Trim(part));
    if item == "" then [] else [item]
  }

  lemma FirstItem(parts: seq<string>)
    requires parts != []
    ensures InlineItems(parts) == OneItem(parts[0]) + InlineItems(parts[1..])
  {
  }

  ghost predicate Joins(a: seq<string>, part: string, b: seq<string>) {
    InlineItems(a + [part] + b) == InlineItems(a) + OneItem(part) + InlineItems(b)
  }

  lemma Regroup(a: seq<string>, b: seq<string>, c: seq<string>, d: seq<string>)
    ensures a + (b + c + d) == a + b + c + d
  {
  }

  lemma MoreJoins(first: string, a: seq<string>, part: string, b: seq<string>)
    requires Joins(a, part, b)
    ensures Joins([first] + a, part, b)
  {
    var parts := a + [part] + b;
    Regroup([first], a, [part], b);
    Regroup(OneItem(first), InlineItems(a), OneItem(part), InlineItems(b));
    assert ([first] + parts)[1..] == parts && ([first] + a)[1..] == a;
    FirstItem([first] + parts);
    FirstItem([first] + a);
  }

  /** An inline list gives the items between its commas, without their quotes and leaving out the empty ones. */
  lemma {:induction false} ItemsJoin(a: seq<string>, part: string, b: seq<string>)
    ensures Joins(a, part, b)
    decreases |a|
  {
    if a == [] {
      assert a + [part] + b == [part] + b && ([part] + b)[1..] == b;
      FirstItem([part] + b);
      assert InlineItems(a) == [];
    } else {
      ItemsJoin(a[1..], part, b);
      MoreJoins(a[0], a[1..], part, b);
      assert [a[0]] + a[1..] == a;
    }
  }

  lemma InlineListIs(inner: string)
    ensures IsInlineList("[" + inner + "]")
    ensures InlineList("[" + inner + "]") == if Trim(inner) == "" then [] else InlineItems(Split(Trim(inner), ','))
    ensures InlineItems([]) == []
  {
    assert ("[" + inner + "]")[1..|inner| + 1] == inner;
  }

  // ---- entries ---------------------------------------------------------------------------------

  /** `items` are on the dashed lines from line `i` on, and the line after them is no such line. */
  ghost predicate DashedLines(lines: seq<string>, i: nat, items: seq<string>)
    decreases |items|
  {
    if items == [] then i < |lines| ==> ItemLine(lines[i]).None?
    else i < |lines| && ItemLine(lines[i]) == Some(items[0]) && DashedLines(lines, i + 1, items[1..])
  }

  /** The dashed lines are lines `i` to `i + |items|`. */
  lemma {:induction false} DashedLineAt(lines: seq<string>, i: nat, items: seq<string>, k: nat)
    requires DashedLines(lines, i, items) && k < |items|
    ensures i + k < |lines| && ItemLine(lines[i + k]) == Some(items[k])
    decreases k
  {
    if k > 0 {
      DashedLineAt(lines, i + 1, items[1..], k - 1);
    }
  }

  lemma {:induction false} DashedLinesEnd(lines: seq<string>, i: nat, items: seq<string>)
    requires DashedLines(lines, i, items)
    ensures i + |items| < |lines| ==> ItemLine(lines[i + |items|]).None?
    decreases |items|
  {
    if items != [] {
      DashedLinesEnd(lines, i + 1, items[1..]);
    }
  }

  lemma {:induction false} DashedLinesAreRead(lines: seq<string>, i: nat, items: seq<string>, before: seq<string>)
    requires DashedLines(lines, i, items)
    ensures BlockItems(lines, i, before) == before + items
    decreases |items|
  {
    if items == [] {
      assert before + items == before;
    } else {
      DashedLinesAreRead(lines, i + 1, items[1..], before + [items[0]]);
      assert before + [items[0]] + items[1..] == before + items;
    }
  }

  /** A key with nothing after it takes the dashed lines that follow, and reading goes on after them. */
  lemma ListUnder(lines: seq<string>, i: nat, items: seq<string>)
    requires DashedLines(lines, i + 1, items)
    ensures ValueOf("", lines, i + 1) == List(items) && After("", lines, i) == i + 1 + |items|
  {
    DashedLinesAreRead(lines, i + 1, items, []);
    assert [] + items == items;
  }

  predicate Bracketed(rest: string) {
    |rest| > 1 && rest[0] == '[' && rest[|rest| - 1] == ']'
  }

  /** A key with a list in brackets takes its items, and any other text without its quotes; no line is taken with it. */
  lemma ValueBeside(rest: string, lines: seq<string>, i: nat)
    requires rest != ""
    ensures ValueOf(rest, lines, i + 1) == if Bracketed(rest) then List(InlineList(rest)) else Text(StripQuotes(rest))
    ensures After(rest, lines, i) == i + 1
  {
  }

  /** Reading goes on after an entry with its value put over those before. */
  lemma EntryIsRead(lines: seq<string>, i: nat, before: map<string, Value>, key: string, rest: string)
    requires i < |lines| && EntryAt(lines[i]) == Some(Entry(key, rest))
    ensures Entries(lines, i, before) == Entries(lines, After(rest, lines, i), before[key := ValueOf(rest, lines, i + 1)])
  {
  }

  /** Any other line is passed over, and after the last line the entries are complete. */
  lemma OtherLineIsSkipped(lines: seq<string>, i: nat, before: map<string, Value>)
    ensures i < |lines| && EntryAt(lines[i]).None? ==> Entries(lines, i, before) == Entries(lines, i + 1, before)
    ensures i >= |lines| ==> Entries(lines, i, before) == before
  {
  }

  /** The first character that is no white space is where the trimmed text begins. */
  lemma TrimBeginsAt(indent: string, s: string)
    requires AllSpace(indent) && s != "" && !IsSpace(s[0])
    ensures Trim(indent + s) != "" && Trim(indent + s)[0] == s[0]
  {
    IndentGoes(indent, s);
    TrimEndIsPrefix(s);
  }

  lemma {:induction false} BlankGoes(s: string)
    requires AllSpace(s)
    ensures Trim(s) == ""
    decreases |s|
  {
    if s != "" {
      assert s[0] in s && forall c :: c in s[1..] ==> c in s;
      BlankGoes(s[1..]);
    }
  }

  /** A comment may begin anywhere in its line, and a blank line holds nothing. */
  lemma CommentIsNoEntry(indent: string, s: string)
    requires AllSpace(indent)
    ensures EntryAt(indent).None? && EntryAt(indent + "#" + s).None?
  {
    BlankGoes(indent);
    assert indent + "#" + s == indent + ("#" + s);
    TrimBeginsAt(indent, "#" + s);
  }

  /** Any other line is read as a key and what follows it. */
  lemma OtherLineIsKeyLine(indent: string, s: string)
    requires AllSpace(indent) && s != "" && !IsSpace(s[0]) && s[0] != '#'
    ensures EntryAt(indent + s) == KeyLine(indent + s)
  {
    TrimBeginsAt(indent, s);
  }

  // ---- the skill -------------------------------------------------------------------------------

  /** A name or description is a text that is not blank, without the white space around it. */
  lemma NamedIs(frontmatter: map<string, Value>, key: string)
    ensures Named(frontmatter, key) == match (if key in frontmatter then frontmatter[key] else List([]))
                                      case Text(s) => if Trim(s) == "" then None else Some(Trim(s))
                                      case List(_) => None
  {
  }

  /** A file without front matter is all body, and has the name its path gives. */
  lemma WithoutFrontmatter(raw: string, fallback: string)
    requires !("---\n" <= Normalize(raw))
    ensures Read(raw, fallback) == Skill(fallback, None, raw)
  {
  }
}
