/**
 * Finding JSON objects in a model's answer: a scanner that counts braces and skips strings with their
 * escapes, the index loop that computes the same, and the texts of which it returns exactly the objects,
 * whatever their strings hold.
 */
module JsonScanner {
  // ---- the scanner -----------------------------------------------------------------------------

  /** `open` is the text from the outermost open brace on. */
  datatype Scan = Scan(candidates: seq<string>, open: string, depth: nat, inString: bool, escaped: bool)

  const START := Scan([], "", 0, false, false)

  function Next(s: Scan, ch: char): Scan {
    var open := if s.depth > 0 then s.open + [ch] else s.open;
    if s.inString then
      if s.escaped then s.(open := open, escaped := false)
      else if ch == '\\' then s.(open := open, escaped := true)
      else if ch == '"' then s.(open := open, inString := false)
      else s.(open := open)
    else if ch == '"' then s.(open := open, inString := true)
    else if ch == '{' then s.(open := if s.depth == 0 then [ch] else open, depth := s.depth + 1)
    else if ch == '}' then
      if s.depth == 0 then s
      else if s.depth == 1 then s.(candidates := s.candidates + [open], open := "", depth := 0)
      else s.(open := open, depth := s.depth - 1)
    else s.(open := open)
  }

  function Run(s: Scan, text: string): Scan
    decreases |text|
  {
    if text == "" then s else Run(Next(s, text[0]), text[1..])
  }

  /** The scanner proper, over indices of `raw`. */
  method ExtractJsonObjectCandidates(raw: string) returns (candidates: seq<string>)
    ensures candidates == Run(START, raw).candidates
  {
    candidates := [];
    var start, depth, inString, escaped := -1, 0, false, false;
    for i := 0 to |raw|
      invariant 0 <= depth && -1 <= start < i && (start == -1 <==> depth == 0)
      invariant Run(START, raw)
             == Run(Scan(candidates, if depth == 0 then "" else raw[start..i], depth, inString, escaped), raw[i..])
    {
      var ch := raw[i];
      assert raw[i..][1..] == raw[i + 1..];
      assert depth > 0 ==> raw[start..i] + [ch] == raw[start..i + 1];
      if inString {
        if escaped {
          escaped := false;
        } else if ch == '\\' {
          escaped := true;
        } else if ch == '"' {
          inString := false;
        }
        continue;
      }
      if ch == '"' {
        inString := true;
      } else if ch == '{' {
        if depth == 0 {
          start := i;
          assert raw[i..i + 1] == [ch];
        }
        depth := depth + 1;
      } else if ch == '}' {
        if depth == 0 {
          continue;
        }
        depth := depth - 1;
        if depth == 0 && start >= 0 {
          candidates := candidates + [raw[start..i + 1]];
          start := -1;
        }
      }
    }
    assert raw[|raw|..] == "";
  }

  lemma {:induction false} RunJoin(s: Scan, a: string, b: string)
    ensures Run(s, a + b) == Run(Run(s, a), b)
    decreases |a|
  {
    if a == "" {
      assert a + b == b;
    } else {
      assert (a + b)[0] == a[0] && (a + b)[1..] == a[1..] + b;
      RunJoin(Next(s, a[0]), a[1..], b);
    }
  }

  // ---- printed JSON ----------------------------------------------------------------------------

  /**
   * A string's characters as written. Section 7 of RFC 8259 allows fewer plain characters and fewer
   * escapes than this; its four digits after `\u` are plain here.
   */
  datatype Piece = Plain(c: char) | Escape(c: char)

  /**
   * A JSON value as printed, whitespace included. `Bare` is a number or a literal name. Gaps and bare
   * values may be any text without quotes and braces, which is more than sections 2 to 6 allow.
   */
  datatype Json = Bare(text: string) | Str(pieces: seq<Piece>) | Arr(gap: string, items: Items) | Obj(gap: string, members: Members)

  datatype Items = NoItem | Item(before: string, value: Json, after: string, more: Items)

  datatype Members = NoMember | Member(before: string, key: seq<Piece>, colon: string, value: Json, after: string, more: Members)

  predicate Plainly(text: string) {
    '"' !in text && '{' !in text && '}' !in text
  }

  predicate ValidPieces(pieces: seq<Piece>) {
    forall p :: p in pieces && p.Plain? ==> p.c != '"' && p.c != '\\'
  }

  predicate ValidJson(j: Json) {
    match j
    case Bare(text) => Plainly(text)
    case Str(pieces) => ValidPieces(pieces)
    case Arr(gap, items) => Plainly(gap) && ValidItems(items)
    case Obj(gap, members) => Plainly(gap) && ValidMembers(members)
  }

  predicate ValidItems(items: Items) {
    items.Item? ==> Plainly(items.before) && ValidJson(items.value) && Plainly(items.after) && ValidItems(items.more)
  }

  predicate ValidMembers(members: Members) {
    members.Member? ==>
      && Plainly(members.before) && ValidPieces(members.key) && Plainly(members.colon)
      && ValidJson(members.value) && Plainly(members.after) && ValidMembers(members.more)
  }

  function PrintPiece(p: Piece): string {
    if p.Plain? then [p.c] else ['\\', p.c]
  }

  function PrintPieces(pieces: seq<Piece>): string
    decreases |pieces|
  {
    if pieces == [] then "" else PrintPiece(pieces[0]) + PrintPieces(pieces[1..])
  }

  function PrintString(pieces: seq<Piece>): string {
    "\"" + PrintPieces(pieces) + "\""
  }

  function Print(j: Json): string
    decreases j, 0
  {
    match j
    case Bare(text) => text
    case Str(pieces) => PrintString(pieces)
    case Arr(gap, items) => "[" + gap + PrintItems(items) + "]"
    case Obj(gap, members) => "{" + Inside(gap, members) + "}"
  }

  function Inside(gap: string, members: Members): string
    decreases members, 1
  {
    gap + PrintMembers(members)
  }

  function PrintItems(items: Items): string
    decreases items, 0
  {
    match items
    case NoItem => ""
    case Item(before, value, after, more) => before + Print(value) + after + (if more.NoItem? then "" else "," + PrintItems(more))
  }

  function PrintMembers(members: Members): string
    decreases members, 0
  {
    match members
    case NoMember => ""
    case Member(before, key, colon, value, after, more) =>
      before + PrintString(key) + colon + Print(value) + after + (if more.NoMember? then "" else "," + PrintMembers(more))
  }

  /** The printer writes JSON: pieces in order, an escaped character after its backslash. */
  lemma {:induction false} PiecesJoin(a: seq<Piece>, b: seq<Piece>)
    ensures PrintPieces(a + b) == PrintPieces(a) + PrintPieces(b)
    decreases |a|
  {
    if a == [] {
      assert a + b == b;
    } else {
      PiecesJoin(a[1..], b);
      assert (a + b)[1..] == a[1..] + b;
    }
  }

  lemma OnePiece(c: char)
    ensures PrintString([]) == "\"\"" && PrintPieces([Plain(c)]) == [c] && PrintPieces([Escape(c)]) == "\\" + [c]
  {
  }

  /** Values stand between brackets and braces, with a comma before each but the first. */
  lemma ValuesAsPrinted(gap: string, before: string, key: seq<Piece>, colon: string, value: Json, after: string)
    ensures Print(Arr(gap, NoItem)) == "[" + gap + "" + "]" && Print(Obj(gap, NoMember)) == "{" + (gap + "") + "}"
    ensures PrintItems(Item(before, value, after, NoItem)) == before + Print(value) + after + ""
    ensures PrintMembers(Member(before, key, colon, value, after, NoMember)) == before + PrintString(key) + colon + Print(value) + after + ""
  {
  }

  lemma MoreAsPrinted(before: string, key: seq<Piece>, colon: string, value: Json, after: string, items: Items, members: Members)
    requires items.Item? && members.Member?
    ensures PrintItems(Item(before, value, after, items)) == before + Print(value) + after + ("," + PrintItems(items))
    ensures PrintMembers(Member(before, key, colon, value, after, members))
         == before + PrintString(key) + colon + Print(value) + after + ("," + PrintMembers(members))
  {
  }

  // ---- what the scanner makes of it ------------------------------------------------------------

  /** Outside any string. */
  predicate Outside(s: Scan) {
    !s.inString && !s.escaped
  }

  function Kept(s: Scan, text: string): Scan {
    if s.depth > 0 then s.(open := s.open + text) else s
  }

  /** The scanner took `text` into the object it is in, if any, and nothing else changed. */
  predicate Absorbs(s: Scan, text: string) {
    Run(s, text) == Kept(s, text)
  }

  lemma AbsorbsNothing(s: Scan)
    ensures Absorbs(s, "")
  {
    assert s.open + "" == s.open;
  }

  lemma AbsorbsBoth(s: Scan, a: string, b: string)
    requires Absorbs(s, a) && Absorbs(Kept(s, a), b)
    ensures Absorbs(s, a + b)
  {
    RunJoin(s, a, b);
    assert s.open + a + b == s.open + (a + b);
  }

  lemma AbsorbsOne(s: Scan, ch: char)
    requires Next(s, ch) == Kept(s, [ch])
    ensures Absorbs(s, [ch])
  {
    RunOne(s, ch);
  }

  /** Text without quotes and braces; at depth 0 closing braces are passed over too. */
  lemma {:induction false} AbsorbsPlain(s: Scan, text: string)
    requires Outside(s) && '"' !in text && '{' !in text && (s.depth == 0 || '}' !in text)
    ensures Absorbs(s, text)
    decreases |text|
  {
    if text == "" {
      AbsorbsNothing(s);
    } else {
      AbsorbsOne(s, text[0]);
      AbsorbsPlain(Kept(s, [text[0]]), text[1..]);
      AbsorbsBoth(s, [text[0]], text[1..]);
      assert [text[0]] + text[1..] == text;
    }
  }

  lemma RunTwo(s: Scan, a: char, b: char)
    ensures Run(s, [a, b]) == Next(Next(s, a), b)
  {
    assert [a, b][1..] == [b] && [b][1..] == "";
    assert Run(Next(s, a), [b]) == Run(Next(Next(s, a), b), "");
  }

  lemma AbsorbsPiece(s: Scan, p: Piece)
    requires s.inString && !s.escaped && (p.Plain? ==> p.c != '"' && p.c != '\\')
    ensures Absorbs(s, PrintPiece(p))
  {
    if p.Escape? {
      RunTwo(s, '\\', p.c);
      assert s.open + ['\\'] + [p.c] == s.open + ['\\', p.c];
    } else {
      AbsorbsOne(s, p.c);
    }
  }

  lemma {:induction false} AbsorbsPieces(s: Scan, pieces: seq<Piece>)
    requires s.inString && !s.escaped && ValidPieces(pieces)
    ensures Absorbs(s, PrintPieces(pieces))
    decreases |pieces|
  {
    if pieces == [] {
      AbsorbsNothing(s);
    } else {
      assert pieces[0] in pieces;
      AbsorbsPiece(s, pieces[0]);
      AbsorbsPieces(Kept(s, PrintPiece(pieces[0])), pieces[1..]);
      AbsorbsBoth(s, PrintPiece(pieces[0]), PrintPieces(pieces[1..]));
    }
  }

  lemma RunQuotes(s: Scan, text: string)
    ensures Run(s, "\"" + text + "\"") == Next(Run(Next(s, '"'), text), '"')
  {
    var after := Run(Next(s, '"'), text);
    assert ("\"" + text)[1..] == text && "\""[1..] == "";
    RunJoin(s, "\"" + text, "\"");
    assert Run(after, "\"") == Run(Next(after, '"'), "");
  }

  lemma KeptThrice(s: Scan, a: string, b: string, c: string)
    ensures Kept(Kept(Kept(s, a), b), c) == Kept(s, a + b + c)
  {
    assert s.open + a + b + c == s.open + (a + b + c);
  }

  /** A string is passed over whole, whatever braces, quotes and escapes it holds. */
  lemma AbsorbsString(s: Scan, pieces: seq<Piece>)
    requires Outside(s) && ValidPieces(pieces)
    ensures Absorbs(s, PrintString(pieces))
  {
    var text := PrintPieces(pieces);
    var entered := Kept(s, "\"").(inString := true);
    AbsorbsPieces(entered, pieces);
    RunQuotes(s, text);
    KeptThrice(s, "\"", text, "\"");
    assert Next(Kept(entered, text), '"') == Kept(Kept(Kept(s, "\""), text), "\"");
  }

  // ---- values inside an object -----------------------------------------------------------------

  lemma {:induction false} AbsorbsJson(s: Scan, j: Json)
    requires Outside(s) && s.depth > 0 && ValidJson(j)
    ensures Absorbs(s, Print(j))
    decreases j, 0
  {
    match j
    case Bare(text) => AbsorbsPlain(s, text);
    case Str(pieces) => AbsorbsString(s, pieces);
    case Arr(gap, items) =>
      AbsorbsPlain(s, "[" + gap);
      AbsorbsItems(Kept(s, "[" + gap), items);
      AbsorbsBoth(s, "[" + gap, PrintItems(items));
      AbsorbsPlain(Kept(s, "[" + gap + PrintItems(items)), "]");
      AbsorbsBoth(s, "[" + gap + PrintItems(items), "]");
    case Obj(gap, members) =>
      AbsorbsInside(Kept(s, "{").(depth := s.depth + 1), gap, members);
      AbsorbsBraces(s, Inside(gap, members));
      assert Print(j) == "{" + Inside(gap, members) + "}";
  }

  /** What is absorbed one level deeper is absorbed with its braces. */
  lemma AbsorbsBraces(s: Scan, text: string)
    requires Outside(s) && s.depth > 0 && Absorbs(Kept(s, "{").(depth := s.depth + 1), text)
    ensures Absorbs(s, "{" + text + "}")
  {
    var inner := Kept(s, "{").(depth := s.depth + 1);
    var filled := Kept(inner, text);
    assert Run(s, "{" + text) == filled by {
      RunOne(s, '{');
      RunJoin(s, "{", text);
    }
    RunJoin(s, "{" + text, "}");
    RunOne(filled, '}');
    OpenJoins(s.open, text);
  }

  lemma RunOne(s: Scan, ch: char)
    ensures Run(s, [ch]) == Next(s, ch)
  {
    assert [ch][1..] == "";
  }

  lemma OpenJoins(open: string, text: string)
    ensures open + "{" + text + "}" == open + ("{" + text + "}")
  {
  }

  lemma {:induction false} AbsorbsInside(s: Scan, gap: string, members: Members)
    requires Outside(s) && s.depth > 0 && Plainly(gap) && ValidMembers(members)
    ensures Absorbs(s, Inside(gap, members))
    decreases members, 1
  {
    AbsorbsPlain(s, gap);
    AbsorbsMembers(Kept(s, gap), members);
    AbsorbsBoth(s, gap, PrintMembers(members));
  }

  lemma {:induction false} AbsorbsItems(s: Scan, items: Items)
    requires Outside(s) && s.depth > 0 && ValidItems(items)
    ensures Absorbs(s, PrintItems(items))
    decreases items, 0
  {
    match items
    case NoItem => AbsorbsNothing(s);
    case Item(before, value, after, more) =>
      var rest := if more.NoItem? then "" else "," + PrintItems(more);
      AbsorbsPlain(s, before);
      AbsorbsJson(Kept(s, before), value);
      AbsorbsBoth(s, before, Print(value));
      var sofar := before + Print(value);
      AbsorbsPlain(Kept(s, sofar), after);
      AbsorbsBoth(s, sofar, after);
      var next := Kept(s, sofar + after);
      if more.NoItem? {
        AbsorbsNothing(next);
      } else {
        AbsorbsPlain(next, ",");
        AbsorbsItems(Kept(next, ","), more);
        AbsorbsBoth(next, ",", PrintItems(more));
      }
      AbsorbsBoth(s, sofar + after, rest);
  }

  lemma {:induction false} AbsorbsMembers(s: Scan, members: Members)
    requires Outside(s) && s.depth > 0 && ValidMembers(members)
    ensures Absorbs(s, PrintMembers(members))
    decreases members, 0
  {
    match members
    case NoMember => AbsorbsNothing(s);
    case Member(before, key, colon, value, after, more) =>
      var rest := if more.NoMember? then "" else "," + PrintMembers(more);
      AbsorbsPlain(s, before);
      AbsorbsString(Kept(s, before), key);
      AbsorbsBoth(s, before, PrintString(key));
      var name := before + PrintString(key);
      AbsorbsPlain(Kept(s, name), colon);
      AbsorbsBoth(s, name, colon);
      AbsorbsJson(Kept(s, name + colon), value);
      AbsorbsBoth(s, name + colon, Print(value));
      var sofar := name + colon + Print(value);
      AbsorbsPlain(Kept(s, sofar), after);
      AbsorbsBoth(s, sofar, after);
      var next := Kept(s, sofar + after);
      if more.NoMember? {
        AbsorbsNothing(next);
      } else {
        AbsorbsPlain(next, ",");
        AbsorbsMembers(Kept(next, ","), more);
        AbsorbsBoth(next, ",", PrintMembers(more));
      }
      AbsorbsBoth(s, sofar + after, rest);
  }

  // ---- objects in an answer --------------------------------------------------------------------

  /** Text between objects: no quote and no opening brace, except in whole quoted strings. */
  datatype GapPart = Loose(text: string) | Quoted(pieces: seq<Piece>)

  predicate ValidGap(gap: seq<GapPart>) {
    forall p :: p in gap ==> if p.Loose? then '"' !in p.text && '{' !in p.text else ValidPieces(p.pieces)
  }

  function PrintGap(gap: seq<GapPart>): string
    decreases |gap|
  {
    if gap == [] then ""
    else (if gap[0].Loose? then gap[0].text else PrintString(gap[0].pieces)) + PrintGap(gap[1..])
  }

  /** A gap is its parts in order, each as it is or as a whole string. */
  lemma GapAsPrinted(text: string, pieces: seq<Piece>, gap: seq<GapPart>)
    ensures PrintGap([]) == "" && PrintGap([Loose(text)] + gap) == text + PrintGap(gap)
    ensures PrintGap([Quoted(pieces)] + gap) == PrintString(pieces) + PrintGap(gap)
  {
    assert ([Loose(text)] + gap)[1..] == gap && ([Quoted(pieces)] + gap)[1..] == gap;
  }

  lemma {:induction false} PassesGap(s: Scan, gap: seq<GapPart>)
    requires Outside(s) && s.depth == 0 && ValidGap(gap)
    ensures Run(s, PrintGap(gap)) == s
    decreases |gap|
  {
    if gap != [] {
      assert gap[0] in gap;
      var part := if gap[0].Loose? then gap[0].text else PrintString(gap[0].pieces);
      if gap[0].Loose? {
        AbsorbsPlain(s, part);
      } else {
        AbsorbsString(s, gap[0].pieces);
      }
      PassesGap(s, gap[1..]);
      RunJoin(s, part, PrintGap(gap[1..]));
    }
  }

  lemma ObjectIsFound(s: Scan, j: Json)
    requires Outside(s) && s.depth == 0 && s.open == "" && ValidJson(j) && j.Obj?
    ensures Run(s, Print(j)) == s.(candidates := s.candidates + [Print(j)])
  {
    var inner := s.(open := "{", depth := 1);
    assert Run(s, "{") == inner by {
      assert "{"[1..] == "";
    }
    AbsorbsInside(inner, j.gap, j.members);
    RunJoin(s, "{", Inside(j.gap, j.members));
    RunJoin(s, "{" + Inside(j.gap, j.members), "}");
    assert "}"[1..] == "";
  }

  /** An answer: objects, each after a gap, and a last gap. */
  datatype Answer = Last(gap: seq<GapPart>) | Found(gap: seq<GapPart>, json: Json, more: Answer)

  predicate ValidAnswer(a: Answer) {
    ValidGap(a.gap) && (a.Found? ==> a.json.Obj? && ValidJson(a.json) && ValidAnswer(a.more))
  }

  function PrintAnswer(a: Answer): string {
    match a
    case Last(gap) => PrintGap(gap)
    case Found(gap, j, more) => PrintGap(gap) + (Print(j) + PrintAnswer(more))
  }

  /** The objects of an answer, as printed and in order. */
  function Objects(a: Answer): seq<string> {
    if a.Last? then [] else [Print(a.json)] + Objects(a.more)
  }

  /** The scanner between objects. */
  function Between(found: seq<string>): Scan {
    Scan(found, "", 0, false, false)
  }

  lemma FindsFirst(found: seq<string>, a: Answer)
    requires ValidAnswer(a) && a.Found?
    ensures Run(Between(found), PrintAnswer(a)) == Run(Between(found + [Print(a.json)]), PrintAnswer(a.more))
  {
    PassesGap(Between(found), a.gap);
    ObjectIsFound(Between(found), a.json);
    RunJoin(Between(found), PrintGap(a.gap), Print(a.json) + PrintAnswer(a.more));
    RunJoin(Between(found), Print(a.json), PrintAnswer(a.more));
  }

  lemma {:induction false} RunFindsObjects(found: seq<string>, a: Answer)
    requires ValidAnswer(a)
    ensures Run(Between(found), PrintAnswer(a)) == Between(found + Objects(a))
    decreases a
  {
    if a.Last? {
      PassesGap(Between(found), a.gap);
      assert found + Objects(a) == found;
    } else {
      FindsFirst(found, a);
      RunFindsObjects(found + [Print(a.json)], a.more);
      assert found + [Print(a.json)] + Objects(a.more) == found + Objects(a);
    }
  }

  /** The candidates are exactly the objects of the answer. */
  lemma CandidatesAreTheObjects(a: Answer)
    requires ValidAnswer(a)
    ensures Run(START, PrintAnswer(a)).candidates == Objects(a)
  {
    RunFindsObjects([], a);
    assert [] + Objects(a) == Objects(a);
  }

  // ---- any answer ------------------------------------------------------------------------------

  /** Texts between and around the candidates, put together again. */
  function Woven(gaps: seq<string>, candidates: seq<string>): string
    requires |gaps| == |candidates|
    decreases |candidates|
  {
    if candidates == [] then ""
    else
      var n := |candidates| - 1;
      Woven(gaps[..n], candidates[..n]) + gaps[n] + candidates[n]
  }

  predicate Braced(c: string) {
    |c| >= 2 && c[0] == '{' && c[|c| - 1] == '}'
  }

  predicate OpenIsRight(s: Scan) {
    if s.depth == 0 then s.open == "" else s.open != "" && s.open[0] == '{'
  }

  /** The text scanned so far: the candidates found, each after a gap, then a last gap and what is open. */
  ghost predicate Explains(gaps: seq<string>, last: string, s: Scan, text: string) {
    && OpenIsRight(s) && (forall c :: c in s.candidates ==> Braced(c))
    && |gaps| == |s.candidates| && text == Woven(gaps, s.candidates) + (last + s.open)
  }

  /** One character opens or extends an object, closes one, or belongs to none. */
  lemma NextCases(s: Scan, ch: char)
    requires OpenIsRight(s)
    ensures OpenIsRight(Next(s, ch))
    ensures Next(s, ch).candidates == s.candidates || (Braced(s.open + [ch]) && Next(s, ch).candidates == s.candidates + [s.open + [ch]])
    ensures Next(s, ch).candidates == s.candidates ==> Next(s, ch).open == s.open + [ch] || (s.open == "" && Next(s, ch).open == "")
    ensures Next(s, ch).candidates != s.candidates ==> Next(s, ch).open == ""
  {
    assert "" + [ch] == [ch];
  }

  lemma ExplainsNext(gaps: seq<string>, last: string, s: Scan, text: string, ch: char) returns (gaps': seq<string>, last': string)
    requires Explains(gaps, last, s, text)
    ensures Explains(gaps', last', Next(s, ch), text + [ch])
  {
    var next := Next(s, ch);
    NextCases(s, ch);
    if next.candidates != s.candidates {
      gaps', last' := gaps + [last], "";
      assert gaps'[..|gaps|] == gaps && next.candidates[..|gaps|] == s.candidates;
      assert Woven(gaps', next.candidates) == Woven(gaps, s.candidates) + last + (s.open + [ch]);
      assert text + [ch] == Woven(gaps, s.candidates) + last + (s.open + [ch]);
      assert "" + next.open == "";
    } else {
      gaps', last' := gaps, if s.open == "" && next.open == "" then last + [ch] else last;
      assert text + [ch] == Woven(gaps, s.candidates) + (last + s.open + [ch]);
      assert last + s.open + [ch] == last' + next.open;
    }
  }

  /** On any text, what the scanner returns are separate slices of it, in order, each from a brace to a brace. */
  lemma {:induction false} CandidatesAreSlices(raw: string) returns (gaps: seq<string>, last: string)
    ensures var s := Run(START, raw);
            Explains(gaps, last, s, raw)
    decreases |raw|
  {
    if raw == "" {
      gaps, last := [], "";
    } else {
      var n := |raw| - 1;
      gaps, last := CandidatesAreSlices(raw[..n]);
      RunJoin(START, raw[..n], [raw[n]]);
      assert raw[..n] + [raw[n]] == raw && [raw[n]][1..] == "";
      gaps, last := ExplainsNext(gaps, last, Run(START, raw[..n]), raw[..n], raw[n]);
    }
  }
}
