/** How a path becomes the identity the worktree manifest records. */
module TreeEncoding {
  // A file tree is written as a stream of records, and the stream is hashed. A `string` here is a byte string,
  // one `char` a byte, and an identity carries the stream itself, as SHA-256 is taken to be injective on streams.

  import opened NameOrder
  import opened Options

  /** What `lstat`, `readdir` (sorted), `readlink` and `readFile` find at a path. */
  datatype Tree =
    | Link(target: string)
    | Dir(entries: seq<Entry>)
    | File(bytes: string, executable: bool)
    | Special(mode: nat)
  datatype Entry = Entry(name: string, tree: Tree)

  datatype Record =
    | LinkRecord(rel: string, target: string)
    | DirRecord(rel: string)
    | FileRecord(rel: string, bytes: string, executable: bool)
    | SpecialRecord(rel: string, mode: nat)

  /** A name a directory can hold. */
  predicate IsName(name: string) {
    name != "" && '/' !in name
  }

  predicate Valid(t: Tree) {
    t.Dir? ==> ValidEntries(t.entries)
  }

  predicate ValidEntries(entries: seq<Entry>) {
    entries != [] ==> IsName(entries[0].name) && Valid(entries[0].tree) && ValidEntries(entries[1..])
  }

  function Below(rel: string, name: string): string {
    if rel == "" then name else rel + "/" + name
  }

  /** The records `digestInto` writes for `t` at `rel`, in order. */
  function Records(rel: string, t: Tree): seq<Record>
    decreases t, 0
  {
    match t
    case Link(target) => [LinkRecord(rel, target)]
    case Dir(entries) => [DirRecord(rel)] + EntryRecords(rel, entries)
    case File(bytes, executable) => [FileRecord(rel, bytes, executable)]
    case Special(mode) => [SpecialRecord(rel, mode)]
  }

  function EntryRecords(rel: string, entries: seq<Entry>): seq<Record>
    decreases entries
  {
    if entries == [] then []
    else Records(Below(rel, entries[0].name), entries[0].tree) + EntryRecords(rel, entries[1..])
  }

  // ---- the length-prefixed encoding ------------------------------------------------------------

  function Digit(n: nat): char
    requires n < 10
  {
    '0' + n as char
  }

  function Decimal(n: nat): string {
    if n < 10 then [Digit(n)] else Decimal(n / 10) + [Digit(n % 10)]
  }

  function Sized(value: string): string {
    Decimal(|value|) + ":" + value
  }

  function Encode(r: Record): string {
    match r
    case LinkRecord(rel, target) => "L" + Sized(rel) + Sized(target)
    case DirRecord(rel) => "D" + Sized(rel)
    case FileRecord(rel, bytes, executable) =>
      (if executable then "X" else "F") + Sized(rel) + Decimal(|bytes|) + ":" + bytes
    case SpecialRecord(rel, mode) => "S" + Sized(rel) + Decimal(mode) + ":"
  }

  function EncodeAll(records: seq<Record>): string {
    if records == [] then "" else Encode(records[0]) + EncodeAll(records[1..])
  }

  function Stream(t: Tree): string {
    EncodeAll(Records("", t))
  }

  // ---- reading a stream back -------------------------------------------------------------------

  function ColonAt(s: string): nat
    ensures ColonAt(s) <= |s|
  {
    if s == "" || s[0] == ':' then 0 else 1 + ColonAt(s[1..])
  }

  function DigitValue(c: char): nat {
    if '0' <= c <= '9' then (c - '0') as nat else 0
  }

  function Value(digits: string): nat {
    if digits == "" then 0 else Value(digits[..|digits| - 1]) * 10 + DigitValue(digits[|digits| - 1])
  }

  /** A number up to its colon, and what follows. */
  function ReadNumber(s: string): Option<(nat, string)> {
    var i := ColonAt(s);
    if i == |s| then None else Some((Value(s[..i]), s[i + 1..]))
  }

  function ReadSized(s: string): Option<(string, string)> {
    match ReadNumber(s)
    case None => None
    case Some((n, rest)) => if n <= |rest| then Some((rest[..n], rest[n..])) else None
  }

  function Decode(s: string): Option<(Record, string)> {
    if s == "" then None else
    match ReadSized(s[1..])
    case None => None
    case Some((rel, rest)) => DecodeTail(s[0], rel, rest)
  }

  function DecodeTail(letter: char, rel: string, s: string): Option<(Record, string)> {
    match letter
    case 'L' => (match ReadSized(s) case None => None case Some((target, rest)) => Some((LinkRecord(rel, target), rest)))
    case 'D' => Some((DirRecord(rel), s))
    case 'F' => (match ReadSized(s) case None => None case Some((bytes, rest)) => Some((FileRecord(rel, bytes, false), rest)))
    case 'X' => (match ReadSized(s) case None => None case Some((bytes, rest)) => Some((FileRecord(rel, bytes, true), rest)))
    case 'S' => (match ReadNumber(s) case None => None case Some((mode, rest)) => Some((SpecialRecord(rel, mode), rest)))
    case _ => None
  }

  function DecodeAll(s: string): Option<seq<Record>>
    decreases |s|
  {
    if s == "" then Some([]) else
    match Decode(s)
    case None => None
    case Some((r, rest)) =>
      if |rest| >= |s| then None else
      match DecodeAll(rest)
      case None => None
      case Some(more) => Some([r] + more)
  }

  /** The last segment of `rel` when it lies directly in `dir`. */
  function NameIn(dir: string, rel: string): Option<string> {
    var name := if dir == "" then rel else if dir + "/" <= rel then rel[|dir| + 1..] else "";
    if IsName(name) then Some(name) else None
  }

  /** The tree whose records lead `records`, and the records after it. */
  function Build(records: seq<Record>): Option<(Tree, seq<Record>)>
    ensures Build(records).Some? ==> |Build(records).value.1| < |records|
    decreases |records|, 0
  {
    if records == [] then None else
    match records[0]
    case LinkRecord(rel, target) => Some((Link(target), records[1..]))
    case DirRecord(rel) => var (entries, rest) := BuildEntries(rel, records[1..]); Some((Dir(entries), rest))
    case FileRecord(rel, bytes, executable) => Some((File(bytes, executable), records[1..]))
    case SpecialRecord(rel, mode) => Some((Special(mode), records[1..]))
  }

  function BuildEntries(dir: string, records: seq<Record>): (seq<Entry>, seq<Record>)
    ensures |BuildEntries(dir, records).1| <= |records|
    decreases |records|, 1
  {
    if records == [] then ([], []) else
    match NameIn(dir, records[0].rel)
    case None => ([], records)
    case Some(name) =>
      match Build(records)
      case None => ([], records)
      case Some((t, rest)) =>
        var (more, last) := BuildEntries(dir, rest);
        ([Entry(name, t)] + more, last)
  }

  /** The tree a stream stands for. */
  function TreeOf(stream: string): Option<Tree> {
    match DecodeAll(stream)
    case None => None
    case Some(records) =>
      match Build(records)
      case None => None
      case Some((t, rest)) => if rest == [] then Some(t) else None
  }

  // ---- reading undoes writing ------------------------------------------------------------------

  lemma {:induction false} DecimalReadsBack(n: nat, rest: string)
    ensures Value(Decimal(n)) == n
    ensures ColonAt(Decimal(n) + ":" + rest) == |Decimal(n)|
    ensures |Decimal(n)| > 0
  {
    DecimalIsDigits(n);
    ColonAfter(Decimal(n), rest);
  }

  lemma {:induction false} DecimalIsDigits(n: nat)
    ensures Value(Decimal(n)) == n && |Decimal(n)| > 0
    ensures forall i :: 0 <= i < |Decimal(n)| ==> Decimal(n)[i] != ':'
  {
    if n >= 10 {
      DecimalIsDigits(n / 10);
      var d := Decimal(n);
      assert d[..|d| - 1] == Decimal(n / 10);
    } else {
      assert Value([Digit(n)]) == Value([]) * 10 + DigitValue(Digit(n));
    }
  }

  lemma {:induction false} ColonAfter(digits: string, rest: string)
    requires forall i :: 0 <= i < |digits| ==> digits[i] != ':'
    ensures ColonAt(digits + ":" + rest) == |digits|
  {
    if digits != "" {
      assert (digits + ":" + rest)[1..] == digits[1..] + ":" + rest;
      ColonAfter(digits[1..], rest);
    }
  }

  lemma NumberReadsBack(n: nat, rest: string)
    ensures ReadNumber(Decimal(n) + ":" + rest) == Some((n, rest))
  {
    DecimalReadsBack(n, rest);
    var s := Decimal(n) + ":" + rest;
    assert s[..|Decimal(n)|] == Decimal(n);
    assert s[|Decimal(n)| + 1..] == rest;
  }

  lemma SizedReadsBack(value: string, rest: string)
    ensures ReadSized(Sized(value) + rest) == Some((value, rest))
  {
    assert Sized(value) + rest == Decimal(|value|) + ":" + (value + rest);
    NumberReadsBack(|value|, value + rest);
    assert (value + rest)[..|value|] == value;
    assert (value + rest)[|value|..] == rest;
  }

  /** Every record starts with its letter and its sized path. */
  function Letter(r: Record): char {
    match r
    case LinkRecord(_, _) => 'L'
    case DirRecord(_) => 'D'
    case FileRecord(_, _, executable) => if executable then 'X' else 'F'
    case SpecialRecord(_, _) => 'S'
  }

  function Tail(r: Record): string {
    match r
    case LinkRecord(_, target) => Sized(target)
    case DirRecord(_) => ""
    case FileRecord(_, bytes, _) => Sized(bytes)
    case SpecialRecord(_, mode) => Decimal(mode) + ":"
  }

  lemma EncodeParts(r: Record)
    ensures Encode(r) == [Letter(r)] + Sized(r.rel) + Tail(r)
  {
    match r
    case LinkRecord(rel, target) =>
    case DirRecord(rel) =>
    case FileRecord(rel, bytes, executable) =>
      assert Sized(rel) + Decimal(|bytes|) + ":" + bytes == Sized(rel) + Sized(bytes);
    case SpecialRecord(rel, mode) =>
      assert Sized(rel) + Decimal(mode) + ":" == Sized(rel) + (Decimal(mode) + ":");
  }

  lemma TailReadsBack(r: Record, rest: string)
    ensures DecodeTail(Letter(r), r.rel, Tail(r) + rest) == Some((r, rest))
  {
    match r
    case LinkRecord(rel, target) => SizedReadsBack(target, rest);
    case DirRecord(rel) => assert Tail(r) + rest == rest;
    case FileRecord(rel, bytes, executable) => SizedReadsBack(bytes, rest);
    case SpecialRecord(rel, mode) => NumberReadsBack(mode, rest);
  }

  lemma RecordReadsBack(r: Record, rest: string)
    ensures Decode(Encode(r) + rest) == Some((r, rest))
  {
    var s, path, tail := Encode(r) + rest, Sized(r.rel), Tail(r);
    EncodeParts(r);
    assert s == [Letter(r)] + (path + (tail + rest));
    SizedReadsBack(r.rel, Tail(r) + rest);
    TailReadsBack(r, rest);
  }

  lemma {:induction false} RecordsReadBack(records: seq<Record>)
    ensures DecodeAll(EncodeAll(records)) == Some(records)
  {
    if records != [] {
      RecordReadsBack(records[0], EncodeAll(records[1..]));
      RecordsReadBack(records[1..]);
      assert |Encode(records[0])| > 0;
      assert [records[0]] + records[1..] == records;
    }
  }

  /** `records` starts with nothing below `dir`. */
  predicate Outside(dir: string, records: seq<Record>) {
    records == [] || (dir != "" && !(dir + "/" <= records[0].rel))
  }

  lemma NameReadsBack(dir: string, name: string)
    requires IsName(name)
    ensures NameIn(dir, Below(dir, name)) == Some(name)
  {
    if dir != "" {
      assert Below(dir, name)[|dir| + 1..] == name;
    }
  }

  /** An entry of `dir` does not lie below another entry of `dir`. */
  lemma SiblingIsOutside(dir: string, name: string, sibling: string)
    requires IsName(name) && IsName(sibling)
    ensures !(Below(dir, name) + "/" <= Below(dir, sibling))
  {
    var inner, rel := Below(dir, name), Below(dir, sibling);
    if |rel| > |inner| {
      assert rel[|inner|] == sibling[|name|];
      assert (inner + "/")[|inner|] == '/';
    }
  }

  /** What is not below `dir` is not below an entry of `dir`. */
  lemma OutsideDeeper(dir: string, name: string, records: seq<Record>)
    requires IsName(name) && Outside(dir, records)
    ensures Outside(Below(dir, name), records)
  {
  }

  lemma FirstRecord(rel: string, t: Tree)
    ensures Records(rel, t) != [] && Records(rel, t)[0].rel == rel
  {
  }

  lemma LeafReadsBack(rel: string, t: Tree, tail: seq<Record>)
    requires !t.Dir?
    ensures Build(Records(rel, t) + tail) == Some((t, tail))
  {
    assert Records(rel, t) == [Records(rel, t)[0]];
    assert (Records(rel, t) + tail)[1..] == tail;
  }

  lemma DirReadsBack(rel: string, entries: seq<Entry>, inside: seq<Record>, tail: seq<Record>)
    requires BuildEntries(rel, inside) == (entries, tail)
    ensures Build([DirRecord(rel)] + inside) == Some((Dir(entries), tail))
  {
    assert ([DirRecord(rel)] + inside)[1..] == inside;
  }

  lemma {:induction false} TreeReadsBack(rel: string, t: Tree, tail: seq<Record>)
    requires Valid(t) && (t.Dir? ==> Outside(rel, tail))
    ensures Build(Records(rel, t) + tail) == Some((t, tail))
    decreases t, 1
  {
    if t.Dir? {
      var inside := EntryRecords(rel, t.entries) + tail;
      EntriesReadBack(rel, t.entries, tail);
      DirReadsBack(rel, t.entries, inside, tail);
      assert Records(rel, t) + tail == [DirRecord(rel)] + inside;
    } else {
      LeafReadsBack(rel, t, tail);
    }
  }

  /** What follows the first entry's records is outside that entry. */
  lemma RestIsOutside(dir: string, entries: seq<Entry>, tail: seq<Record>)
    requires ValidEntries(entries) && entries != [] && Outside(dir, tail)
    ensures Outside(Below(dir, entries[0].name), EntryRecords(dir, entries[1..]) + tail)
  {
    if entries[1..] == [] {
      assert EntryRecords(dir, entries[1..]) + tail == tail;
      OutsideDeeper(dir, entries[0].name, tail);
    } else {
      FirstRecord(Below(dir, entries[1].name), entries[1].tree);
      SiblingIsOutside(dir, entries[0].name, entries[1].name);
    }
  }

  lemma BuildOneEntry(dir: string, name: string, records: seq<Record>, rest: seq<Record>)
    requires records != [] && NameIn(dir, records[0].rel) == Some(name)
    requires Build(records).Some? && Build(records).value.1 == rest
    ensures BuildEntries(dir, records) ==
            ([Entry(name, Build(records).value.0)] + BuildEntries(dir, rest).0, BuildEntries(dir, rest).1)
  {
  }

  lemma {:induction false} EntriesReadBack(dir: string, entries: seq<Entry>, tail: seq<Record>)
    requires ValidEntries(entries) && Outside(dir, tail)
    ensures BuildEntries(dir, EntryRecords(dir, entries) + tail) == (entries, tail)
    decreases entries
  {
    if entries == [] {
      assert EntryRecords(dir, entries) + tail == tail;
    } else {
      var name, rest := entries[0].name, EntryRecords(dir, entries[1..]) + tail;
      var records := Records(Below(dir, name), entries[0].tree) + rest;
      assert EntryRecords(dir, entries) + tail == records;
      RestIsOutside(dir, entries, tail);
      TreeReadsBack(Below(dir, name), entries[0].tree, rest);
      EntriesReadBack(dir, entries[1..], tail);
      FirstRecord(Below(dir, name), entries[0].tree);
      NameReadsBack(dir, name);
      BuildOneEntry(dir, name, records, rest);
      assert [Entry(name, entries[0].tree)] + entries[1..] == entries;
    }
  }

  /** Every tree can be read back from its stream. */
  lemma StreamReadsBack(t: Tree)
    requires Valid(t)
    ensures TreeOf(Stream(t)) == Some(t)
  {
    RecordsReadBack(Records("", t));
    TreeReadsBack("", t, []);
    assert Records("", t) + [] == Records("", t);
  }

  lemma EqualStreamsMeanEqualTrees(t: Tree, u: Tree)
    requires Valid(t) && Valid(u) && Stream(t) == Stream(u)
    ensures t == u
  {
    StreamReadsBack(t);
    StreamReadsBack(u);
  }

  // ---- the older encoding ----------------------------------------------------------------------

  function EncodeOld(r: Record): string {
    match r
    case LinkRecord(rel, target) => "L " + rel + " " + target + "\n"
    case DirRecord(rel) => "D " + rel + "\n"
    case FileRecord(rel, bytes, _) => "F " + rel + " " + bytes + "\n"
    case SpecialRecord(rel, mode) => "S " + rel + " " + Decimal(mode) + "\n"
  }

  function EncodeAllOld(records: seq<Record>): string {
    if records == [] then "" else EncodeOld(records[0]) + EncodeAllOld(records[1..])
  }

  function OldStream(t: Tree): string {
    EncodeAllOld(Records("", t))
  }

  /** The directory an older cezar left for a generated skill. */
  function SkillDir(skill: Tree): Tree {
    Dir([Entry("SKILL.md", skill)])
  }

  lemma OldStreamOfOne(t: Tree)
    requires !t.Dir?
    ensures OldStream(t) == EncodeOld(Records("", t)[0])
  {
    var r := Records("", t)[0];
    assert Records("", t) == [r] && [r][1..] == [];
    assert EncodeAllOld([r]) == EncodeOld(r) + EncodeAllOld([r][1..]);
  }

  lemma OldStreamLetter(t: Tree)
    ensures OldStream(t) != ""
    ensures OldStream(t)[0] == match t { case Link(_) => 'L' case Dir(_) => 'D' case File(_, _) => 'F' case Special(_) => 'S' }
  {
    FirstRecord("", t);
    assert OldStream(t)[0] == EncodeOld(Records("", t)[0])[0];
  }

  /** A path that reads as a file recorded in the older encoding holds the bytes that were recorded. */
  lemma OldStreamOfFile(t: Tree, u: Tree)
    requires t.File? && OldStream(t) == OldStream(u)
    ensures u.File? && u.bytes == t.bytes
  {
    OldStreamLetter(t);
    OldStreamLetter(u);
    OldStreamOfOne(t);
    OldStreamOfOne(u);
    var a, b := "F " + "" + " " + t.bytes + "\n", "F " + "" + " " + u.bytes + "\n";
    assert a == b;
    assert t.bytes == a[3..|a| - 1] && u.bytes == b[3..|b| - 1];
  }

  lemma OldStreamOfSkillDir(skill: Tree)
    ensures OldStream(SkillDir(skill)) == "D \n" + EncodeAllOld(Records("SKILL.md", skill))
  {
    var e := [Entry("SKILL.md", skill)];
    assert EntryRecords("", e) == Records("SKILL.md", skill) + EntryRecords("", e[1..]);
    assert EntryRecords("", e) == Records("SKILL.md", skill);
    var r := Records("", SkillDir(skill));
    assert r[0] == DirRecord("") && r[1..] == Records("SKILL.md", skill);
    assert EncodeOld(DirRecord("")) == "D \n";
  }

  /** A directory that holds only `SKILL.md` and reads as one that held one skill file still does. */
  lemma OldStreamOfOneSkill(skill: Tree, other: Tree)
    requires skill.File? && OldStream(SkillDir(skill)) == OldStream(SkillDir(other))
    ensures other.File? && other.bytes == skill.bytes
  {
    OldStreamOfSkillDir(skill);
    OldStreamOfSkillDir(other);
    var a, b := EncodeAllOld(Records("SKILL.md", skill)), EncodeAllOld(Records("SKILL.md", other));
    assert a == ("D \n" + a)[3..] && b == ("D \n" + b)[3..];
    OldFileRecord("SKILL.md", skill);
    OldFileRecord("SKILL.md", other);
    var n := |"F " + "SKILL.md" + " "|;
    assert skill.bytes == a[n..|a| - 1];
    assert other.File? ==> other.bytes == b[n..|b| - 1];
  }

  /** Only a file's records start with an F, and they are its one record. */
  lemma OldFileRecord(rel: string, t: Tree)
    ensures EncodeAllOld(Records(rel, t)) != ""
    ensures t.File? <==> EncodeAllOld(Records(rel, t))[0] == 'F'
    ensures t.File? ==> EncodeAllOld(Records(rel, t)) == "F " + rel + " " + t.bytes + "\n"
  {
    FirstRecord(rel, t);
    var r := Records(rel, t)[0];
    assert EncodeAllOld(Records(rel, t)) == EncodeOld(r) + EncodeAllOld(Records(rel, t)[1..]);
    if t.File? {
      assert Records(rel, t)[1..] == [];
      assert EncodeOld(r) + "" == EncodeOld(r);
    }
  }

  /** The older encoding confuses trees: what a file holds can pass for another file listed after it. */
  lemma OldStreamsCollide(n: string, m: string, x: string, y: string)
    requires IsName(n) && IsName(m) && Less(n, m)
    ensures var one := Dir([Entry(n, File(x + "\nF " + m + " " + y, false))]);
            var two := Dir([Entry(n, File(x, false)), Entry(m, File(y, false))]);
            Valid(one) && Valid(two) && one != two && OldStream(one) == OldStream(two)
  {
    var a, b, c := Entry(n, File(x, false)), Entry(m, File(y, false)), Entry(n, File(x + "\nF " + m + " " + y, false));
    FilesValid([c]);
    FilesValid([a, b]);
    OldStreamOfFiles(c, []);
    OldStreamOfFiles(a, [b]);
    assert [a] + [b] == [a, b] && [c] + [] == [c];
    RecordsOfFile(b, []);
    OldOfOne(FileRecord(m, y, false));
    var d, f, g := EncodeOld(DirRecord("")), EncodeOld(FileRecord(n, x, false)), EncodeOld(FileRecord(m, y, false));
    assert EncodeOld(FileRecord(n, c.tree.bytes, false)) == f + g by {
      OldFilesJoin(n, m, x, y);
    }
    assert d + (f + g) == d + f + g;
    assert d + (f + g) + "" == d + (f + g);
  }

  lemma OldFilesJoin(n: string, m: string, x: string, y: string)
    ensures EncodeOld(FileRecord(n, x + "\nF " + m + " " + y, false))
         == EncodeOld(FileRecord(n, x, false)) + EncodeOld(FileRecord(m, y, false))
  {
    var p, q, between := "F " + n + " ", "F " + m + " ", "\nF ";
    assert between == "\n" + "F ";
    Regroup(x, "\n", "F ", m, " ", y);
    Rejoin(p, x, "\n", q, y);
  }

  lemma Regroup(x: string, e: string, f: string, m: string, g: string, y: string)
    ensures x + (e + f) + m + g + y == x + e + (f + m + g) + y
  {
  }

  lemma Rejoin(p: string, x: string, e: string, q: string, y: string)
    ensures p + (x + e + q + y) + e == (p + x + e) + (q + y + e)
  {
  }

  lemma OldStreamOfFiles(e: Entry, rest: seq<Entry>)
    requires e.tree.File?
    ensures OldStream(Dir([e] + rest)) == EncodeOld(DirRecord(""))
              + EncodeOld(FileRecord(e.name, e.tree.bytes, e.tree.executable)) + EncodeAllOld(EntryRecords("", rest))
  {
    var f := FileRecord(e.name, e.tree.bytes, e.tree.executable);
    RecordsOfDir(e, rest, f);
    OldOfTwo(DirRecord(""), f, EntryRecords("", rest));
  }

  lemma RecordsOfDir(e: Entry, rest: seq<Entry>, f: Record)
    requires e.tree.File? && f == FileRecord(e.name, e.tree.bytes, e.tree.executable)
    ensures Records("", Dir([e] + rest)) == [DirRecord(""), f] + EntryRecords("", rest)
  {
    RecordsOfFile(e, rest);
    assert [DirRecord("")] + ([f] + EntryRecords("", rest)) == [DirRecord(""), f] + EntryRecords("", rest);
  }

  lemma {:induction false} FilesValid(entries: seq<Entry>)
    requires forall e :: e in entries ==> IsName(e.name) && e.tree.File?
    ensures ValidEntries(entries)
  {
    if entries != [] {
      FilesValid(entries[1..]);
    }
  }

  lemma RecordsOfFile(e: Entry, rest: seq<Entry>)
    requires e.tree.File?
    ensures EntryRecords("", [e] + rest) == [FileRecord(e.name, e.tree.bytes, e.tree.executable)] + EntryRecords("", rest)
  {
    assert ([e] + rest)[1..] == rest;
  }

  lemma OldOfOne(r: Record)
    ensures EncodeAllOld([r]) == EncodeOld(r)
  {
    assert [r][1..] == [];
    assert EncodeOld(r) + "" == EncodeOld(r);
  }

  lemma OldOfTwo(r: Record, q: Record, rest: seq<Record>)
    ensures EncodeAllOld([r, q] + rest) == EncodeOld(r) + EncodeOld(q) + EncodeAllOld(rest)
  {
    assert ([r, q] + rest)[1..] == [q] + rest;
    assert ([q] + rest)[1..] == rest;
  }

  // ---- identities ------------------------------------------------------------------------------

  /** `tree2:` and `tree:` carry a stream; `Other` stands for every identity no digest produces. */
  datatype Identity = LinkTo(target: string) | Tree2(stream: string) | Tree1(stream: string) | Other(text: string)

  function IdentityOf(t: Tree): Identity {
    if t.Link? then LinkTo(t.target) else Tree2(Stream(t))
  }

  function OldIdentityOf(t: Tree): Identity {
    if t.Link? then LinkTo(t.target) else Tree1(OldStream(t))
  }

  predicate Verifiable(id: Identity) {
    !id.Other?
  }

  lemma IdentityNamesOneTree(t: Tree, u: Tree)
    requires Valid(t) && Valid(u)
    ensures IdentityOf(t) == IdentityOf(u) <==> t == u
  {
    if IdentityOf(t) == IdentityOf(u) && !t.Link? {
      EqualStreamsMeanEqualTrees(t, u);
    }
  }

  // ---- as it is written ------------------------------------------------------------------------

  /** The letters, the lengths and the colons of today's records; an executable file has a letter of its own. */
  lemma RecordsAsWritten(rel: string, value: string, mode: nat)
    ensures Encode(LinkRecord(rel, value)) == "L" + (Decimal(|rel|) + ":" + rel) + (Decimal(|value|) + ":" + value)
    ensures Encode(DirRecord(rel)) == "D" + (Decimal(|rel|) + ":" + rel)
    ensures Encode(SpecialRecord(rel, mode)) == "S" + (Decimal(|rel|) + ":" + rel) + Decimal(mode) + ":"
  {
  }

  lemma FilesAsWritten(rel: string, bytes: string)
    ensures Encode(FileRecord(rel, bytes, false)) == "F" + (Decimal(|rel|) + ":" + rel) + Decimal(|bytes|) + ":" + bytes
    ensures Encode(FileRecord(rel, bytes, true)) == "X" + (Decimal(|rel|) + ":" + rel) + Decimal(|bytes|) + ":" + bytes
  {
  }

  /** Numbers are decimal. */
  lemma NumbersAsWritten()
    ensures Decimal(0) == "0" && Decimal(7) == "7" && Decimal(10) == "10" && Decimal(93) == "93"
  {
  }

  /** The older records have spaces and line ends instead, and one letter for every file. */
  lemma OldRecordsAsWritten(rel: string, value: string, executable: bool, mode: nat)
    requires mode < 10
    ensures EncodeOld(LinkRecord(rel, value)) == "L " + rel + " " + value + "\n" && EncodeOld(DirRecord(rel)) == "D " + rel + "\n"
    ensures EncodeOld(FileRecord(rel, value, executable)) == "F " + rel + " " + value + "\n"
    ensures EncodeOld(SpecialRecord(rel, mode)) == "S " + rel + " " + ['0' + mode as char] + "\n"
  {
  }
}
