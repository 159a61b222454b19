/**
 * The one-pass scanner that finds a key declared more than once in one JSON object.
 *
 * `Scan` is the scanner as a function of the text still to be read; the method `Find` is its loop.
 * `Objects` says, of a document tree, which objects it holds, where, and which keys each declares on
 * which lines. The theorem is that the scanner reports exactly the repeated keys of those objects.
 */
module DuplicateKeys {
  import opened Wrappers
  import opened JsonText

  datatype DuplicateKey = DuplicateKey(key: string, path: string, lines: seq<nat>)

  /** A JavaScript Map from key to lines, in insertion order. */
  type KeyLines = seq<(string, seq<nat>)>

  datatype Frame = Frame(isObject: bool, tag: string, keys: KeyLines)

  /** The open containers, innermost on top. */
  datatype Stack = Bottom | Push(top: Frame, below: Stack)

  datatype State = State(line: nat, pendingKey: Option<(string, nat)>, lastKey: Option<string>,
                         stack: Stack, found: seq<DuplicateKey>)

  const START := State(1, None, None, Bottom, [])

  // ---- the frame's map ----

  function Record(keys: KeyLines, name: string, line: nat): KeyLines {
    if keys == [] then [(name, [line])]
    else if keys[0].0 == name then [(name, keys[0].1 + [line])] + keys[1..]
    else [keys[0]] + Record(keys[1..], name, line)
  }

  function Repeated(keys: KeyLines, path: string): seq<DuplicateKey> {
    if keys == [] then []
    else (if |keys[0].1| > 1 then [DuplicateKey(keys[0].0, path, keys[0].1)] else []) + Repeated(keys[1..], path)
  }

  // ---- the scanner ----

  function PathOf(stack: Stack): string {
    match stack
    case Bottom => ['$']
    case Push(top, below) => PathOf(below) + top.tag
  }

  function CloseFrame(st: State): State {
    match st.stack
    case Bottom => st
    case Push(frame, below) =>
      if !frame.isObject then st.(stack := below)
      else st.(stack := below, found := st.found + Repeated(frame.keys, PathOf(below) + frame.tag))
  }

  function CloseAll(st: State): State
    decreases st.stack
  {
    if st.stack.Bottom? then st else CloseAll(CloseFrame(st))
  }

  function SkipLine(t: string): (r: string)
    ensures |r| <= |t|
  {
    if t == [] || t[0] == '\n' then t else SkipLine(t[1..])
  }

  /** The text after the end of a block comment, and the lines passed. */
  function SkipBlock(t: string): (r: (string, nat))
    ensures |r.0| <= |t|
  {
    if t == [] then ([], 0)
    else if t[0] == '*' && |t| > 1 && t[1] == '/' then (t[2..], 0)
    else var (rest, n) := SkipBlock(t[1..]); (rest, n + if t[0] == '\n' then 1 else 0)
  }

  /** A string's value with its backslashes dropped, the text after it, and the lines passed. */
  function ScanString(t: string): (r: (string, string, nat))
    ensures |r.1| <= |t|
    decreases |t|
  {
    if t == [] then ([], [], 0)
    else if t[0] == '\\' then
      if |t| == 1 then ([], [], 0)
      else var (value, rest, n) := ScanString(t[2..]); ([t[1]] + value, rest, n)
    else if t[0] == '"' then ([], t[1..], 0)
    else var (value, rest, n) := ScanString(t[1..]); ([t[0]] + value, rest, n + if t[0] == '\n' then 1 else 0)
  }

  predicate ColonNext(t: string) {
    t != [] && if IsSpace(t[0]) then ColonNext(t[1..]) else t[0] == ':'
  }

  function TopIsObject(st: State): bool {
    st.stack.Push? && st.stack.top.isObject
  }

  function NextLabel(st: State): string {
    if st.lastKey.Some? then ['.'] + st.lastKey.value else if st.stack.Push? then ['[', ']'] else []
  }

  function Opened(st: State, isObject: bool): State {
    st.(stack := Push(Frame(isObject, NextLabel(st), []), st.stack), lastKey := None, pendingKey := None)
  }

  function Closed(st: State): State {
    CloseFrame(st).(lastKey := None, pendingKey := None)
  }

  function Declared(st: State): State {
    if st.pendingKey.Some? && st.stack.Push? then
      var (name, line) := st.pendingKey.value;
      var top := st.stack.top;
      st.(stack := Push(top.(keys := Record(top.keys, name, line)), st.stack.below), lastKey := Some(name),
          pendingKey := None)
    else st
  }

  function Quoted(st: State, value: string, rest: string, passed: nat): State {
    var read := st.(line := st.line + passed);
    if TopIsObject(st) && ColonNext(rest) then read.(pendingKey := Some((value, st.line))) else read.(lastKey := None)
  }

  function Scan(t: string, st: State): State
    decreases |t|
  {
    if t == [] then st
    else
      var c := t[0];
      if c == '\n' then Scan(t[1..], st.(line := st.line + 1))
      else if c == ' ' || c == '\t' || c == '\r' then Scan(t[1..], st)
      else if c == '/' && |t| > 1 && t[1] == '/' then Scan(SkipLine(t), st)
      else if c == '/' && |t| > 1 && t[1] == '*' then
        var (rest, passed) := SkipBlock(t[2..]);
        Scan(rest, st.(line := st.line + passed))
      else if c == '"' then
        var (value, rest, passed) := ScanString(t[1..]);
        Scan(rest, Quoted(st, value, rest, passed))
      else if c == '{' || c == '[' then Scan(t[1..], Opened(st, c == '{'))
      else if c == '}' || c == ']' then Scan(t[1..], Closed(st))
      else if c == ':' then Scan(t[1..], Declared(st))
      else if c == ',' then Scan(t[1..], st.(lastKey := None))
      else Scan(t[1..], st)
  }

  function Duplicates(text: string): seq<DuplicateKey> {
    CloseAll(Scan(text, START)).found
  }

  // ---- what a document declares ----

  /** A key as the scanner compares it: every backslash dropped, the character after it kept. */
  function Name(chars: seq<Ch>): string {
    if chars == [] then [] else [chars[0].c] + Name(chars[1..])
  }

  type Declarations = seq<(string, nat)>

  /** The keys an object declares, each with the line it starts on. */
  function Declares(e: Entries, line: nat): Declarations {
    match e
    case NoEntries(_) => []
    case AnEntry(before, tag, value, after, rest) =>
      DeclaredBy(tag, line + GapLines(before))
      + DeclaresAfter(rest, line + GapLines(before) + LabelLines(tag) + ValueLines(value) + GapLines(after))
  }

  function DeclaresAfter(r: Rest, line: nat): Declarations {
    match r
    case Done => []
    case Comma(next) => Declares(next, line)
  }

  /** The scanner takes a string for a key only when nothing but white space stands before its colon. */
  predicate Seen(tag: Label) {
    tag.Key? && Blank(tag.toColon)
  }

  /** What the tag of an entry that starts on this line adds to its object's declarations. */
  function DeclaredBy(tag: Label, line: nat): Declarations {
    if Seen(tag) then [(Name(tag.chars), line)] else []
  }

  function Suffix(tag: Label): string {
    if Seen(tag) then ['.'] + Name(tag.chars) else ['[', ']']
  }

  /** Every object in a value, inner ones first, with its path and what it declares. */
  function Objects(v: Value, path: string, line: nat): seq<(string, Declarations)> {
    match v
    case Text(_) => []
    case Atom(_) => []
    case Box(isObject, entries) =>
      ObjectsIn(entries, path, line) + if isObject then [(path, Declares(entries, line))] else []
  }

  function ObjectsIn(e: Entries, path: string, line: nat): seq<(string, Declarations)> {
    match e
    case NoEntries(_) => []
    case AnEntry(before, tag, value, after, rest) =>
      var start := line + GapLines(before) + LabelLines(tag);
      Objects(value, path + Suffix(tag), start) + ObjectsAfter(rest, path, start + ValueLines(value) + GapLines(after))
  }

  function ObjectsAfter(r: Rest, path: string, line: nat): seq<(string, Declarations)> {
    match r
    case Done => []
    case Comma(next) => ObjectsIn(next, path, line)
  }

  /** The lines that declare name, in order. */
  function LinesOf(ds: Declarations, name: string): seq<nat> {
    if ds == [] then [] else (if ds[0].0 == name then [ds[0].1] else []) + LinesOf(ds[1..], name)
  }

  /** d is a repeated key of one of these objects, with all of its lines. */
  ghost predicate IsRepeat(objects: seq<(string, Declarations)>, d: DuplicateKey) {
    exists i :: 0 <= i < |objects| && d.path == objects[i].0 && d.lines == LinesOf(objects[i].1, d.key) && |d.lines| > 1
  }

  /** What the scanner reports for these objects. */
  function RecordAll(keys: KeyLines, ds: Declarations): KeyLines
    decreases |ds|
  {
    if ds == [] then keys else RecordAll(Record(keys, ds[0].0, ds[0].1), ds[1..])
  }

  function Reports(objects: seq<(string, Declarations)>): seq<DuplicateKey> {
    if objects == [] then []
    else Repeated(RecordAll([], objects[0].1), objects[0].0) + Reports(objects[1..])
  }

  // ---- the report is exact ----

  function Lookup(keys: KeyLines, name: string): seq<nat> {
    if keys == [] then [] else if keys[0].0 == name then keys[0].1 else Lookup(keys[1..], name)
  }

  ghost predicate DistinctKeys(keys: KeyLines) {
    forall i, j | 0 <= i < j < |keys| :: keys[i].0 != keys[j].0
  }

  lemma {:induction false} RecordKeeps(keys: KeyLines, name: string, line: nat)
    requires DistinctKeys(keys)
    ensures DistinctKeys(Record(keys, name, line))
    ensures forall k | k in Record(keys, name, line) :: k.0 == name || exists m :: m in keys && m.0 == k.0
    ensures forall n :: Lookup(Record(keys, name, line), n) == Lookup(keys, n) + if n == name then [line] else []
  {
    if keys != [] && keys[0].0 != name {
      RecordKeeps(keys[1..], name, line);
      var rest := Record(keys[1..], name, line);
      forall i | 0 <= i < |rest| ensures rest[i].0 != keys[0].0 {
        assert rest[i] in rest;
        if rest[i].0 != name {
          var m :| m in keys[1..] && m.0 == rest[i].0;
          var j :| 0 <= j < |keys[1..]| && keys[1..][j] == m;
          assert keys[j + 1] == m;
        }
      }
      forall k | k in Record(keys, name, line) ensures k.0 == name || exists m :: m in keys && m.0 == k.0 {
        if k != keys[0] && k.0 != name {
          var m :| m in keys[1..] && m.0 == k.0;
          assert m in keys;
        }
      }
    }
  }

  lemma {:induction false} RecordAllKeeps(keys: KeyLines, ds: Declarations)
    requires DistinctKeys(keys)
    ensures DistinctKeys(RecordAll(keys, ds))
    ensures forall n :: Lookup(RecordAll(keys, ds), n) == Lookup(keys, n) + LinesOf(ds, n)
    decreases |ds|
  {
    if ds != [] {
      RecordKeeps(keys, ds[0].0, ds[0].1);
      RecordAllKeeps(Record(keys, ds[0].0, ds[0].1), ds[1..]);
    }
  }

  lemma {:induction false} RepeatedAre(keys: KeyLines, path: string)
    requires DistinctKeys(keys)
    ensures forall d :: d in Repeated(keys, path) <==>
                        d.path == path && d.lines == Lookup(keys, d.key) && |d.lines| > 1
  {
    if keys != [] {
      RepeatedAre(keys[1..], path);
      forall d ensures d in Repeated(keys, path) <==>
                       d.path == path && d.lines == Lookup(keys, d.key) && |d.lines| > 1 {
        if d in Repeated(keys[1..], path) && d.key == keys[0].0 {
          LookupIsThere(keys[1..], d.key);
          assert false;
        }
      }
    }
  }

  lemma {:induction false} LookupIsThere(keys: KeyLines, name: string)
    requires Lookup(keys, name) != []
    ensures exists i :: 0 <= i < |keys| && keys[i].0 == name
  {
    if keys[0].0 != name {
      LookupIsThere(keys[1..], name);
      var i :| 0 <= i < |keys[1..]| && keys[1..][i].0 == name;
      assert keys[i + 1].0 == name;
    }
  }

  /** Reported: exactly the keys some object declares more than once, with every line that declares them. */
  lemma {:induction false} ReportsAreTheRepeats(objects: seq<(string, Declarations)>)
    ensures forall d :: d in Reports(objects) <==> IsRepeat(objects, d)
  {
    if objects != [] {
      var (path, ds) := objects[0];
      RecordAllKeeps([], ds);
      RepeatedAre(RecordAll([], ds), path);
      ReportsAreTheRepeats(objects[1..]);
      forall d ensures d in Reports(objects) <==> IsRepeat(objects, d) {
        assert Lookup([], d.key) + LinesOf(ds, d.key) == LinesOf(ds, d.key);
        if IsRepeat(objects[1..], d) {
          var i :| 0 <= i < |objects[1..]| && d.path == objects[1..][i].0
            && d.lines == LinesOf(objects[1..][i].1, d.key) && |d.lines| > 1;
          assert d.path == objects[i + 1].0 && d.lines == LinesOf(objects[i + 1].1, d.key);
        }
        if IsRepeat(objects, d) {
          var i :| 0 <= i < |objects| && d.path == objects[i].0 && d.lines == LinesOf(objects[i].1, d.key)
            && |d.lines| > 1;
          if i > 0 {
            assert objects[1..][i - 1] == objects[i];
          }
        }
      }
    }
  }

  lemma {:induction false} ReportsAdd(a: seq<(string, Declarations)>, b: seq<(string, Declarations)>)
    ensures Reports(a + b) == Reports(a) + Reports(b)
  {
    if a == [] {
      assert a + b == b;
    } else {
      assert (a + b)[1..] == a[1..] + b;
      ReportsAdd(a[1..], b);
    }
  }

  // ---- scanning printed text ----

  lemma {:induction false} SkipLineOver(text: string, rest: string)
    requires '\n' !in text
    ensures SkipLine(text + (['\n'] + rest)) == ['\n'] + rest
  {
    if text == [] {
      assert text + (['\n'] + rest) == ['\n'] + rest;
    } else {
      assert (text + (['\n'] + rest))[1..] == text[1..] + (['\n'] + rest);
      SkipLineOver(text[1..], rest);
    }
  }

  lemma {:induction false} SkipBlockOver(text: string, rest: string)
    requires HasNoBlockEnd(text)
    ensures SkipBlock(text + (['*', '/'] + rest)) == (rest, Newlines(text))
  {
    var t := text + (['*', '/'] + rest);
    if text == [] {
      assert t == ['*', '/'] + rest;
      assert t[2..] == rest;
    } else {
      assert t[1..] == text[1..] + (['*', '/'] + rest);
      assert t[1] == if |text| > 1 then text[1] else '*';
      SkipBlockOver(text[1..], rest);
    }
  }

  lemma {:induction false} ScanStringOver(chars: seq<Ch>, rest: string)
    requires CharsOk(chars)
    ensures ScanString(PrintChars(chars) + (['"'] + rest)) == (Name(chars), rest, 0)
  {
    var t := PrintChars(chars) + (['"'] + rest);
    if chars == [] {
      assert t == ['"'] + rest;
    } else {
      assert ChOk(chars[0]);
      var more := PrintChars(chars[1..]) + (['"'] + rest);
      ScanStringOver(chars[1..], rest);
      match chars[0]
      case Plain(p) => assert t[0] == p && t[1..] == more;
      case Escaped(e) => assert t[0] == '\\' && t[1] == e && t[2..] == more;
    }
  }

  lemma {:induction false} ColonAfterABlankGap(g: Gap, rest: string)
    requires GapOk(g)
    ensures ColonNext(PrintGap(g) + ([':'] + rest)) <==> Blank(g)
    decreases |g|
  {
    if g == [] {
      assert PrintGap(g) + ([':'] + rest) == [':'] + rest;
    } else {
      assert TriviaOk(g[0]);
      assert Blank(g) <==> g[0].Space? && Blank(g[1..]) by {
        assert g == [g[0]] + g[1..];
      }
      Regroup(PrintTrivia(g[0]), PrintGap(g[1..]), [':'] + rest);
      var more := PrintGap(g[1..]) + ([':'] + rest);
      if g[0].Space? {
        assert ([g[0].c] + more)[1..] == more;
        ColonAfterABlankGap(g[1..], rest);
      } else {
        assert (PrintTrivia(g[0]) + more)[0] == '/';
      }
    }
  }

  lemma {:induction false} NoColonAfterGap(g: Gap, c: char, rest: string)
    requires GapOk(g) && !IsSpace(c) && c != ':'
    ensures !ColonNext(PrintGap(g) + ([c] + rest))
  {
    if g == [] {
      assert PrintGap(g) + ([c] + rest) == [c] + rest;
    } else {
      assert TriviaOk(g[0]);
      Regroup(PrintTrivia(g[0]), PrintGap(g[1..]), [c] + rest);
      var more := PrintGap(g[1..]) + ([c] + rest);
      if g[0].Space? {
        assert ([g[0].c] + more)[1..] == more;
        NoColonAfterGap(g[1..], c, rest);
      } else {
        assert (PrintTrivia(g[0]) + more)[0] == '/';
      }
    }
  }

  function Down(st: State, lines: nat): State {
    st.(line := st.line + lines)
  }

  /** The characters that stand for themselves. */
  function StepChar(c: char, st: State): State {
    if c == '\n' then st.(line := st.line + 1)
    else if c == '{' || c == '[' then Opened(st, c == '{')
    else if c == '}' || c == ']' then Closed(st)
    else if c == ':' then Declared(st)
    else if c == ',' then st.(lastKey := None)
    else st
  }

  lemma ScanChar(c: char, rest: string, st: State)
    requires c != '"' && c != '/'
    ensures Scan([c] + rest, st) == Scan(rest, StepChar(c, st))
  {
    assert ([c] + rest)[1..] == rest;
  }

  lemma ScanLineComment(text: string, rest: string, st: State)
    requires '\n' !in text
    ensures Scan(['/', '/'] + (text + (['\n'] + rest)), st) == Scan(rest, Down(st, 1))
  {
    var whole := ['/', '/'] + (text + (['\n'] + rest));
    assert whole == (['/', '/'] + text) + (['\n'] + rest);
    SkipLineOver(['/', '/'] + text, rest);
    assert Scan(whole, st) == Scan(['\n'] + rest, st);
    ScanChar('\n', rest, st);
  }

  lemma ScanBlockComment(text: string, rest: string, st: State)
    requires HasNoBlockEnd(text)
    ensures Scan(['/', '*'] + (text + (['*', '/'] + rest)), st) == Scan(rest, Down(st, Newlines(text)))
  {
    var whole := ['/', '*'] + (text + (['*', '/'] + rest));
    assert whole[2..] == text + (['*', '/'] + rest);
    SkipBlockOver(text, rest);
  }

  lemma PrintedLineComment(text: string, rest: string)
    ensures PrintTrivia(LineComment(text)) + rest == ['/', '/'] + (text + (['\n'] + rest))
  {}

  lemma PrintedBlockComment(text: string, rest: string)
    ensures PrintTrivia(BlockComment(text)) + rest == ['/', '*'] + (text + (['*', '/'] + rest))
  {}

  lemma ScanTrivia(t: Trivia, rest: string, st: State)
    requires TriviaOk(t)
    ensures Scan(PrintTrivia(t) + rest, st) == Scan(rest, Down(st, TriviaLines(t)))
  {
    match t
    case Space(c) =>
      ScanChar(c, rest, st);
    case LineComment(text) =>
      PrintedLineComment(text, rest);
      ScanLineComment(text, rest, st);
    case BlockComment(text) =>
      PrintedBlockComment(text, rest);
      ScanBlockComment(text, rest, st);
  }

  lemma {:induction false} ScanGap(g: Gap, rest: string, st: State)
    requires GapOk(g)
    ensures Scan(PrintGap(g) + rest, st) == Scan(rest, Down(st, GapLines(g)))
    decreases |g|
  {
    if g == [] {
      assert PrintGap(g) + rest == rest;
    } else {
      assert g[0] in g;
      ScanTrivia(g[0], PrintGap(g[1..]) + rest, st);
      ScanGap(g[1..], rest, Down(st, TriviaLines(g[0])));
      GapSplits(g, rest, st);
    }
  }

  lemma GapSplits(g: Gap, rest: string, st: State)
    requires g != []
    ensures PrintGap(g) + rest == PrintTrivia(g[0]) + (PrintGap(g[1..]) + rest)
    ensures Down(Down(st, TriviaLines(g[0])), GapLines(g[1..])) == Down(st, GapLines(g))
  {
    Regroup(PrintTrivia(g[0]), PrintGap(g[1..]), rest);
  }

  lemma {:induction false} ScanAtom(text: string, rest: string, st: State)
    requires forall c | c in text :: AtomChar(c)
    ensures Scan(text + rest, st) == Scan(rest, st)
    decreases |text|
  {
    if text == [] {
      assert text + rest == rest;
    } else {
      assert AtomChar(text[0]);
      assert text + rest == [text[0]] + (text[1..] + rest);
      ScanChar(text[0], text[1..] + rest, st);
      ScanAtom(text[1..], rest, st);
    }
  }

  lemma ScanQuoted(chars: seq<Ch>, rest: string, st: State)
    requires CharsOk(chars)
    ensures Scan(PrintString(chars) + rest, st) == Scan(rest, Quoted(st, Name(chars), rest, 0))
  {
    var t := PrintString(chars) + rest;
    assert t[1..] == PrintChars(chars) + (['"'] + rest);
    ScanStringOver(chars, rest);
  }

  /** After a key, its colon and the gaps around it: if seen, it is on record and names what comes next. */
  function AfterLabel(tag: Label, st: State): State {
    match tag
    case NoLabel => st
    case Key(chars, toColon, between) =>
      var read := if Blank(toColon) then st.(pendingKey := Some((Name(chars), st.line))) else st.(lastKey := None);
      Down(Declared(Down(read, GapLines(toColon))), GapLines(between))
  }

  lemma ScanKey(chars: seq<Ch>, toColon: Gap, rest: string, st: State)
    requires CharsOk(chars) && GapOk(toColon) && TopIsObject(st)
    ensures Scan(PrintString(chars) + (PrintGap(toColon) + ([':'] + rest)), st)
         == Scan(PrintGap(toColon) + ([':'] + rest),
                 if Blank(toColon) then st.(pendingKey := Some((Name(chars), st.line))) else st.(lastKey := None))
  {
    ColonAfterABlankGap(toColon, rest);
    ScanQuoted(chars, PrintGap(toColon) + ([':'] + rest), st);
  }

  lemma ScanKeyed(chars: seq<Ch>, toColon: Gap, between: Gap, rest: string, st: State)
    requires LabelOk(Key(chars, toColon, between)) && TopIsObject(st)
    ensures Scan(PrintString(chars) + (PrintGap(toColon) + ([':'] + (PrintGap(between) + rest))), st)
         == Scan(rest, AfterLabel(Key(chars, toColon, between), st))
  {
    var afterColon := PrintGap(between) + rest;
    var read := if Blank(toColon) then st.(pendingKey := Some((Name(chars), st.line))) else st.(lastKey := None);
    ScanKey(chars, toColon, afterColon, st);
    ScanGap(toColon, [':'] + afterColon, read);
    ScanChar(':', afterColon, Down(read, GapLines(toColon)));
    ScanGap(between, rest, Declared(Down(read, GapLines(toColon))));
  }

  lemma ScanLabel(tag: Label, rest: string, st: State)
    requires LabelOk(tag) && st.stack.Push? && TopIsObject(st) == tag.Key?
    ensures Scan(PrintLabel(tag) + rest, st) == Scan(rest, AfterLabel(tag, st))
  {
    match tag
    case NoLabel => assert PrintLabel(tag) + rest == rest;
    case Key(chars, toColon, between) =>
      PrintedKey(chars, toColon, between, rest);
      ScanKeyed(chars, toColon, between, rest, st);
  }

  // ---- the scanner as a walk over the tree ----

  function Walk(v: Value, st: State): State {
    match v
    case Text(_) => st.(lastKey := None)
    case Atom(_) => st
    case Box(isObject, entries) => WalkEntries(entries, Opened(st, isObject))
  }

  /** The entries of the innermost open box, and its closer. */
  function WalkEntries(e: Entries, st: State): State {
    match e
    case NoEntries(gap) => Closed(Down(st, GapLines(gap)))
    case AnEntry(before, tag, value, after, rest) =>
      WalkRest(rest, Down(Walk(value, AfterLabel(tag, Down(st, GapLines(before)))), GapLines(after)))
  }

  function WalkRest(r: Rest, st: State): State {
    match r
    case Done => Closed(st)
    case Comma(next) => WalkEntries(next, st.(lastKey := None))
  }

  /** Every entry of an object has a key, and no entry of an array has one. */
  predicate Shaped(v: Value) {
    v.Box? ==> EntriesShaped(v.entries, v.isObject)
  }

  predicate EntriesShaped(e: Entries, isObject: bool) {
    e.AnEntry? ==> e.tag.Key? == isObject && Shaped(e.value) && (e.rest.Comma? ==> EntriesShaped(e.rest.next, isObject))
  }

  lemma {:induction false} DocumentsAreShaped(v: Value)
    requires ValueOk(v)
    ensures Shaped(v)
    decreases v
  {
    if v.Box? {
      EntriesAreShaped(v.entries, v.isObject);
    }
  }

  lemma {:induction false} EntriesAreShaped(e: Entries, isObject: bool)
    requires EntriesOk(e, isObject)
    ensures EntriesShaped(e, isObject)
    decreases e
  {
    if e.AnEntry? {
      DocumentsAreShaped(e.value);
      if e.rest.Comma? {
        EntriesAreShaped(e.rest.next, isObject);
      }
    }
  }

  function NameOf(tag: Label): Option<string> {
    if Seen(tag) then Some(Name(tag.chars)) else None
  }

  function Recorded(keys: KeyLines, tag: Label, line: nat): KeyLines {
    if Seen(tag) then Record(keys, Name(tag.chars), line) else keys
  }

  /** A label only records its key in the innermost frame and names what comes next. */
  lemma LabelEffect(tag: Label, st: State)
    requires st.stack.Push? && st.stack.top.isObject == tag.Key? && st.pendingKey == None && st.lastKey == None
    ensures var after := AfterLabel(tag, st);
            && after.line == st.line + LabelLines(tag) && after.pendingKey == None && after.lastKey == NameOf(tag)
            && after.found == st.found && PathOf(after.stack) == PathOf(st.stack)
            && after.stack == Push(st.stack.top.(keys := Recorded(st.stack.top.keys, tag, st.line)), st.stack.below)
            && PathOf(after.stack) + NextLabel(after) == PathOf(st.stack) + Suffix(tag)
  {}

  /** A value changes the line, the key just read and what is found, and leaves the stack. */
  lemma {:induction false} WalkEffect(v: Value, st: State)
    requires Shaped(v) && st.pendingKey == None
    ensures var after := Walk(v, st);
            && after.stack == st.stack && after.pendingKey == None && after.line == st.line + ValueLines(v)
            && after.lastKey == if v.Atom? then st.lastKey else None
    decreases v
  {
    if v.Box? {
      WalkEntriesEffect(v.entries, Opened(st, v.isObject), v.isObject);
    }
  }

  lemma {:induction false} WalkEntriesEffect(e: Entries, st: State, isObject: bool)
    requires EntriesShaped(e, isObject) && st.stack.Push? && TopIsObject(st) == isObject && st.pendingKey == None
             && st.lastKey == None
    ensures var after := WalkEntries(e, st);
            && after.stack == st.stack.below && after.line == st.line + EntriesLines(e)
            && after.pendingKey == None && after.lastKey == None
    decreases e
  {
    if e.AnEntry? {
      LabelEffect(e.tag, Down(st, GapLines(e.before)));
      var st1 := AfterLabel(e.tag, Down(st, GapLines(e.before)));
      WalkEffect(e.value, st1);
      if e.rest.Comma? {
        WalkEntriesEffect(e.rest.next, Down(Walk(e.value, st1), GapLines(e.after)).(lastKey := None), isObject);
      }
    }
  }

  lemma {:induction false} ScanIsTheWalk(v: Value, rest: string, st: State)
    requires ValueOk(v) && st.pendingKey == None
    requires v.Text? ==> !(TopIsObject(st) && ColonNext(rest))
    ensures Scan(PrintValue(v) + rest, st) == Scan(rest, Walk(v, st))
    decreases v
  {
    match v
    case Text(chars) => ScanQuoted(chars, rest, st);
    case Atom(text) => ScanAtom(text, rest, st);
    case Box(isObject, entries) =>
      PrintedBox(isObject, entries, rest);
      ScanChar(Opener(isObject), PrintEntries(entries) + ([Closer(isObject)] + rest), st);
      ScanIsTheWalkOfEntries(entries, isObject, rest, Opened(st, isObject));
  }

  lemma {:induction false} ScanIsTheWalkOfEntries(e: Entries, isObject: bool, rest: string, st: State)
    requires EntriesOk(e, isObject) && st.stack.Push? && TopIsObject(st) == isObject && st.pendingKey == None
    ensures Scan(PrintEntries(e) + ([Closer(isObject)] + rest), st) == Scan(rest, WalkEntries(e, st))
    decreases e
  {
    var closing := [Closer(isObject)] + rest;
    match e
    case NoEntries(gap) =>
      ScanGap(gap, closing, st);
      ScanChar(Closer(isObject), rest, Down(st, GapLines(gap)));
    case AnEntry(before, tag, value, after, more) =>
      PrintedEntry(before, tag, value, after, more, closing);
      var t3 := PrintGap(after) + (PrintRest(more) + closing);
      var st1 := Down(st, GapLines(before));
      ScanGap(before, PrintLabel(tag) + (PrintValue(value) + t3), st);
      ScanLabel(tag, PrintValue(value) + t3, st1);
      var st2 := AfterLabel(tag, st1);
      NoColonAfterEntry(after, more, isObject, rest);
      ScanIsTheWalk(value, t3, st2);
      DocumentsAreShaped(value);
      WalkEffect(value, st2);
      ScanGap(after, PrintRest(more) + closing, Walk(value, st2));
      ScanRest(more, isObject, rest, Down(Walk(value, st2), GapLines(after)));
      if more.Comma? {
        ScanIsTheWalkOfEntries(more.next, isObject, rest, Down(Walk(value, st2), GapLines(after)).(lastKey := None));
      }
  }

  lemma ScanRest(more: Rest, isObject: bool, rest: string, st: State)
    ensures Scan(PrintRest(more) + ([Closer(isObject)] + rest), st)
         == if more.Done? then Scan(rest, Closed(st))
            else Scan(PrintEntries(more.next) + ([Closer(isObject)] + rest), st.(lastKey := None))
  {
    var closing := [Closer(isObject)] + rest;
    match more
    case Done =>
      assert PrintRest(more) + closing == closing;
      ScanChar(Closer(isObject), rest, st);
    case Comma(next) =>
      Regroup([','], PrintEntries(next), closing);
      ScanChar(',', PrintEntries(next) + closing, st);
  }

  lemma NoColonAfterEntry(after: Gap, more: Rest, isObject: bool, rest: string)
    requires GapOk(after)
    ensures !ColonNext(PrintGap(after) + (PrintRest(more) + ([Closer(isObject)] + rest)))
  {
    var closing := [Closer(isObject)] + rest;
    match more
    case Done =>
      assert PrintRest(more) + closing == closing;
      NoColonAfterGap(after, Closer(isObject), rest);
    case Comma(next) =>
      Regroup([','], PrintEntries(next), closing);
      NoColonAfterGap(after, ',', PrintEntries(next) + closing);
  }

  // ---- what the walk finds ----

  lemma {:induction false} RecordAllThen(keys: KeyLines, ds: Declarations, d: (string, nat))
    ensures RecordAll(keys, ds + [d]) == Record(RecordAll(keys, ds), d.0, d.1)
    decreases |ds|
  {
    if ds == [] {
      assert ([] + [d])[1..] == [];
    } else {
      assert (ds + [d])[1..] == ds[1..] + [d];
      RecordAllThen(Record(keys, ds[0].0, ds[0].1), ds[1..], d);
    }
  }

  /** What the objects of a value contribute, in the order the walk closes them. */
  function Finds(v: Value, path: string, line: nat): seq<DuplicateKey> {
    match v
    case Text(_) => []
    case Atom(_) => []
    case Box(isObject, entries) => FindsIn(entries, isObject, [], path, line)
  }

  /** The same of the entries still to come of a box whose map so far is keys. */
  function FindsIn(e: Entries, isObject: bool, keys: KeyLines, path: string, line: nat): seq<DuplicateKey> {
    match e
    case NoEntries(_) => Own(isObject, keys, path)
    case AnEntry(before, tag, value, after, rest) =>
      var start := line + GapLines(before) + LabelLines(tag);
      Finds(value, path + Suffix(tag), start)
      + FindsAfter(rest, isObject, Recorded(keys, tag, line + GapLines(before)), path,
                   start + ValueLines(value) + GapLines(after))
  }

  function FindsAfter(r: Rest, isObject: bool, keys: KeyLines, path: string, line: nat): seq<DuplicateKey> {
    match r
    case Done => Own(isObject, keys, path)
    case Comma(next) => FindsIn(next, isObject, keys, path, line)
  }

  function Own(isObject: bool, keys: KeyLines, path: string): seq<DuplicateKey> {
    if isObject then Repeated(keys, path) else []
  }

  lemma ClosedTop(st: State)
    requires st.stack.Push?
    ensures Closed(st).found == st.found + Own(st.stack.top.isObject, st.stack.top.keys, PathOf(st.stack))
  {
    assert st.found + [] == st.found;
  }

  lemma {:induction false} WalkFinds(v: Value, st: State)
    requires Shaped(v) && st.pendingKey == None
    ensures Walk(v, st).found == st.found + Finds(v, PathOf(st.stack) + NextLabel(st), st.line)
    decreases v
  {
    if v.Box? {
      WalkFindsIn(v.entries, Opened(st, v.isObject), []);
    } else {
      assert st.found + [] == st.found;
    }
  }

  lemma {:induction false} WalkFindsIn(e: Entries, st: State, keys: KeyLines)
    requires st.stack.Push? && EntriesShaped(e, st.stack.top.isObject) && st.stack.top.keys == keys
    requires st.pendingKey == None && st.lastKey == None
    ensures WalkEntries(e, st).found == st.found + FindsIn(e, st.stack.top.isObject, keys, PathOf(st.stack), st.line)
    decreases e
  {
    match e
    case NoEntries(gap) => ClosedTop(Down(st, GapLines(gap)));
    case AnEntry(before, tag, value, after, rest) =>
      var st2 := AfterLabel(tag, Down(st, GapLines(before)));
      var st3 := Down(Walk(value, st2), GapLines(after));
      LabelEffect(tag, Down(st, GapLines(before)));
      WalkEffect(value, st2);
      WalkFinds(value, st2);
      WalkFindsAfter(rest, st3, st2.stack.top.keys);
      FoundOfEntry(e, st.stack.top.isObject, keys, PathOf(st.stack), st.line, st.found,
                   PathOf(st.stack) + Suffix(tag), st2.line, st3.line);
  }

  lemma {:induction false} WalkFindsAfter(r: Rest, st: State, keys: KeyLines)
    requires st.stack.Push? && (r.Comma? ==> EntriesShaped(r.next, st.stack.top.isObject)) && st.stack.top.keys == keys
    requires st.pendingKey == None
    ensures WalkRest(r, st).found == st.found + FindsAfter(r, st.stack.top.isObject, keys, PathOf(st.stack), st.line)
    decreases r
  {
    match r
    case Done => ClosedTop(st);
    case Comma(next) => WalkFindsIn(next, st.(lastKey := None), keys);
  }

  lemma FoundOfEntry(e: Entries, isObject: bool, keys: KeyLines, path: string, line: nat, found: seq<DuplicateKey>,
                     inner: string, start: nat, further: nat)
    requires e.AnEntry? && start == line + GapLines(e.before) + LabelLines(e.tag)
    requires further == start + ValueLines(e.value) + GapLines(e.after) && inner == path + Suffix(e.tag)
    ensures found + Finds(e.value, inner, start)
            + FindsAfter(e.rest, isObject, Recorded(keys, e.tag, line + GapLines(e.before)), path, further)
         == found + FindsIn(e, isObject, keys, path, line)
  {
    FindsOfEntry(e, isObject, keys, path, line, inner, start, further);
    Regroup(found, Finds(e.value, inner, start),
            FindsAfter(e.rest, isObject, Recorded(keys, e.tag, line + GapLines(e.before)), path, further));
  }

  function Itself(isObject: bool, path: string, ds: Declarations): seq<(string, Declarations)> {
    if isObject then [(path, ds)] else []
  }

  /** The objects the walk closes from here on in a box that has declared ds so far: itself last. */
  function Closes(e: Entries, isObject: bool, ds: Declarations, path: string, line: nat): seq<(string, Declarations)> {
    match e
    case NoEntries(_) => Itself(isObject, path, ds)
    case AnEntry(before, tag, value, after, rest) =>
      var start := line + GapLines(before) + LabelLines(tag);
      var further := start + ValueLines(value) + GapLines(after);
      var ds1 := ds + DeclaredBy(tag, line + GapLines(before));
      Objects(value, path + Suffix(tag), start) + ClosesAfter(rest, isObject, ds1, path, further)
  }

  function ClosesAfter(r: Rest, isObject: bool, ds: Declarations, path: string, line: nat):
    seq<(string, Declarations)>
  {
    match r
    case Done => Itself(isObject, path, ds)
    case Comma(next) => Closes(next, isObject, ds, path, line)
  }

  lemma {:induction false} ClosesItsObjects(e: Entries, isObject: bool, ds: Declarations, path: string, line: nat)
    ensures Closes(e, isObject, ds, path, line)
         == ObjectsIn(e, path, line) + Itself(isObject, path, ds + Declares(e, line))
    decreases e
  {
    if e.NoEntries? {
      assert ds + [] == ds;
    } else {
      var start := line + GapLines(e.before) + LabelLines(e.tag);
      var further := start + ValueLines(e.value) + GapLines(e.after);
      var first := DeclaredBy(e.tag, line + GapLines(e.before));
      ClosesTheRest(e.rest, isObject, ds + first, path, further);
      DeclaresOfEntry(e, line, ds, first, DeclaresAfter(e.rest, further));
      EntryCloses(e, isObject, ds, path, line, path + Suffix(e.tag), start, further,
                  Itself(isObject, path, ds + Declares(e, line)));
    }
  }

  lemma DeclaresOfEntry(e: Entries, line: nat, ds: Declarations, first: Declarations, later: Declarations)
    requires e.AnEntry? && first == DeclaredBy(e.tag, line + GapLines(e.before))
    requires var start := line + GapLines(e.before) + LabelLines(e.tag);
             later == DeclaresAfter(e.rest, start + ValueLines(e.value) + GapLines(e.after))
    ensures ds + first + later == ds + Declares(e, line)
  {
    Regroup(ds, first, later);
  }

  lemma EntryCloses(e: Entries, isObject: bool, ds: Declarations, path: string, line: nat,
                    inner: string, start: nat, further: nat, own: seq<(string, Declarations)>)
    requires e.AnEntry? && start == line + GapLines(e.before) + LabelLines(e.tag)
    requires further == start + ValueLines(e.value) + GapLines(e.after) && inner == path + Suffix(e.tag)
    requires ClosesAfter(e.rest, isObject, ds + DeclaredBy(e.tag, line + GapLines(e.before)), path, further)
          == ObjectsAfter(e.rest, path, further) + own
    ensures Closes(e, isObject, ds, path, line) == ObjectsIn(e, path, line) + own
  {
    ClosesOfEntry(e, isObject, ds, path, line, inner, start, further);
    Regroup(Objects(e.value, inner, start), ObjectsAfter(e.rest, path, further), own);
  }

  lemma {:induction false} ClosesTheRest(r: Rest, isObject: bool, ds: Declarations, path: string, line: nat)
    ensures ClosesAfter(r, isObject, ds, path, line)
         == ObjectsAfter(r, path, line) + Itself(isObject, path, ds + DeclaresAfter(r, line))
    decreases r
  {
    match r
    case Done => assert ds + [] == ds;
    case Comma(next) => ClosesItsObjects(next, isObject, ds, path, line);
  }

  lemma {:induction false} FindsAreReports(v: Value, path: string, line: nat)
    ensures Finds(v, path, line) == Reports(Objects(v, path, line))
    decreases v
  {
    if v.Box? {
      FindsInAreReports(v.entries, v.isObject, [], path, line);
      ClosesItsObjects(v.entries, v.isObject, [], path, line);
      assert [] + Declares(v.entries, line) == Declares(v.entries, line);
    }
  }

  lemma {:induction false} FindsInAreReports(e: Entries, isObject: bool, ds: Declarations, path: string, line: nat)
    ensures FindsIn(e, isObject, RecordAll([], ds), path, line) == Reports(Closes(e, isObject, ds, path, line))
    decreases e
  {
    if e.NoEntries? {
      OwnReport(isObject, path, ds);
    } else {
      var start := line + GapLines(e.before) + LabelLines(e.tag);
      var further := start + ValueLines(e.value) + GapLines(e.after);
      FindsAreReports(e.value, path + Suffix(e.tag), start);
      FindsAfterEntryAreReports(e.rest, isObject, e.tag, line + GapLines(e.before), ds, path, further);
      EntryReports(e, isObject, ds, path, line, path + Suffix(e.tag), start, further);
    }
  }

  /** What an entry finds, once what its value finds and what the entries after it find are known. */
  lemma EntryReports(e: Entries, isObject: bool, ds: Declarations, path: string, line: nat, inner: string, start: nat,
                     further: nat)
    requires e.AnEntry? && start == line + GapLines(e.before) + LabelLines(e.tag)
    requires further == start + ValueLines(e.value) + GapLines(e.after) && inner == path + Suffix(e.tag)
    requires Finds(e.value, inner, start) == Reports(Objects(e.value, inner, start))
    requires var declared := line + GapLines(e.before);
             FindsAfter(e.rest, isObject, Recorded(RecordAll([], ds), e.tag, declared), path, further)
             == Reports(ClosesAfter(e.rest, isObject, ds + DeclaredBy(e.tag, declared), path, further))
    ensures FindsIn(e, isObject, RecordAll([], ds), path, line) == Reports(Closes(e, isObject, ds, path, line))
  {
    var declared := line + GapLines(e.before);
    FindsOfEntry(e, isObject, RecordAll([], ds), path, line, inner, start, further);
    ClosesOfEntry(e, isObject, ds, path, line, inner, start, further);
    ReportsAdd(Objects(e.value, inner, start),
               ClosesAfter(e.rest, isObject, ds + DeclaredBy(e.tag, declared), path, further));
  }

  lemma FindsOfEntry(e: Entries, isObject: bool, keys: KeyLines, path: string, line: nat, inner: string, start: nat,
                     further: nat)
    requires e.AnEntry? && start == line + GapLines(e.before) + LabelLines(e.tag)
    requires further == start + ValueLines(e.value) + GapLines(e.after) && inner == path + Suffix(e.tag)
    ensures FindsIn(e, isObject, keys, path, line)
         == Finds(e.value, inner, start)
            + FindsAfter(e.rest, isObject, Recorded(keys, e.tag, line + GapLines(e.before)), path, further)
  {}

  lemma ClosesOfEntry(e: Entries, isObject: bool, ds: Declarations, path: string, line: nat, inner: string, start: nat,
                      further: nat)
    requires e.AnEntry? && start == line + GapLines(e.before) + LabelLines(e.tag)
    requires further == start + ValueLines(e.value) + GapLines(e.after) && inner == path + Suffix(e.tag)
    ensures Closes(e, isObject, ds, path, line)
         == Objects(e.value, inner, start)
            + ClosesAfter(e.rest, isObject, ds + DeclaredBy(e.tag, line + GapLines(e.before)), path, further)
  {}

  lemma {:induction false} FindsAfterEntryAreReports(r: Rest, isObject: bool, tag: Label, declared: nat,
                                                     ds: Declarations, path: string, line: nat)
    ensures FindsAfter(r, isObject, Recorded(RecordAll([], ds), tag, declared), path, line)
         == Reports(ClosesAfter(r, isObject, ds + DeclaredBy(tag, declared), path, line))
    decreases r, 1
  {
    RecordedAll(tag, declared, ds);
    FindsAfterAreReports(r, isObject, ds + DeclaredBy(tag, declared), path, line);
  }

  lemma {:induction false} FindsAfterAreReports(r: Rest, isObject: bool, ds: Declarations, path: string, line: nat)
    ensures FindsAfter(r, isObject, RecordAll([], ds), path, line) == Reports(ClosesAfter(r, isObject, ds, path, line))
    decreases r, 0
  {
    match r
    case Done => OwnReport(isObject, path, ds);
    case Comma(next) => FindsInAreReports(next, isObject, ds, path, line);
  }

  lemma OwnReport(isObject: bool, path: string, ds: Declarations)
    ensures Own(isObject, RecordAll([], ds), path) == Reports(Itself(isObject, path, ds))
  {
    assert Repeated(RecordAll([], ds), path) + [] == Repeated(RecordAll([], ds), path);
  }

  lemma RecordedAll(tag: Label, line: nat, ds: Declarations)
    ensures Recorded(RecordAll([], ds), tag, line) == RecordAll([], ds + DeclaredBy(tag, line))
  {
    if Seen(tag) {
      RecordAllThen([], ds, (Name(tag.chars), line));
    } else {
      assert ds + [] == ds;
    }
  }

  /** The objects of a document, inner ones first. */
  function ObjectsOf(d: Document): seq<(string, Declarations)> {
    Objects(d.value, ['$'], 1 + GapLines(d.before))
  }

  /**
   * Of every document, printed with any whitespace, with comments anywhere and with or without
   * trailing commas, the scanner reports the repeated keys of each object, inner objects first. A key
   * with a comment before its colon is not seen: it declares nothing, and names nothing in a path.
   */
  lemma ScannerReportsTheObjects(d: Document)
    requires DocumentOk(d)
    ensures Duplicates(Print(d)) == Reports(ObjectsOf(d))
  {
    ScanOfDocument(d);
    WalkOfRoot(d.value, 1 + GapLines(d.before));
    NothingIsOpen(Print(d), Walk(d.value, State(1 + GapLines(d.before), None, None, Bottom, [])), GapLines(d.after));
  }

  /** A scan that ends with no open frame has reported all there is. */
  lemma NothingIsOpen(text: string, st: State, lines: nat)
    requires Scan(text, START) == Down(st, lines) && st.stack == Bottom
    ensures Duplicates(text) == st.found
  {}

  lemma WalkOfRoot(v: Value, line: nat)
    requires ValueOk(v)
    ensures var st := Walk(v, State(line, None, None, Bottom, []));
            st.stack == Bottom && st.found == Reports(Objects(v, ['$'], line))
  {
    DocumentsAreShaped(v);
    var st := State(line, None, None, Bottom, []);
    WalkEffect(v, st);
    WalkFinds(v, st);
    FindsAreReports(v, ['$'], line);
    RootPath(line);
  }

  lemma RootPath(line: nat)
    ensures PathOf(Bottom) + NextLabel(State(line, None, None, Bottom, [])) == ['$']
  {}

  lemma ScanOfDocument(d: Document)
    requires DocumentOk(d)
    ensures Scan(Print(d), START)
         == Down(Walk(d.value, State(1 + GapLines(d.before), None, None, Bottom, [])), GapLines(d.after))
  {
    var st := State(1 + GapLines(d.before), None, None, Bottom, []);
    ScanGap(d.before, PrintValue(d.value) + (PrintGap(d.after) + PrintLastComment(d)), START);
    ScanIsTheWalk(d.value, PrintGap(d.after) + PrintLastComment(d), st);
    ScanGap(d.after, PrintLastComment(d), Walk(d.value, st));
    ScanLastComment(d, Down(Walk(d.value, st), GapLines(d.after)));
  }

  lemma ScanLastComment(d: Document, st: State)
    requires DocumentOk(d)
    ensures Scan(PrintLastComment(d), st) == st
  {
    if d.lastComment.Some? {
      SkipLineToTheEnd(PrintLastComment(d));
    }
  }

  lemma {:induction false} SkipLineToTheEnd(text: string)
    requires '\n' !in text
    ensures SkipLine(text) == []
  {
    if text != [] {
      SkipLineToTheEnd(text[1..]);
    }
  }

  /** Reported: exactly the seen keys some object declares more than once, with its path and every line. */
  lemma ScannerIsExact(d: Document)
    requires DocumentOk(d)
    ensures forall k :: k in Duplicates(Print(d)) <==> IsRepeat(ObjectsOf(d), k)
  {
    ScannerReportsTheObjects(d);
    ReportsAreTheRepeats(ObjectsOf(d));
  }

  // ---- the scanner's loops ----

  /** One turn of the loop. */
  lemma ScanFrom(text: string, i: nat, st: State)
    requires i < |text|
    ensures var c := text[i];
            && Scan(From(text, i), st)
            == if c == '/' && i + 1 < |text| && text[i + 1] == '/' then Scan(SkipLine(From(text, i)), st)
               else if c == '/' && i + 1 < |text| && text[i + 1] == '*' then
                 var (rest, passed) := SkipBlock(From(text, i + 2)); Scan(rest, Down(st, passed))
               else if c == '"' then
                 var (value, rest, passed) := ScanString(From(text, i + 1)); Scan(rest, Quoted(st, value, rest, passed))
               else Scan(From(text, i + 1), StepChar(c, st))
  {
    assert From(text, i)[1..] == From(text, i + 1);
    if i + 1 < |text| {
      assert From(text, i)[2..] == From(text, i + 2);
    }
  }

  method PassLine(text: string, start: nat) returns (i: nat)
    requires start <= |text|
    ensures start <= i <= |text| && From(text, i) == SkipLine(From(text, start))
    ensures i < |text| ==> text[i] == '\n'
  {
    i := start;
    while i < |text| && text[i] != '\n'
      invariant start <= i <= |text|
      invariant SkipLine(From(text, i)) == SkipLine(From(text, start))
    {
      assert From(text, i)[1..] == From(text, i + 1);
      i := i + 1;
    }
  }

  method PassBlock(text: string, start: nat) returns (i: nat, passed: nat)
    ensures start <= i && (From(text, i), passed) == SkipBlock(From(text, start))
  {
    i, passed := start, 0;
    while i < |text| && !(text[i] == '*' && i + 1 < |text| && text[i + 1] == '/')
      invariant start <= i
      invariant var more := SkipBlock(From(text, i));
                (more.0, passed + more.1) == SkipBlock(From(text, start))
    {
      assert From(text, i)[1..] == From(text, i + 1);
      if text[i] == '\n' {
        passed := passed + 1;
      }
      i := i + 1;
    }
    if i < |text| {
      assert From(text, i)[2..] == From(text, i + 2);
    }
    i := i + 2;
  }

  /** With these characters read and these lines passed, t is still to be read for the whole of it. */
  ghost predicate Reads(value: string, passed: nat, t: string, whole: (string, string, nat)) {
    var (more, rest, n) := ScanString(t);
    (value + more, rest, passed + n) == whole
  }

  lemma ReadsOn(value: string, passed: nat, t: string, whole: (string, string, nat))
    requires t != [] && t[0] != '\\' && t[0] != '"' && Reads(value, passed, t, whole)
    ensures Reads(value + [t[0]], passed + if t[0] == '\n' then 1 else 0, t[1..], whole)
  {
    Regroup(value, [t[0]], ScanString(t[1..]).0);
  }

  lemma ReadsEscaped(value: string, passed: nat, t: string, whole: (string, string, nat))
    requires |t| > 1 && t[0] == '\\' && Reads(value, passed, t, whole)
    ensures Reads(value + [t[1]], passed, t[2..], whole)
  {
    Regroup(value, [t[1]], ScanString(t[2..]).0);
  }

  /** With nothing read yet everything is, and with nothing to come nothing is missing. */
  lemma ReadsAll(value: string, passed: nat, t: string, whole: (string, string, nat))
    requires t == [] || t == ['\\'] || t[0] == '"'
    requires Reads(value, passed, t, whole)
    ensures whole == (value, if t != [] && t[0] == '"' then t[1..] else [], passed)
  {
    assert value + [] == value;
  }

  lemma ReadsNothingYet(t: string)
    ensures Reads([], 0, t, ScanString(t))
  {
    assert [] + ScanString(t).0 == ScanString(t).0;
  }

  lemma FromNext(text: string, i: nat)
    requires i < |text|
    ensures From(text, i)[0] == text[i] && From(text, i)[1..] == From(text, i + 1)
    ensures i + 1 < |text| ==> From(text, i)[1] == text[i + 1] && From(text, i)[2..] == From(text, i + 2)
    ensures i + 1 == |text| ==> From(text, i) == [text[i]] && From(text, i + 2) == []
  {}

  method ReadString(text: string, start: nat) returns (value: string, i: nat, passed: nat)
    ensures start <= i && (value, From(text, i), passed) == ScanString(From(text, start))
  {
    i, value, passed := start, [], 0;
    ghost var whole := ScanString(From(text, start));
    ReadsNothingYet(From(text, start));
    while i < |text|
      invariant start <= i && Reads(value, passed, From(text, i), whole)
    {
      var ch := text[i];
      FromNext(text, i);
      if ch == '"' {
        ReadsAll(value, passed, From(text, i), whole);
        i := i + 1;
        return;
      }
      if ch == '\\' {
        if i + 1 < |text| {
          ReadsEscaped(value, passed, From(text, i), whole);
          value := value + [text[i + 1]];
        }
        i := i + 2;
      } else {
        ReadsOn(value, passed, From(text, i), whole);
        if ch == '\n' {
          passed := passed + 1;
        }
        value := value + [ch];
        i := i + 1;
      }
    }
    ReadsAll(value, passed, From(text, i), whole);
  }

  method ColonFollows(text: string, start: nat) returns (yes: bool)
    ensures yes == ColonNext(From(text, start))
  {
    var j := start;
    while j < |text| && (text[j] == ' ' || text[j] == '\t' || text[j] == '\r' || text[j] == '\n')
      invariant start <= j
      invariant ColonNext(From(text, j)) == ColonNext(From(text, start))
    {
      assert From(text, j)[1..] == From(text, j + 1);
      j := j + 1;
    }
    yes := j < |text| && text[j] == ':';
  }

  /** Pops the innermost frame, adding its repeated keys to those found. */
  method Close(stack: Stack, found: seq<DuplicateKey>) returns (rest: Stack, all: seq<DuplicateKey>)
    ensures forall line, pendingKey, lastKey ::
              State(line, pendingKey, lastKey, rest, all) == CloseFrame(State(line, pendingKey, lastKey, stack, found))
  {
    rest, all := stack, found;
    if stack.Push? {
      rest := stack.below;
      if stack.top.isObject {
        var path := PathOf(rest) + stack.top.tag;
        var keys := stack.top.keys;
        assert keys[0..] == keys;
        for n := 0 to |keys|
          invariant all + Repeated(keys[n..], path) == found + Repeated(keys, path)
        {
          var (key, lines) := keys[n];
          assert keys[n..][1..] == keys[n + 1..];
          ghost var more := Repeated(keys[n + 1..], path);
          if |lines| > 1 {
            Regroup(all, [DuplicateKey(key, path, lines)], more);
            all := all + [DuplicateKey(key, path, lines)];
          } else {
            assert [] + more == more;
          }
        }
        assert all + [] == all;
      }
    }
  }

  /** The whole scan, ending with the frames an unterminated document leaves open. */
  method Find(text: string) returns (found: seq<DuplicateKey>)
    ensures found == Duplicates(text)
  {
    found := [];
    var stack := Bottom;
    var line, i := 1, 0;
    var pendingKey: Option<(string, nat)>, lastKey: Option<string> := None, None;
    while i < |text|
      invariant Scan(From(text, i), State(line, pendingKey, lastKey, stack, found)) == Scan(text, START)
    {
      var c := text[i];
      ghost var st := State(line, pendingKey, lastKey, stack, found);
      ScanFrom(text, i, st);
      if c == '/' && i + 1 < |text| && text[i + 1] == '/' {
        i := PassLine(text, i);
      } else if c == '/' && i + 1 < |text| && text[i + 1] == '*' {
        var passed;
        i, passed := PassBlock(text, i + 2);
        line := line + passed;
        assert State(line, pendingKey, lastKey, stack, found) == Down(st, passed);
      } else if c == '"' {
        var startLine, value, passed := line, [], 0;
        value, i, passed := ReadString(text, i + 1);
        line := line + passed;
        var colon := ColonFollows(text, i);
        if stack.Push? && stack.top.isObject && colon {
          pendingKey := Some((value, startLine));
        } else {
          lastKey := None;
        }
        assert State(line, pendingKey, lastKey, stack, found) == Quoted(st, value, From(text, i), passed);
      } else {
        if c == '\n' {
          line := line + 1;
        } else if c == '{' || c == '[' {
          var tag := if lastKey.Some? then ['.'] + lastKey.value else if stack.Push? then ['[', ']'] else [];
          stack := Push(Frame(c == '{', tag, []), stack);
          lastKey, pendingKey := None, None;
        } else if c == '}' || c == ']' {
          stack, found := Close(stack, found);
          lastKey, pendingKey := None, None;
        } else if c == ':' {
          if pendingKey.Some? && stack.Push? {
            var (name, at) := pendingKey.value;
            stack := Push(stack.top.(keys := Record(stack.top.keys, name, at)), stack.below);
            lastKey, pendingKey := Some(name), None;
          }
        } else if c == ',' {
          lastKey := None;
        }
        assert State(line, pendingKey, lastKey, stack, found) == StepChar(c, st);
        i := i + 1;
      }
    }
    ghost var end := State(line, pendingKey, lastKey, stack, found);
    while stack.Push?
      invariant CloseAll(State(line, pendingKey, lastKey, stack, found)) == CloseAll(end)
      decreases stack
    {
      stack, found := Close(stack, found);
    }
  }
}
