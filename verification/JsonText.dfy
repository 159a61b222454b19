/**
 * JSON documents as trees that remember their layout, and the text they print as.
 *
 * A document may repeat a key, may carry trailing commas, and may carry the comments JSONC allows;
 * predicates pick out the strict ones. Structure follows sections 2, 4, 5 and 7 of RFC 8259.
 */
module JsonText {
  import opened Wrappers

  /** One character of a string, or a backslash and the character after it (section 7). */
  datatype Ch = Plain(c: char) | Escaped(c: char)

  datatype Trivia = Space(c: char) | LineComment(text: string) | BlockComment(text: string)
  type Gap = seq<Trivia>

  /** An atom is a number or one of the three literal names; a box is an object or an array. */
  datatype Value =
    | Text(chars: seq<Ch>)
    | Atom(text: string)
    | Box(isObject: bool, entries: Entries)

  /** NoEntries after a comma is a trailing comma. */
  datatype Entries =
    | NoEntries(gap: Gap)
    | AnEntry(before: Gap, tag: Label, value: Value, after: Gap, rest: Rest)

  datatype Rest = Done | Comma(next: Entries)

  datatype Label = NoLabel | Key(chars: seq<Ch>, toColon: Gap, between: Gap)

  /** A document may end in a line comment that no newline ends. */
  datatype Document = Document(before: Gap, value: Value, after: Gap, lastComment: Option<string>)

  // ---- which trees are documents ----

  predicate IsSpace(c: char) {
    c == ' ' || c == '\t' || c == '\r' || c == '\n'
  }

  predicate HasNoBlockEnd(s: string) {
    forall i | 0 <= i < |s| - 1 :: !(s[i] == '*' && s[i + 1] == '/')
  }

  predicate TriviaOk(t: Trivia) {
    match t
    case Space(c) => IsSpace(c)
    case LineComment(text) => '\n' !in text
    case BlockComment(text) => HasNoBlockEnd(text)
  }

  predicate GapOk(g: Gap) {
    forall t | t in g :: TriviaOk(t)
  }

  predicate ChOk(c: Ch) {
    match c
    case Plain(p) => p != '"' && p != '\\' && p >= ' '
    case Escaped(e) => e in {'"', '\\', '/', 'b', 'f', 'n', 'r', 't', 'u'}
  }

  predicate CharsOk(chars: seq<Ch>) {
    forall c | c in chars :: ChOk(c)
  }

  /** The characters of numbers and literal names. */
  predicate AtomChar(c: char) {
    '0' <= c <= '9' || 'a' <= c <= 'z' || 'A' <= c <= 'Z' || c in {'+', '-', '.'}
  }

  predicate LabelOk(l: Label) {
    match l
    case NoLabel => true
    case Key(chars, toColon, between) => CharsOk(chars) && GapOk(toColon) && GapOk(between)
  }

  predicate ValueOk(v: Value) {
    match v
    case Text(chars) => CharsOk(chars)
    case Atom(text) => text != [] && forall c | c in text :: AtomChar(c)
    case Box(isObject, entries) => EntriesOk(entries, isObject)
  }

  predicate EntriesOk(e: Entries, isObject: bool) {
    match e
    case NoEntries(gap) => GapOk(gap)
    case AnEntry(before, tag, value, after, rest) =>
      && GapOk(before) && tag.Key? == isObject && LabelOk(tag) && ValueOk(value) && GapOk(after)
      && match rest
         case Done => true
         case Comma(next) => EntriesOk(next, isObject)
  }

  predicate DocumentOk(d: Document) {
    GapOk(d.before) && ValueOk(d.value) && GapOk(d.after) && (d.lastComment.Some? ==> '\n' !in d.lastComment.value)
  }

  /** White space alone, without comments. */
  predicate Blank(g: Gap) {
    forall t | t in g :: t.Space?
  }

  // ---- printing ----

  function PrintCh(c: Ch): string {
    match c
    case Plain(p) => [p]
    case Escaped(e) => ['\\', e]
  }

  function PrintChars(chars: seq<Ch>): string {
    if chars == [] then [] else PrintCh(chars[0]) + PrintChars(chars[1..])
  }

  function PrintString(chars: seq<Ch>): string {
    ['"'] + (PrintChars(chars) + ['"'])
  }

  function PrintTrivia(t: Trivia): string {
    match t
    case Space(c) => [c]
    case LineComment(text) => ['/', '/'] + (text + ['\n'])
    case BlockComment(text) => ['/', '*'] + (text + ['*', '/'])
  }

  function PrintGap(g: Gap): string {
    if g == [] then [] else PrintTrivia(g[0]) + PrintGap(g[1..])
  }

  function PrintLabel(l: Label): string {
    match l
    case NoLabel => []
    case Key(chars, toColon, between) => PrintString(chars) + (PrintGap(toColon) + ([':'] + PrintGap(between)))
  }

  function Opener(isObject: bool): char { if isObject then '{' else '[' }
  function Closer(isObject: bool): char { if isObject then '}' else ']' }

  function PrintValue(v: Value): string {
    match v
    case Text(chars) => PrintString(chars)
    case Atom(text) => text
    case Box(isObject, entries) => [Opener(isObject)] + (PrintEntries(entries) + [Closer(isObject)])
  }

  function PrintEntries(e: Entries): string {
    match e
    case NoEntries(gap) => PrintGap(gap)
    case AnEntry(before, tag, value, after, rest) =>
      PrintGap(before) + (PrintLabel(tag) + (PrintValue(value) + (PrintGap(after) + PrintRest(rest))))
  }

  function PrintRest(r: Rest): string {
    match r
    case Done => []
    case Comma(next) => [','] + PrintEntries(next)
  }

  function Print(d: Document): string {
    PrintGap(d.before) + (PrintValue(d.value) + (PrintGap(d.after) + PrintLastComment(d)))
  }

  function PrintLastComment(d: Document): string {
    if d.lastComment.Some? then ['/', '/'] + d.lastComment.value else []
  }

  lemma PrintedBox(isObject: bool, entries: Entries, rest: string)
    ensures PrintValue(Box(isObject, entries)) + rest
         == [Opener(isObject)] + (PrintEntries(entries) + ([Closer(isObject)] + rest))
  {
    Regroup([Opener(isObject)], PrintEntries(entries) + [Closer(isObject)], rest);
    Regroup(PrintEntries(entries), [Closer(isObject)], rest);
  }

  lemma PrintedEntry(before: Gap, tag: Label, value: Value, after: Gap, more: Rest, rest: string)
    ensures PrintEntries(AnEntry(before, tag, value, after, more)) + rest
         == PrintGap(before) + (PrintLabel(tag) + (PrintValue(value) + (PrintGap(after) + (PrintRest(more) + rest))))
  {
    Regroup(PrintGap(after), PrintRest(more), rest);
    Regroup(PrintValue(value), PrintGap(after) + PrintRest(more), rest);
    Regroup(PrintLabel(tag), PrintValue(value) + (PrintGap(after) + PrintRest(more)), rest);
    Regroup(PrintGap(before), PrintLabel(tag) + (PrintValue(value) + (PrintGap(after) + PrintRest(more))), rest);
  }

  lemma PrintedKey(chars: seq<Ch>, toColon: Gap, between: Gap, rest: string)
    ensures PrintLabel(Key(chars, toColon, between)) + rest
         == PrintString(chars) + (PrintGap(toColon) + ([':'] + (PrintGap(between) + rest)))
  {
    Regroup(PrintString(chars), PrintGap(toColon) + ([':'] + PrintGap(between)), rest);
    Regroup(PrintGap(toColon), [':'] + PrintGap(between), rest);
    Regroup([':'], PrintGap(between), rest);
  }

  /** The text from position i on; a position may lie past the end. */
  function From(text: string, i: nat): string {
    if i <= |text| then text[i..] else []
  }

  // ---- counting lines ----

  function Newlines(s: string): nat {
    if s == [] then 0 else (if s[0] == '\n' then 1 else 0) + Newlines(s[1..])
  }

  lemma {:induction false} NewlinesAdd(a: string, b: string)
    ensures Newlines(a + b) == Newlines(a) + Newlines(b)
  {
    if a == [] {
      assert a + b == b;
    } else {
      assert (a + b)[1..] == a[1..] + b;
      NewlinesAdd(a[1..], b);
    }
  }

  lemma {:induction false} NoNewlines(s: string)
    requires '\n' !in s
    ensures Newlines(s) == 0
  {
    if s != [] {
      NoNewlines(s[1..]);
    }
  }

  lemma {:induction false} StringsAreOneLine(chars: seq<Ch>)
    requires CharsOk(chars)
    ensures '\n' !in PrintChars(chars)
  {
    if chars != [] {
      assert ChOk(chars[0]);
      assert forall c | c in PrintCh(chars[0]) :: c != '\n';
      StringsAreOneLine(chars[1..]);
    }
  }

  function TriviaLines(t: Trivia): nat {
    match t
    case Space(c) => if c == '\n' then 1 else 0
    case LineComment(_) => 1
    case BlockComment(text) => Newlines(text)
  }

  function GapLines(g: Gap): nat {
    if g == [] then 0 else TriviaLines(g[0]) + GapLines(g[1..])
  }

  function LabelLines(l: Label): nat {
    match l
    case NoLabel => 0
    case Key(_, toColon, between) => GapLines(toColon) + GapLines(between)
  }

  function ValueLines(v: Value): nat {
    match v
    case Text(_) => 0
    case Atom(_) => 0
    case Box(_, entries) => EntriesLines(entries)
  }

  function EntriesLines(e: Entries): nat {
    match e
    case NoEntries(gap) => GapLines(gap)
    case AnEntry(before, tag, value, after, rest) =>
      GapLines(before) + LabelLines(tag) + ValueLines(value) + GapLines(after) + RestLines(rest)
  }

  function RestLines(r: Rest): nat {
    match r
    case Done => 0
    case Comma(next) => EntriesLines(next)
  }

  lemma TriviaLinesAreNewlines(t: Trivia)
    requires TriviaOk(t)
    ensures TriviaLines(t) == Newlines(PrintTrivia(t))
  {
    match t
    case Space(c) =>
    case LineComment(text) =>
      NewlinesAdd(['/', '/'], text + ['\n']);
      NewlinesAdd(text, ['\n']);
      NoNewlines(text);
      NoNewlines(['/', '/']);
    case BlockComment(text) =>
      NewlinesAdd(['/', '*'], text + ['*', '/']);
      NewlinesAdd(text, ['*', '/']);
      NoNewlines(['/', '*']);
      NoNewlines(['*', '/']);
  }

  lemma {:induction false} GapLinesAreNewlines(g: Gap)
    requires GapOk(g)
    ensures GapLines(g) == Newlines(PrintGap(g))
  {
    if g != [] {
      assert g[0] in g;
      TriviaLinesAreNewlines(g[0]);
      GapLinesAreNewlines(g[1..]);
      NewlinesAdd(PrintTrivia(g[0]), PrintGap(g[1..]));
    }
  }

  lemma StringLines(chars: seq<Ch>)
    requires CharsOk(chars)
    ensures Newlines(PrintString(chars)) == 0
  {
    StringsAreOneLine(chars);
    NoNewlines(PrintString(chars));
  }

  lemma LabelLinesAreNewlines(l: Label)
    requires LabelOk(l)
    ensures LabelLines(l) == Newlines(PrintLabel(l))
  {
    match l
    case NoLabel =>
    case Key(chars, toColon, between) =>
      StringLines(chars);
      GapLinesAreNewlines(toColon);
      GapLinesAreNewlines(between);
      NewlinesAdd(PrintString(chars), PrintGap(toColon) + ([':'] + PrintGap(between)));
      NewlinesAdd(PrintGap(toColon), [':'] + PrintGap(between));
      NewlinesAdd([':'], PrintGap(between));
      NoNewlines([':']);
  }

  /** Counted on the tree, a value spans exactly the lines its text spans. */
  lemma {:induction false} ValueLinesAreNewlines(v: Value)
    requires ValueOk(v)
    ensures ValueLines(v) == Newlines(PrintValue(v))
    decreases v
  {
    match v
    case Text(chars) => StringLines(chars);
    case Atom(text) => NoNewlines(text);
    case Box(isObject, entries) =>
      EntriesLinesAreNewlines(entries, isObject);
      NewlinesAdd([Opener(isObject)], PrintEntries(entries) + [Closer(isObject)]);
      NewlinesAdd(PrintEntries(entries), [Closer(isObject)]);
      NoNewlines([Opener(isObject)]);
      NoNewlines([Closer(isObject)]);
  }

  lemma {:induction false} EntriesLinesAreNewlines(e: Entries, isObject: bool)
    requires EntriesOk(e, isObject)
    ensures EntriesLines(e) == Newlines(PrintEntries(e))
    decreases e
  {
    match e
    case NoEntries(gap) => GapLinesAreNewlines(gap);
    case AnEntry(before, tag, value, after, rest) =>
      GapLinesAreNewlines(before);
      LabelLinesAreNewlines(tag);
      ValueLinesAreNewlines(value);
      GapLinesAreNewlines(after);
      if rest.Comma? {
        EntriesLinesAreNewlines(rest.next, isObject);
        NewlinesAdd([','], PrintEntries(rest.next));
        NoNewlines([',']);
      }
      EntryNewlines(PrintGap(before), PrintLabel(tag), PrintValue(value), PrintGap(after), PrintRest(rest));
  }

  lemma EntryNewlines(a: string, b: string, c: string, d: string, e: string)
    ensures Newlines(a + (b + (c + (d + e)))) == Newlines(a) + Newlines(b) + Newlines(c) + Newlines(d) + Newlines(e)
  {
    NewlinesAdd(a, b + (c + (d + e)));
    NewlinesAdd(b, c + (d + e));
    NewlinesAdd(c, d + e);
    NewlinesAdd(d, e);
  }
}
