/**
 * The scan that makes a lock file strict JSON by dropping its trailing commas.
 *
 * `Strip` is the scan as a function of the text still to be read; `StripTrailingCommas` is its loop.
 * `WithoutTrailing` drops the trailing commas of a document tree. The theorem is that the scan of a
 * printed tree is the print of the tree without them, whatever its strings contain.
 */
module TrailingCommas {
  import opened Wrappers
  import opened JsonText

  /** The characters `\s` matches in a JavaScript regular expression. */
  predicate JsSpace(c: char) {
    var n := c as int;
    || 9 <= n <= 13 || n == 0x20 || n == 0xa0 || n == 0x1680 || 0x2000 <= n <= 0x200a
    || n == 0x2028 || n == 0x2029 || n == 0x202f || n == 0x205f || n == 0x3000 || n == 0xfeff
  }

  predicate IsCloser(c: char) {
    c == '}' || c == ']'
  }

  predicate CloserNext(t: string) {
    t != [] && if JsSpace(t[0]) then CloserNext(t[1..]) else IsCloser(t[0])
  }

  function Strip(t: string, inString: bool): string
    decreases |t|
  {
    if t == [] then []
    else if inString then
      if t[0] == '\\' then
        if |t| == 1 then t else ['\\', t[1]] + Strip(t[2..], true)
      else [t[0]] + Strip(t[1..], t[0] != '"')
    else if t[0] == ',' && CloserNext(t[1..]) then Strip(t[1..], false)
    else [t[0]] + Strip(t[1..], t[0] == '"')
  }

  // ---- the trees ----

  /** No comments in the layout. */
  predicate CommentFree(v: Value) {
    v.Box? ==> EntriesCommentFree(v.entries)
  }

  predicate EntriesCommentFree(e: Entries) {
    match e
    case NoEntries(gap) => Blank(gap)
    case AnEntry(before, tag, value, after, rest) =>
      && Blank(before) && (tag.Key? ==> Blank(tag.toColon) && Blank(tag.between)) && CommentFree(value) && Blank(after)
      && (rest.Comma? ==> EntriesCommentFree(rest.next))
  }

  predicate DocumentCommentFree(d: Document) {
    Blank(d.before) && CommentFree(d.value) && Blank(d.after) && d.lastComment.None?
  }

  function WithoutTrailing(v: Value): Value {
    match v
    case Text(_) => v
    case Atom(_) => v
    case Box(isObject, entries) => Box(isObject, EntriesWithoutTrailing(entries))
  }

  function EntriesWithoutTrailing(e: Entries): Entries {
    match e
    case NoEntries(_) => e
    case AnEntry(before, tag, value, after, rest) =>
      AnEntry(before, tag, WithoutTrailing(value), after + TrailingGap(rest), RestWithoutTrailing(rest))
  }

  /** What is left of a trailing comma: the gap after it. */
  function TrailingGap(r: Rest): Gap {
    if r.Comma? && r.next.NoEntries? then r.next.gap else []
  }

  function RestWithoutTrailing(r: Rest): Rest {
    match r
    case Done => Done
    case Comma(next) => if next.NoEntries? then Done else Comma(EntriesWithoutTrailing(next))
  }

  function DocumentWithoutTrailing(d: Document): Document {
    Document(d.before, WithoutTrailing(d.value), d.after, d.lastComment)
  }

  /** Strict JSON: a comma is always followed by an entry. */
  predicate Strict(v: Value) {
    v.Box? ==> EntriesStrict(v.entries)
  }

  predicate EntriesStrict(e: Entries) {
    e.AnEntry? ==> Strict(e.value) && (e.rest.Comma? ==> e.rest.next.AnEntry? && EntriesStrict(e.rest.next))
  }

  /** The data alone: the tree with every gap emptied and every trailing comma gone. */
  function Bare(v: Value): Value {
    match v
    case Text(_) => v
    case Atom(_) => v
    case Box(isObject, entries) => Box(isObject, BareEntries(entries))
  }

  function BareEntries(e: Entries): Entries {
    match e
    case NoEntries(_) => NoEntries([])
    case AnEntry(_, tag, value, _, rest) =>
      AnEntry([], if tag.Key? then Key(tag.chars, [], []) else NoLabel, Bare(value), [],
              match rest
              case Done => Done
              case Comma(next) => if next.NoEntries? then Done else Comma(BareEntries(next)))
  }

  // ---- what dropping trailing commas does to a tree ----

  /** Its data is what it was, no trailing comma is left, and a strict tree is left alone. */
  lemma {:induction false} WithoutTrailingKeepsTheData(v: Value)
    ensures Bare(WithoutTrailing(v)) == Bare(v) && Strict(WithoutTrailing(v))
    ensures Strict(v) ==> WithoutTrailing(v) == v
    decreases v
  {
    if v.Box? {
      EntriesWithoutTrailingKeepTheData(v.entries);
    }
  }

  lemma {:induction false} EntriesWithoutTrailingKeepTheData(e: Entries)
    ensures BareEntries(EntriesWithoutTrailing(e)) == BareEntries(e) && EntriesStrict(EntriesWithoutTrailing(e))
    ensures EntriesStrict(e) ==> EntriesWithoutTrailing(e) == e
    decreases e
  {
    if e.AnEntry? {
      WithoutTrailingKeepsTheData(e.value);
      assert e.after + [] == e.after;
      if e.rest.Comma? && e.rest.next.AnEntry? {
        EntriesWithoutTrailingKeepTheData(e.rest.next);
      }
    }
  }

  // ---- the scan of printed text ----

  lemma StripChar(c: char, rest: string)
    requires c != '"' && c != ','
    ensures Strip([c] + rest, false) == [c] + Strip(rest, false)
  {
    assert ([c] + rest)[1..] == rest;
  }

  lemma {:induction false} StripAll(text: string, rest: string)
    requires forall c | c in text :: c != '"' && c != ','
    ensures Strip(text + rest, false) == text + Strip(rest, false)
    decreases |text|
  {
    if text == [] {
      assert text + rest == rest;
      assert text + Strip(rest, false) == Strip(rest, false);
    } else {
      assert text + rest == [text[0]] + (text[1..] + rest);
      assert text[0] in text && forall c | c in text[1..] :: c in text;
      StripChar(text[0], text[1..] + rest);
      StripAll(text[1..], rest);
      assert text + Strip(rest, false) == [text[0]] + (text[1..] + Strip(rest, false));
    }
  }

  lemma {:induction false} BlankGapsAreSpaces(g: Gap)
    requires GapOk(g) && Blank(g)
    ensures forall c | c in PrintGap(g) :: IsSpace(c)
  {
    if g != [] {
      assert g[0] in g;
      BlankGapsAreSpaces(g[1..]);
    }
  }

  lemma StripGap(g: Gap, rest: string)
    requires GapOk(g) && Blank(g)
    ensures Strip(PrintGap(g) + rest, false) == PrintGap(g) + Strip(rest, false)
  {
    BlankGapsAreSpaces(g);
    StripAll(PrintGap(g), rest);
  }

  lemma {:induction false} StripChars(chars: seq<Ch>, rest: string)
    requires CharsOk(chars)
    ensures Strip(PrintChars(chars) + (['"'] + rest), true) == PrintChars(chars) + (['"'] + Strip(rest, false))
    decreases |chars|
  {
    if chars == [] {
      assert PrintChars(chars) + (['"'] + rest) == ['"'] + rest;
      assert (['"'] + rest)[1..] == rest;
    } else {
      assert ChOk(chars[0]);
      StripChars(chars[1..], rest);
      StripCh(chars[0], PrintChars(chars[1..]) + (['"'] + rest));
      Regroup(PrintCh(chars[0]), PrintChars(chars[1..]), ['"'] + rest);
      Regroup(PrintCh(chars[0]), PrintChars(chars[1..]), ['"'] + Strip(rest, false));
    }
  }

  lemma StripCh(c: Ch, rest: string)
    requires ChOk(c)
    ensures Strip(PrintCh(c) + rest, true) == PrintCh(c) + Strip(rest, true)
  {
    match c
    case Plain(p) => assert ([p] + rest)[1..] == rest;
    case Escaped(e) => assert (['\\', e] + rest)[2..] == rest;
  }

  /** A string literal, escapes and all, goes through unchanged. */
  lemma StripString(chars: seq<Ch>, rest: string)
    requires CharsOk(chars)
    ensures Strip(PrintString(chars) + rest, false) == PrintString(chars) + Strip(rest, false)
  {
    var inside := PrintChars(chars) + (['"'] + rest);
    Regroup(['"'], PrintChars(chars) + ['"'], rest);
    Regroup(PrintChars(chars), ['"'], rest);
    assert (['"'] + inside)[1..] == inside;
    StripChars(chars, rest);
    Regroup(['"'], PrintChars(chars) + ['"'], Strip(rest, false));
    Regroup(PrintChars(chars), ['"'], Strip(rest, false));
  }

  lemma StripLabel(tag: Label, rest: string)
    requires LabelOk(tag) && (tag.Key? ==> Blank(tag.toColon) && Blank(tag.between))
    ensures Strip(PrintLabel(tag) + rest, false) == PrintLabel(tag) + Strip(rest, false)
  {
    match tag
    case NoLabel =>
      assert PrintLabel(tag) + rest == rest;
      assert PrintLabel(tag) + Strip(rest, false) == Strip(rest, false);
    case Key(chars, toColon, between) =>
      PrintedKey(chars, toColon, between, rest);
      StripString(chars, PrintGap(toColon) + ([':'] + (PrintGap(between) + rest)));
      StripGap(toColon, [':'] + (PrintGap(between) + rest));
      StripChar(':', PrintGap(between) + rest);
      StripGap(between, rest);
      PrintedKey(chars, toColon, between, Strip(rest, false));
  }

  lemma {:induction false} CloserAfterSpaces(space: string, c: char, rest: string)
    requires (forall s | s in space :: IsSpace(s)) && !JsSpace(c)
    ensures CloserNext(space + ([c] + rest)) == IsCloser(c)
    decreases |space|
  {
    if space == [] {
      assert space + ([c] + rest) == [c] + rest;
    } else {
      assert IsSpace(space[0]);
      assert (space + ([c] + rest))[1..] == space[1..] + ([c] + rest);
      CloserAfterSpaces(space[1..], c, rest);
    }
  }

  /** An entry begins with neither a space nor a closer. */
  lemma EntryBegins(tag: Label, value: Value, rest: string) returns (c: char, more: string)
    requires LabelOk(tag) && ValueOk(value)
    ensures PrintLabel(tag) + (PrintValue(value) + rest) == [c] + more && !JsSpace(c) && !IsCloser(c)
  {
    var t := PrintLabel(tag) + (PrintValue(value) + rest);
    if tag.NoLabel? {
      assert t == PrintValue(value) + rest;
      assert PrintValue(value) != [] && t[0] == PrintValue(value)[0];
      if value.Atom? {
        assert AtomChar(value.text[0]);
      }
    } else {
      assert t[0] == '"';
    }
    c, more := t[0], t[1..];
  }

  lemma CommaBeforeAnEntryStays(next: Entries, isObject: bool, rest: string)
    requires next.AnEntry? && EntriesOk(next, isObject) && Blank(next.before)
    ensures !CloserNext(PrintEntries(next) + rest)
  {
    var after := PrintGap(next.after) + (PrintRest(next.rest) + rest);
    PrintedEntry(next.before, next.tag, next.value, next.after, next.rest, rest);
    var c, more := EntryBegins(next.tag, next.value, after);
    BlankGapsAreSpaces(next.before);
    CloserAfterSpaces(PrintGap(next.before), c, more);
  }

  lemma {:induction false} StripValue(v: Value, rest: string)
    requires ValueOk(v) && CommentFree(v)
    ensures Strip(PrintValue(v) + rest, false) == PrintValue(WithoutTrailing(v)) + Strip(rest, false)
    decreases v
  {
    match v
    case Text(chars) => StripString(chars, rest);
    case Atom(text) => StripAll(text, rest);
    case Box(isObject, entries) =>
      PrintedBox(isObject, entries, rest);
      StripChar(Opener(isObject), PrintEntries(entries) + ([Closer(isObject)] + rest));
      StripEntries(entries, isObject, rest);
      PrintedBox(isObject, EntriesWithoutTrailing(entries), Strip(rest, false));
  }

  lemma {:induction false} StripEntries(e: Entries, isObject: bool, rest: string)
    requires EntriesOk(e, isObject) && EntriesCommentFree(e)
    ensures Strip(PrintEntries(e) + ([Closer(isObject)] + rest), false)
         == PrintEntries(EntriesWithoutTrailing(e)) + ([Closer(isObject)] + Strip(rest, false))
    decreases e
  {
    var closing, closed := [Closer(isObject)] + rest, [Closer(isObject)] + Strip(rest, false);
    match e
    case NoEntries(gap) =>
      StripGap(gap, closing);
      StripChar(Closer(isObject), rest);
    case AnEntry(before, tag, value, after, more) =>
      var t1 := PrintRest(more) + closing;
      PrintedEntry(before, tag, value, after, more, closing);
      StripGap(before, PrintLabel(tag) + (PrintValue(value) + (PrintGap(after) + t1)));
      StripLabel(tag, PrintValue(value) + (PrintGap(after) + t1));
      StripValue(value, PrintGap(after) + t1);
      StripGap(after, t1);
      StripRest(more, isObject, rest);
      PrintGapAdd(after, TrailingGap(more));
      Regroup(PrintGap(after), PrintGap(TrailingGap(more)), PrintRest(RestWithoutTrailing(more)) + closed);
      PrintedEntry(before, tag, WithoutTrailing(value), after + TrailingGap(more), RestWithoutTrailing(more), closed);
  }

  lemma {:induction false} StripRest(r: Rest, isObject: bool, rest: string)
    requires r.Comma? ==> EntriesOk(r.next, isObject) && EntriesCommentFree(r.next)
    ensures Strip(PrintRest(r) + ([Closer(isObject)] + rest), false)
         == PrintGap(TrailingGap(r)) + (PrintRest(RestWithoutTrailing(r)) + ([Closer(isObject)] + Strip(rest, false)))
    decreases r
  {
    var closing, closed := [Closer(isObject)] + rest, [Closer(isObject)] + Strip(rest, false);
    match r
    case Done =>
      assert PrintRest(r) + closing == closing;
      StripChar(Closer(isObject), rest);
      assert [] + ([] + closed) == closed;
    case Comma(next) =>
      Regroup([','], PrintEntries(next), closing);
      assert ([','] + (PrintEntries(next) + closing))[1..] == PrintEntries(next) + closing;
      StripEntries(next, isObject, rest);
      if next.NoEntries? {
        BlankGapsAreSpaces(next.gap);
        CloserAfterSpaces(PrintGap(next.gap), Closer(isObject), rest);
        assert [] + closed == closed;
      } else {
        CommaBeforeAnEntryStays(next, isObject, closing);
        Regroup([','], PrintEntries(EntriesWithoutTrailing(next)), closed);
        var kept := PrintRest(RestWithoutTrailing(r)) + closed;
        assert [] + kept == kept;
      }
  }

  lemma {:induction false} PrintGapAdd(a: Gap, b: Gap)
    ensures PrintGap(a + b) == PrintGap(a) + PrintGap(b)
  {
    if a == [] {
      assert a + b == b;
    } else {
      assert (a + b)[1..] == a[1..] + b;
      PrintGapAdd(a[1..], b);
    }
  }

  /**
   * Of every document without comments, whatever its whitespace, the scan yields the print of the
   * same document without its trailing commas: nothing else is dropped, and no string is touched.
   */
  lemma StrippedIsWithoutTrailing(d: Document)
    requires DocumentOk(d) && DocumentCommentFree(d)
    ensures Strip(Print(d), false) == Print(DocumentWithoutTrailing(d))
    ensures Strict(DocumentWithoutTrailing(d).value) && Bare(DocumentWithoutTrailing(d).value) == Bare(d.value)
    ensures Strict(d.value) ==> Strip(Print(d), false) == Print(d)
  {
    StripGap(d.before, PrintValue(d.value) + (PrintGap(d.after) + []));
    StripValue(d.value, PrintGap(d.after) + []);
    StripGap(d.after, []);
    WithoutTrailingKeepsTheData(d.value);
  }

  // ---- of any text at all ----

  function NonCommas(t: string): string {
    if t == [] then [] else (if t[0] == ',' then [] else [t[0]]) + NonCommas(t[1..])
  }

  lemma {:induction false} NonCommasAdd(a: string, b: string)
    ensures NonCommas(a + b) == NonCommas(a) + NonCommas(b)
  {
    if a == [] {
      assert a + b == b;
    } else {
      assert (a + b)[1..] == a[1..] + b;
      NonCommasAdd(a[1..], b);
    }
  }

  /** How much of t, read from inside a string, belongs to the string: up to and with its closing quote. */
  function StringEnd(t: string): (n: nat)
    ensures n <= |t|
    decreases |t|
  {
    if t == [] then 0
    else if t[0] == '\\' then if |t| == 1 then 1 else 2 + StringEnd(t[2..])
    else if t[0] == '"' then 1
    else 1 + StringEnd(t[1..])
  }

  /** Well formed or not, a text keeps all of every string in it, terminated or not. */
  lemma {:induction false} StringsAreKept(t: string)
    ensures Strip(t, true) == t[..StringEnd(t)] + Strip(t[StringEnd(t)..], false)
    decreases |t|
  {
    if t != [] {
      if t[0] == '\\' && |t| > 1 {
        StringsAreKept(t[2..]);
        StringEndsLater(t, 2);
        Regroup(t[..2], t[2..][..StringEnd(t[2..])], Strip(t[StringEnd(t)..], false));
        assert [t[0], t[1]] == t[..2];
      } else if t[0] != '\\' && t[0] != '"' {
        StringsAreKept(t[1..]);
        StringEndsLater(t, 1);
        Regroup(t[..1], t[1..][..StringEnd(t[1..])], Strip(t[StringEnd(t)..], false));
        assert [t[0]] == t[..1];
      } else if t[0] == '"' {
        assert t[..1] == [t[0]];
      }
    }
  }

  lemma StringEndsLater(t: string, n: nat)
    requires n <= |t| && StringEnd(t) == n + StringEnd(t[n..])
    ensures t[..n] + t[n..][..StringEnd(t[n..])] == t[..StringEnd(t)]
            && t[n..][StringEnd(t[n..])..] == t[StringEnd(t)..]
  {
    SlicesJoin(t, n, StringEnd(t[n..]));
  }

  lemma SlicesJoin(t: string, n: nat, m: nat)
    requires n + m <= |t|
    ensures t[..n] + t[n..][..m] == t[..n + m] && t[n..][m..] == t[n + m..]
  {}

  /** Well formed or not, a text loses nothing but commas. */
  lemma {:induction false} OnlyCommasGo(t: string, inString: bool)
    ensures NonCommas(Strip(t, inString)) == NonCommas(t)
    ensures |Strip(t, inString)| <= |t|
    decreases |t|
  {
    if t != [] {
      if inString && t[0] == '\\' {
        if |t| > 1 {
          OnlyCommasGo(t[2..], true);
          assert t == [t[0], t[1]] + t[2..];
          NonCommasAdd([t[0], t[1]], t[2..]);
          NonCommasAdd([t[0], t[1]], Strip(t[2..], true));
        }
      } else {
        var goesOn := if inString then t[0] != '"' else t[0] == '"';
        OnlyCommasGo(t[1..], goesOn);
        NonCommasAdd([t[0]], Strip(t[1..], goesOn));
        assert t == [t[0]] + t[1..];
        NonCommasAdd([t[0]], t[1..]);
      }
    }
  }

  // ---- the loop ----

  method ClosesAfter(text: string, start: nat) returns (yes: bool)
    ensures yes == CloserNext(From(text, start))
  {
    var j := start;
    while j < |text| && JsSpace(text[j])
      invariant start <= j
      invariant CloserNext(From(text, j)) == CloserNext(From(text, start))
    {
      assert From(text, j)[1..] == From(text, j + 1);
      j := j + 1;
    }
    yes := j < |text| && (text[j] == '}' || text[j] == ']');
  }

  method StripTrailingCommas(text: string) returns (out: string)
    ensures out == Strip(text, false)
  {
    out := [];
    var inString, i := false, 0;
    assert [] + Strip(text, false) == Strip(text, false);
    while i < |text|
      invariant out + Strip(From(text, i), inString) == Strip(text, false)
    {
      var ch := text[i];
      assert From(text, i)[1..] == From(text, i + 1);
      ghost var was, rest := out, Strip(From(text, i), inString);
      if inString {
        out := out + [ch];
        if ch == '\\' {
          if i + 1 < |text| {
            assert From(text, i)[2..] == From(text, i + 2);
            assert was + (['\\', text[i + 1]] + Strip(From(text, i + 2), true))
              == was + ['\\'] + [text[i + 1]] + Strip(From(text, i + 2), true);
            out := out + [text[i + 1]];
          } else {
            assert From(text, i) == ['\\'];
          }
          i := i + 2;
        } else {
          Regroup(was, [ch], Strip(From(text, i + 1), ch != '"'));
          inString := ch != '"';
          i := i + 1;
        }
      } else {
        var dropped := false;
        if ch == ',' {
          dropped := ClosesAfter(text, i + 1);
        }
        if !dropped {
          Regroup(was, [ch], Strip(From(text, i + 1), ch == '"'));
          inString := ch == '"';
          out := out + [ch];
        }
        i := i + 1;
      }
    }
    assert out + [] == out;
  }

  /** White space and line ends, by their code points, as section 12 of ECMA-262 lists them. */
  const SPACE_CODES: set<int> := {
    9, 10, 11, 12, 13, 32, 160, 5760, 8192, 8193, 8194, 8195, 8196, 8197, 8198, 8199, 8200, 8201, 8202,
    8232, 8233, 8239, 8287, 12288, 65279}

  /** A comma goes exactly when nothing but these stands between it and a closing bracket. */
  lemma {:induction false} CommasBeforeBracketsGo(space: string, c: char, rest: string)
    requires (forall i | 0 <= i < |space| :: space[i] as int in SPACE_CODES) && c as int !in SPACE_CODES
    ensures CloserNext(space + ([c] + rest)) <==> c == '}' || c == ']'
    ensures Strip([','] + (space + ([c] + rest)), false)
         == if c == '}' || c == ']' then Strip(space + ([c] + rest), false)
            else [','] + Strip(space + ([c] + rest), false)
    decreases |space|
  {
    assert ([','] + (space + ([c] + rest)))[1..] == space + ([c] + rest);
    if space == [] {
      assert space + ([c] + rest) == [c] + rest;
      NoSpaceElse(c);
    } else {
      assert (space + ([c] + rest))[1..] == space[1..] + ([c] + rest);
      NoSpaceElse(space[0]);
      assert forall i | 0 <= i < |space[1..]| :: space[1..][i] == space[i + 1];
      CommasBeforeBracketsGo(space[1..], c, rest);
    }
  }

  lemma NoSpaceElse(c: char)
    ensures JsSpace(c) <==> c as int in SPACE_CODES
  {}
}
