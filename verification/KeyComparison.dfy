/**
 * Where the scanner's idea of the same key and JSON's part company.
 *
 * The scanner drops each backslash and keeps the character after it; section 7 of RFC 8259 gives
 * most escapes another meaning. On documents whose keys use no such escape the report is JSON's own;
 * and for every key that uses one there is a document on which the two differ.
 */
module KeyComparison {
  import opened JsonText
  import opened DuplicateKeys
  import opened Wrappers

  predicate IsHex(c: Ch) {
    c.Plain? && ('0' <= c.c <= '9' || 'a' <= c.c <= 'f' || 'A' <= c.c <= 'F')
  }

  function HexValue(c: char): nat
    requires IsHex(Plain(c))
  {
    if c <= '9' then c as int - '0' as int
    else if c <= 'F' then c as int - 'A' as int + 10
    else c as int - 'a' as int + 10
  }

  predicate FourHex(chars: seq<Ch>) {
    |chars| >= 4 && IsHex(chars[0]) && IsHex(chars[1]) && IsHex(chars[2]) && IsHex(chars[3])
  }

  /** Every \u is followed by four hexadecimal digits. */
  predicate EscapesOk(chars: seq<Ch>) {
    chars == [] || ((chars[0] == Escaped('u') ==> FourHex(chars[1..])) && EscapesOk(chars[1..]))
  }

  /** What one character or escape stands for, as a number; a decoded string is a sequence of these. */
  function Unit(c: Ch): nat {
    match c
    case Plain(p) => p as int
    case Escaped(e) =>
      if e == 'b' then 8 else if e == 'f' then 12 else if e == 'n' then 10
      else if e == 'r' then 13 else if e == 't' then 9 else e as int
  }

  function Decoded(chars: seq<Ch>): seq<nat>
    requires EscapesOk(chars)
    decreases |chars|
  {
    if chars == [] then []
    else if chars[0] == Escaped('u') then
      EscapesOkAfter(chars, 5);
      [4096 * HexValue(chars[1].c) + 256 * HexValue(chars[2].c) + 16 * HexValue(chars[3].c) + HexValue(chars[4].c)]
      + Decoded(chars[5..])
    else [Unit(chars[0])] + Decoded(chars[1..])
  }

  lemma {:induction false} EscapesOkAfter(chars: seq<Ch>, n: nat)
    requires EscapesOk(chars) && n <= |chars|
    ensures EscapesOk(chars[n..])
    decreases n
  {
    if n == 0 {
      assert chars[0..] == chars;
    } else {
      EscapesOkAfter(chars[1..], n - 1);
      assert chars[1..][n - 1..] == chars[n..];
    }
  }

  /** The scanner's name for the key, as code units. */
  function NameUnits(chars: seq<Ch>): seq<nat> {
    if chars == [] then [] else [chars[0].c as int] + NameUnits(chars[1..])
  }

  lemma {:induction false} NameUnitsAreTheName(chars: seq<Ch>)
    ensures |NameUnits(chars)| == |Name(chars)| == |chars|
    ensures forall i | 0 <= i < |chars| :: NameUnits(chars)[i] == Name(chars)[i] as int && Name(chars)[i] == chars[i].c
  {
    if chars != [] {
      NameUnitsAreTheName(chars[1..]);
    }
  }

  /** Dropping the backslash is what JSON means by this character. */
  predicate StandsForItself(c: Ch) {
    c.Plain? || c.c == '"' || c.c == '\\' || c.c == '/'
  }

  predicate SelfSpelled(chars: seq<Ch>) {
    forall c | c in chars :: StandsForItself(c)
  }

  lemma {:induction false} DecodingNeverLengthens(chars: seq<Ch>)
    requires EscapesOk(chars)
    ensures |Decoded(chars)| <= |chars|
    decreases |chars|
  {
    if chars != [] {
      if chars[0] == Escaped('u') {
        EscapesOkAfter(chars, 5);
        DecodingNeverLengthens(chars[5..]);
      } else {
        DecodingNeverLengthens(chars[1..]);
      }
    }
  }

  /** The scanner names a key as JSON does exactly when every escape in it stands for itself. */
  lemma {:induction false} NameIsTheDecodedKeyExactly(chars: seq<Ch>)
    requires CharsOk(chars) && EscapesOk(chars)
    ensures NameUnits(chars) == Decoded(chars) <==> SelfSpelled(chars)
    decreases |chars|
  {
    if chars != [] {
      assert ChOk(chars[0]);
      NameUnitsAreTheName(chars);
      if chars[0] == Escaped('u') {
        EscapesOkAfter(chars, 5);
        DecodingNeverLengthens(chars[5..]);
        assert !StandsForItself(chars[0]) && chars[0] in chars;
      } else {
        NameIsTheDecodedKeyExactly(chars[1..]);
        assert chars == [chars[0]] + chars[1..];
        assert NameUnits(chars)[1..] == NameUnits(chars[1..]);
        assert Decoded(chars)[1..] == Decoded(chars[1..]);
        assert NameUnits(chars)[0] == Decoded(chars)[0] <==> StandsForItself(chars[0]);
      }
    }
  }

  // ---- the report on a whole document ----

  type JsonDeclarations = seq<(seq<nat>, nat)>

  /** Every key of the value is a well-formed string. */
  predicate KeysOk(v: Value) {
    v.Box? ==> EntryKeysOk(v.entries)
  }

  predicate EntryKeysOk(e: Entries) {
    e.AnEntry? ==> (e.tag.Key? ==> EscapesOk(e.tag.chars)) && KeysOk(e.value) && RestKeysOk(e.rest)
  }

  predicate RestKeysOk(r: Rest) {
    r.Comma? ==> EntryKeysOk(r.next)
  }

  /** The keys an object declares in JSON's sense, decoded, each with the line it starts on. */
  function JsonDeclares(e: Entries, line: nat): JsonDeclarations
    requires EntryKeysOk(e)
  {
    match e
    case NoEntries(_) => []
    case AnEntry(before, tag, value, after, rest) =>
      (if tag.Key? then [(Decoded(tag.chars), line + GapLines(before))] else [])
      + JsonDeclaresAfter(rest, line + GapLines(before) + LabelLines(tag) + ValueLines(value) + GapLines(after))
  }

  function JsonDeclaresAfter(r: Rest, line: nat): JsonDeclarations
    requires RestKeysOk(r)
  {
    match r
    case Done => []
    case Comma(next) => JsonDeclares(next, line)
  }

  function JsonSuffix(tag: Label): seq<nat>
    requires tag.Key? ==> EscapesOk(tag.chars)
  {
    if tag.Key? then Units(['.']) + Decoded(tag.chars) else Units(['[', ']'])
  }

  /** Every object of a value, inner ones first, with its path and what it declares. */
  function JsonObjects(v: Value, path: seq<nat>, line: nat): seq<(seq<nat>, JsonDeclarations)>
    requires KeysOk(v)
  {
    match v
    case Text(_) => []
    case Atom(_) => []
    case Box(isObject, entries) =>
      JsonObjectsIn(entries, path, line) + if isObject then [(path, JsonDeclares(entries, line))] else []
  }

  function JsonObjectsIn(e: Entries, path: seq<nat>, line: nat): seq<(seq<nat>, JsonDeclarations)>
    requires EntryKeysOk(e)
  {
    match e
    case NoEntries(_) => []
    case AnEntry(before, tag, value, after, rest) =>
      var start := line + GapLines(before) + LabelLines(tag);
      JsonObjects(value, path + JsonSuffix(tag), start)
      + JsonObjectsAfter(rest, path, start + ValueLines(value) + GapLines(after))
  }

  function JsonObjectsAfter(r: Rest, path: seq<nat>, line: nat): seq<(seq<nat>, JsonDeclarations)>
    requires RestKeysOk(r)
  {
    match r
    case Done => []
    case Comma(next) => JsonObjectsIn(next, path, line)
  }

  function JsonLinesOf(ds: JsonDeclarations, key: seq<nat>): seq<nat> {
    if ds == [] then [] else (if ds[0].0 == key then [ds[0].1] else []) + JsonLinesOf(ds[1..], key)
  }

  /** k names a key that one object of the document declares more than once, with all of its lines. */
  ghost predicate IsJsonRepeat(d: Document, k: DuplicateKey)
    requires KeysOk(d.value)
  {
    var objects := JsonObjects(d.value, Units(['$']), 1 + GapLines(d.before));
    exists i :: 0 <= i < |objects| && Units(k.path) == objects[i].0
                && k.lines == JsonLinesOf(objects[i].1, Units(k.key)) && |k.lines| > 1
  }

  /** Every key is spelled with itself alone, and nothing but white space stands before its colon. */
  predicate PlainKeys(v: Value) {
    v.Box? ==> PlainEntryKeys(v.entries)
  }

  predicate PlainEntryKeys(e: Entries) {
    e.AnEntry? ==>
      && (e.tag.Key? ==> SelfSpelled(e.tag.chars) && Blank(e.tag.toColon))
      && PlainKeys(e.value) && PlainRestKeys(e.rest)
  }

  predicate PlainRestKeys(r: Rest) {
    r.Comma? ==> PlainEntryKeys(r.next)
  }

  function Units(s: string): (units: seq<nat>)
    ensures |units| == |s|
  {
    seq(|s|, i requires 0 <= i < |s| => s[i] as int)
  }

  lemma UnitsTellApart(a: string, b: string)
    ensures Units(a) == Units(b) <==> a == b
  {
    if Units(a) == Units(b) {
      assert |a| == |b|;
      forall i | 0 <= i < |a| ensures a[i] == b[i] {
        assert Units(a)[i] == a[i] as int && Units(b)[i] == b[i] as int;
        assert (a[i] as int) as char == (b[i] as int) as char;
      }
    }
  }

  lemma UnitsAdd(a: string, b: string)
    ensures Units(a + b) == Units(a) + Units(b)
  {}

  /** A key spelled with itself is decoded to its name. */
  lemma SelfSpelledDecodes(chars: seq<Ch>)
    requires CharsOk(chars) && EscapesOk(chars) && SelfSpelled(chars)
    ensures Decoded(chars) == Units(Name(chars))
  {
    NameIsTheDecodedKeyExactly(chars);
    NameUnitsAreTheName(chars);
  }

  /** The same declarations, by name and by decoding. */
  ghost predicate SameDeclarations(ds: Declarations, js: JsonDeclarations) {
    |ds| == |js| && forall i | 0 <= i < |ds| :: js[i].0 == Units(ds[i].0) && js[i].1 == ds[i].1
  }

  ghost predicate SameObjects(a: seq<(string, Declarations)>, b: seq<(seq<nat>, JsonDeclarations)>) {
    |a| == |b| && forall i | 0 <= i < |a| :: b[i].0 == Units(a[i].0) && SameDeclarations(a[i].1, b[i].1)
  }

  lemma {:induction false} SameLines(ds: Declarations, js: JsonDeclarations, key: string)
    requires SameDeclarations(ds, js)
    ensures LinesOf(ds, key) == JsonLinesOf(js, Units(key))
  {
    if ds != [] {
      UnitsTellApart(ds[0].0, key);
      SameLines(ds[1..], js[1..], key);
    }
  }

  lemma {:induction false} DeclaresAlike(e: Entries, isObject: bool, line: nat)
    requires EntriesOk(e, isObject) && EntryKeysOk(e) && PlainEntryKeys(e)
    ensures SameDeclarations(Declares(e, line), JsonDeclares(e, line))
    decreases e
  {
    match e
    case NoEntries(_) =>
    case AnEntry(before, tag, value, after, rest) =>
      if tag.Key? {
        SelfSpelledDecodes(tag.chars);
      }
      DeclaresAlikeAfter(rest, isObject,
                         line + GapLines(before) + LabelLines(tag) + ValueLines(value) + GapLines(after));
  }

  lemma {:induction false} DeclaresAlikeAfter(r: Rest, isObject: bool, line: nat)
    requires (r.Comma? ==> EntriesOk(r.next, isObject)) && RestKeysOk(r) && PlainRestKeys(r)
    ensures SameDeclarations(DeclaresAfter(r, line), JsonDeclaresAfter(r, line))
    decreases r
  {
    if r.Comma? {
      DeclaresAlike(r.next, isObject, line);
    }
  }

  lemma SuffixesAlike(tag: Label, path: string)
    requires LabelOk(tag) && (tag.Key? ==> EscapesOk(tag.chars) && SelfSpelled(tag.chars) && Blank(tag.toColon))
    ensures Units(path) + JsonSuffix(tag) == Units(path + Suffix(tag))
  {
    UnitsAdd(path, Suffix(tag));
    if tag.Key? {
      SelfSpelledDecodes(tag.chars);
      UnitsAdd(['.'], Name(tag.chars));
    }
  }

  lemma SameObjectsAdd(a: seq<(string, Declarations)>, b: seq<(seq<nat>, JsonDeclarations)>,
                       c: seq<(string, Declarations)>, d: seq<(seq<nat>, JsonDeclarations)>)
    requires SameObjects(a, b) && SameObjects(c, d)
    ensures SameObjects(a + c, b + d)
  {}

  lemma {:induction false} ObjectsAlike(v: Value, path: string, line: nat)
    requires ValueOk(v) && KeysOk(v) && PlainKeys(v)
    ensures SameObjects(Objects(v, path, line), JsonObjects(v, Units(path), line))
    decreases v
  {
    if v.Box? {
      ObjectsAlikeIn(v.entries, v.isObject, path, line);
      if v.isObject {
        var own, json := Declares(v.entries, line), JsonDeclares(v.entries, line);
        DeclaresAlike(v.entries, true, line);
        SameObjectsAdd(ObjectsIn(v.entries, path, line), JsonObjectsIn(v.entries, Units(path), line), [(path, own)],
                       [(Units(path), json)]);
      } else {
        assert ObjectsIn(v.entries, path, line) + [] == ObjectsIn(v.entries, path, line);
        assert JsonObjectsIn(v.entries, Units(path), line) + [] == JsonObjectsIn(v.entries, Units(path), line);
      }
    }
  }

  lemma {:induction false} ObjectsAlikeIn(e: Entries, isObject: bool, path: string, line: nat)
    requires EntriesOk(e, isObject) && EntryKeysOk(e) && PlainEntryKeys(e)
    ensures SameObjects(ObjectsIn(e, path, line), JsonObjectsIn(e, Units(path), line))
    decreases e
  {
    match e
    case NoEntries(_) =>
    case AnEntry(before, tag, value, after, rest) =>
      var start := line + GapLines(before) + LabelLines(tag);
      var further := start + ValueLines(value) + GapLines(after);
      SuffixesAlike(tag, path);
      ObjectsAlike(value, path + Suffix(tag), start);
      ObjectsAlikeAfter(rest, isObject, path, further);
      SameObjectsAdd(Objects(value, path + Suffix(tag), start),
                     JsonObjects(value, Units(path) + JsonSuffix(tag), start),
                     ObjectsAfter(rest, path, further), JsonObjectsAfter(rest, Units(path), further));
  }

  lemma {:induction false} ObjectsAlikeAfter(r: Rest, isObject: bool, path: string, line: nat)
    requires (r.Comma? ==> EntriesOk(r.next, isObject)) && RestKeysOk(r) && PlainRestKeys(r)
    ensures SameObjects(ObjectsAfter(r, path, line), JsonObjectsAfter(r, Units(path), line))
    decreases r
  {
    if r.Comma? {
      ObjectsAlikeIn(r.next, isObject, path, line);
    }
  }

  /** Of every document whose keys are spelled with themselves, the report is exactly JSON's repeats. */
  lemma PlainKeysAreReportedAsJson(d: Document)
    requires DocumentOk(d) && KeysOk(d.value) && PlainKeys(d.value)
    ensures forall k :: k in Duplicates(Print(d)) <==> IsJsonRepeat(d, k)
  {
    ScannerIsExact(d);
    var line := 1 + GapLines(d.before);
    var a, b := ObjectsOf(d), JsonObjects(d.value, Units(['$']), line);
    ObjectsAlike(d.value, ['$'], line);
    forall k ensures IsRepeat(a, k) <==> IsJsonRepeat(d, k) {
      forall i | 0 <= i < |a|
        ensures k.path == a[i].0 <==> Units(k.path) == b[i].0
        ensures LinesOf(a[i].1, k.key) == JsonLinesOf(b[i].1, Units(k.key))
      {
        UnitsTellApart(k.path, a[i].0);
        SameLines(a[i].1, b[i].1, k.key);
      }
    }
  }

  // ---- two keys ----

  /** {"k1":1,"k2" :1} with this gap before the second colon. */
  function Pair(k1: seq<Ch>, k2: seq<Ch>, toColon: Gap): Document {
    var second := Holding(Key(k2, toColon, []), Done);
    Document([], Box(true, Holding(Key(k1, [], []), Comma(second))), [], None)
  }

  /** An entry whose value is 1. */
  function Holding(tag: Label, rest: Rest): Entries {
    AnEntry([], tag, Atom(['1']), [], rest)
  }

  /** {"k1":1,"k2":1} */
  function TwoKeys(k1: seq<Ch>, k2: seq<Ch>): Document {
    Pair(k1, k2, [])
  }

  lemma HoldingDeclares(tag: Label, rest: Rest, line: nat)
    ensures Declares(Holding(tag, rest), line) == DeclaredBy(tag, line) + DeclaresAfter(rest, line + LabelLines(tag))
    ensures ObjectsIn(Holding(tag, rest), ['$'], line) == ObjectsAfter(rest, ['$'], line + LabelLines(tag))
  {
    assert [] + ObjectsAfter(rest, ['$'], line + LabelLines(tag)) == ObjectsAfter(rest, ['$'], line + LabelLines(tag));
  }

  lemma LastHolding(tag: Label)
    ensures Declares(Holding(tag, Done), 1) == DeclaredBy(tag, 1) && ObjectsIn(Holding(tag, Done), ['$'], 1) == []
  {
    HoldingDeclares(tag, Done, 1);
    assert DeclaredBy(tag, 1) + [] == DeclaredBy(tag, 1);
  }

  lemma HoldingBefore(k: seq<Ch>, second: Entries, ds: Declarations)
    requires Declares(second, 1) == ds && ObjectsIn(second, ['$'], 1) == []
    ensures var first := Holding(Key(k, [], []), Comma(second));
            Declares(first, 1) == [(Name(k), 1)] + ds && ObjectsIn(first, ['$'], 1) == []
  {
    HoldingDeclares(Key(k, [], []), Comma(second), 1);
  }

  lemma ObjectsOfPair(k1: seq<Ch>, k2: seq<Ch>, toColon: Gap)
    ensures ObjectsOf(Pair(k1, k2, toColon)) == [(['$'], [(Name(k1), 1)] + DeclaredBy(Key(k2, toColon, []), 1))]
  {
    var tag := Key(k2, toColon, []);
    LastHolding(tag);
    HoldingBefore(k1, Holding(tag, Done), DeclaredBy(tag, 1));
    OnlyTheRoot(Pair(k1, k2, toColon), [(Name(k1), 1)] + DeclaredBy(tag, 1));
  }

  lemma OnlyTheRoot(d: Document, ds: Declarations)
    requires d.before == [] && d.value.Box? && d.value.isObject
    requires Declares(d.value.entries, 1) == ds && ObjectsIn(d.value.entries, ['$'], 1) == []
    ensures ObjectsOf(d) == [(['$'], ds)]
  {}

  /** Two keys are reported as one repeated key exactly when their names, not their decodings, agree. */
  lemma TwoKeysReport(k1: seq<Ch>, k2: seq<Ch>)
    requires CharsOk(k1) && CharsOk(k2)
    ensures Duplicates(Print(TwoKeys(k1, k2)))
         == if Name(k1) == Name(k2) then [DuplicateKey(Name(k1), ['$'], [1, 1])] else []
  {
    PairReports(k1, k2, []);
  }

  /** The second of two keys is compared exactly when no comment stands before its colon. */
  lemma PairReports(k1: seq<Ch>, k2: seq<Ch>, toColon: Gap)
    requires CharsOk(k1) && CharsOk(k2) && GapOk(toColon)
    ensures Duplicates(Print(Pair(k1, k2, toColon)))
         == if Blank(toColon) && Name(k1) == Name(k2) then [DuplicateKey(Name(k1), ['$'], [1, 1])] else []
  {
    PairIsOk(k1, k2, toColon);
    ScannerReportsTheObjects(Pair(k1, k2, toColon));
    ObjectsOfPair(k1, k2, toColon);
    if Blank(toColon) {
      assert [(Name(k1), 1)] + [(Name(k2), 1)] == [(Name(k1), 1), (Name(k2), 1)];
      ReportOfTwo(Name(k1), Name(k2));
    } else {
      assert [(Name(k1), 1)] + [] == [(Name(k1), 1)];
      ReportOfOne(Name(k1));
    }
  }

  lemma PairIsOk(k1: seq<Ch>, k2: seq<Ch>, toColon: Gap)
    requires CharsOk(k1) && CharsOk(k2) && GapOk(toColon)
    ensures DocumentOk(Pair(k1, k2, toColon))
  {
    assert EntriesOk(Holding(Key(k2, toColon, []), Done), true);
  }

  lemma ReportOfTwo(n1: string, n2: string)
    ensures Reports([(['$'], [(n1, 1), (n2, 1)])]) == if n1 == n2 then [DuplicateKey(n1, ['$'], [1, 1])] else []
  {
    var ds := [(n1, 1), (n2, 1)];
    OwnReport(true, ['$'], ds);
    assert [(n1, 1)][1..] == [] && ds == [(n1, 1)] + [(n2, 1)];
    assert RecordAll([], [(n1, 1)]) == [(n1, [1])];
    RecordAllThen([], [(n1, 1)], (n2, 1));
    var first: KeyLines := [(n1, [1])];
    assert first[1..] == [];
    if n1 == n2 {
      assert Record(first, n2, 1) == [(n1, [1] + [1])] + [];
      assert [(n1, [1, 1])][1..] == [] && [1] + [1] == [1, 1];
      assert Repeated([(n1, [1, 1])], ['$']) == [DuplicateKey(n1, ['$'], [1, 1])];
    } else {
      assert Record(first, n2, 1) == [(n1, [1])] + [(n2, [1])];
      assert [(n1, [1]), (n2, [1])][1..] == [(n2, [1])];
      assert Repeated([(n2, [1])], ['$']) == [];
    }
  }

  lemma ReportOfOne(n: string)
    ensures Reports([(['$'], [(n, 1)])]) == []
  {
    var ds := [(n, 1)];
    OwnReport(true, ['$'], ds);
    assert ds[1..] == [] && RecordAll([], ds) == [(n, [1])];
    var keys: KeyLines := [(n, [1])];
    assert keys[1..] == [] && Repeated(keys, ['$']) == [];
  }

  /** On these two keys the scanner and JSON agree whether they are one. */
  ghost predicate Agree(k1: seq<Ch>, k2: seq<Ch>)
    requires EscapesOk(k1) && EscapesOk(k2)
  {
    Duplicates(Print(TwoKeys(k1, k2))) != [] <==> Decoded(k1) == Decoded(k2)
  }

  /** A character spelled with itself: a quote and a backslash take a backslash, nothing else does. */
  function SpelledChar(c: char): Ch {
    if c == '"' || c == '\\' then Escaped(c) else Plain(c)
  }

  function Spelled(name: string): seq<Ch> {
    if name == [] then [] else [SpelledChar(name[0])] + Spelled(name[1..])
  }

  lemma OneMoreSpelled(head: Ch, rest: seq<Ch>)
    requires StandsForItself(head) && ChOk(head) && CharsOk(rest) && EscapesOk(rest) && SelfSpelled(rest)
    ensures var k := [head] + rest; CharsOk(k) && EscapesOk(k) && SelfSpelled(k) && Name(k) == [head.c] + Name(rest)
  {
    var k := [head] + rest;
    assert k[0] == head && k[1..] == rest;
    assert forall c | c in k :: c == head || c in rest;
  }

  lemma {:induction false} SpelledIsSelfSpelled(chars: seq<Ch>)
    requires CharsOk(chars)
    ensures var k := Spelled(Name(chars)); CharsOk(k) && EscapesOk(k) && SelfSpelled(k) && Name(k) == Name(chars)
  {
    if chars != [] {
      assert ChOk(chars[0]);
      SpelledIsSelfSpelled(chars[1..]);
      assert Name(chars)[0] == chars[0].c && Name(chars)[1..] == Name(chars[1..]);
      OneMoreSpelled(SpelledChar(chars[0].c), Spelled(Name(chars[1..])));
    }
  }

  /** A key with any other escape and the plain spelling of its name are one key to the scanner, two to JSON. */
  lemma OtherEscapesDisagree(k: seq<Ch>)
    requires CharsOk(k) && EscapesOk(k) && !SelfSpelled(k)
    ensures var plain := Spelled(Name(k));
            && CharsOk(plain) && EscapesOk(plain) && SelfSpelled(plain)
            && Duplicates(Print(TwoKeys(k, plain))) == [DuplicateKey(Name(k), ['$'], [1, 1])]
            && Decoded(k) != Decoded(plain)
  {
    var plain := Spelled(Name(k));
    SpelledIsSelfSpelled(k);
    TwoKeysReport(k, plain);
    SelfSpelledDecodes(plain);
    NameIsTheDecodedKeyExactly(k);
    NameUnitsAreTheName(k);
    assert NameUnits(k) == Units(Name(k));
  }

  lemma SelfSpelledAgree(k1: seq<Ch>, k2: seq<Ch>)
    requires CharsOk(k1) && CharsOk(k2) && EscapesOk(k1) && EscapesOk(k2) && SelfSpelled(k1) && SelfSpelled(k2)
    ensures Agree(k1, k2)
  {
    TwoKeysReport(k1, k2);
    SelfSpelledDecodes(k1);
    SelfSpelledDecodes(k2);
    UnitsTellApart(Name(k1), Name(k2));
  }

  /** Beside every plainly spelled key, the scanner and JSON agree on k exactly when k is plainly spelled too. */
  lemma AgreesWithPlainKeysExactly(k: seq<Ch>)
    requires CharsOk(k) && EscapesOk(k)
    ensures (forall plain | CharsOk(plain) && EscapesOk(plain) && SelfSpelled(plain) :: Agree(k, plain))
            <==> SelfSpelled(k)
  {
    if SelfSpelled(k) {
      forall plain | CharsOk(plain) && EscapesOk(plain) && SelfSpelled(plain) ensures Agree(k, plain) {
        SelfSpelledAgree(k, plain);
      }
    } else {
      OtherEscapesDisagree(k);
      assert !Agree(k, Spelled(Name(k)));
    }
  }

  /** Two keys with other escapes may still compare alike: "\n" and "\t" are two keys to both. */
  lemma TwoOtherEscapesMayAgree()
    ensures var newline, tab := [Escaped('n')], [Escaped('t')];
            EscapesOk(newline) && EscapesOk(tab) && !SelfSpelled(newline) && !SelfSpelled(tab) && Agree(newline, tab)
  {
    var newline, tab := [Escaped('n')], [Escaped('t')];
    TwoKeysReport(newline, tab);
    OneEscape('n');
    OneEscape('t');
  }

  lemma OneEscape(c: char)
    requires c == 'n' || c == 't'
    ensures var k := [Escaped(c)];
            && EscapesOk(k) && !SelfSpelled(k) && Name(k) == [c]
            && Decoded(k) == [if c == 'n' then 10 else 9]
  {
    var k := [Escaped(c)];
    assert k[1..] == [] && k[0] in k;
  }

  /** "a" and "\u0061" are one key to JSON and two to the scanner. */
  lemma MissesARepeat()
    ensures var a, escaped := [Plain('a')], [Escaped('u'), Plain('0'), Plain('0'), Plain('6'), Plain('1')];
            && EscapesOk(a) && EscapesOk(escaped) && Decoded(a) == Decoded(escaped)
            && Duplicates(Print(TwoKeys(a, escaped))) == []
  {
    var a, escaped := [Plain('a')], [Escaped('u'), Plain('0'), Plain('0'), Plain('6'), Plain('1')];
    TwoKeysReport(a, escaped);
    assert Name(a) != Name(escaped) by {
      NameUnitsAreTheName(a);
      NameUnitsAreTheName(escaped);
    }
    EscapedDecodes(a, escaped);
  }

  lemma EscapedDecodes(a: seq<Ch>, escaped: seq<Ch>)
    requires a == [Plain('a')] && escaped == [Escaped('u'), Plain('0'), Plain('0'), Plain('6'), Plain('1')]
    ensures EscapesOk(a) && EscapesOk(escaped) && Decoded(a) == [97] == Decoded(escaped)
  {
    PlainEscapesOk(escaped[1..]);
    assert escaped[5..] == [] && a[1..] == [];
  }

  lemma {:induction false} PlainEscapesOk(chars: seq<Ch>)
    requires forall c | c in chars :: c.Plain?
    ensures EscapesOk(chars)
  {
    if chars != [] {
      PlainEscapesOk(chars[1..]);
      assert chars[0] in chars && chars[0] != Escaped('u');
    }
  }

  /** "n" and "\n" are two keys to JSON and one to the scanner. */
  lemma ReportsANonRepeat()
    ensures var n, newline := [Plain('n')], [Escaped('n')];
            && EscapesOk(n) && EscapesOk(newline) && Decoded(n) != Decoded(newline)
            && Duplicates(Print(TwoKeys(n, newline))) == [DuplicateKey(['n'], ['$'], [1, 1])]
  {
    var n, newline := [Plain('n')], [Escaped('n')];
    TwoKeysReport(n, newline);
    assert n[1..] == [] && newline[1..] == [];
    assert Decoded(n)[0] == 'n' as int && Decoded(newline)[0] == 10;
    assert Name(n) == ['n'] == Name(newline);
  }
}
