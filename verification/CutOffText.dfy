/**
 * What the scanner reports of a document that ends inside its objects: what it would report were every
 * open bracket closed, as long as the text does not end in the middle of a string or a comment.
 */
module CutOffText {
  import opened DuplicateKeys
  import opened JsonText
  import opened Wrappers

  /** A block comment that has begun is ended. */
  predicate BlockEnds(t: string) {
    t != [] && ((t[0] == '*' && |t| > 1 && t[1] == '/') || BlockEnds(t[1..]))
  }

  /** A string that has begun is ended. */
  predicate StringEnds(t: string)
    decreases |t|
  {
    t != [] && if t[0] == '\\' then |t| > 1 && StringEnds(t[2..]) else t[0] == '"' || StringEnds(t[1..])
  }

  /** Every string and every comment in the text is ended. */
  predicate EndsBetween(t: string)
    decreases |t|
  {
    t == []
    || if t[0] == '/' && |t| > 1 && t[1] == '/' then SkipLine(t) != [] && EndsBetween(SkipLine(t))
       else if t[0] == '/' && |t| > 1 && t[1] == '*' then BlockEnds(t[2..]) && EndsBetween(SkipBlock(t[2..]).0)
       else if t[0] == '"' then StringEnds(t[1..]) && EndsBetween(ScanString(t[1..]).1)
       else EndsBetween(t[1..])
  }

  predicate AllClose(more: string) {
    forall i | 0 <= i < |more| :: more[i] == '}' || more[i] == ']'
  }

  lemma {:induction false} LineSplits(t: string, more: string)
    requires SkipLine(t) != []
    ensures SkipLine(t + more) == SkipLine(t) + more
  {
    if t[0] != '\n' {
      assert (t + more)[1..] == t[1..] + more;
      LineSplits(t[1..], more);
    }
  }

  lemma {:induction false} BlockSplits(t: string, more: string)
    requires BlockEnds(t)
    ensures SkipBlock(t + more) == (SkipBlock(t).0 + more, SkipBlock(t).1)
  {
    if t[0] == '*' && |t| > 1 && t[1] == '/' {
      assert (t + more)[2..] == t[2..] + more;
    } else {
      assert (t + more)[1..] == t[1..] + more;
      BlockSplits(t[1..], more);
    }
  }

  lemma {:induction false} StringSplits(t: string, more: string)
    requires StringEnds(t)
    ensures ScanString(t + more) == (ScanString(t).0, ScanString(t).1 + more, ScanString(t).2)
    decreases |t|
  {
    if t[0] == '\\' {
      assert (t + more)[2..] == t[2..] + more;
      StringSplits(t[2..], more);
    } else {
      assert (t + more)[1..] == t[1..] + more;
      if t[0] != '"' {
        StringSplits(t[1..], more);
      }
    }
  }

  lemma {:induction false} NoColonInClosers(t: string, more: string)
    requires AllClose(more)
    ensures ColonNext(t + more) == ColonNext(t)
  {
    if t == [] {
      assert t + more == more;
    } else {
      assert (t + more)[1..] == t[1..] + more;
      NoColonInClosers(t[1..], more);
    }
  }

  /** Closing brackets after the text are read from the state it leaves. */
  lemma {:induction false} ScanSplits(t: string, more: string, st: State)
    requires EndsBetween(t) && AllClose(more)
    ensures Scan(t + more, st) == Scan(more, Scan(t, st))
    decreases |t|
  {
    if t == [] {
      assert t + more == more;
    } else if t[0] == '/' && |t| > 1 && t[1] == '/' {
      LineSplits(t, more);
      ScanSplits(SkipLine(t), more, st);
    } else if t[0] == '/' && |t| > 1 && t[1] == '*' {
      assert (t + more)[2..] == t[2..] + more;
      BlockSplits(t[2..], more);
      ScanSplits(SkipBlock(t[2..]).0, more, st.(line := st.line + SkipBlock(t[2..]).1));
    } else {
      assert (t + more)[1..] == t[1..] + more;
      if t[0] == '"' {
        var (value, rest, passed) := ScanString(t[1..]);
        StringSplits(t[1..], more);
        NoColonInClosers(rest, more);
        ScanSplits(rest, more, Quoted(st, value, rest, passed));
      } else {
        CharSplits(t, more, st);
      }
    }
  }

  lemma CharSplits(t: string, more: string, st: State)
    requires t != [] && t[0] != '"' && !(t[0] == '/' && |t| > 1 && (t[1] == '/' || t[1] == '*'))
    requires EndsBetween(t[1..]) && AllClose(more) && (t + more)[1..] == t[1..] + more
    ensures Scan(t + more, st) == Scan(more, Scan(t, st))
    decreases |t|, 0
  {
    assert t == [t[0]] + t[1..] && t + more == [t[0]] + (t[1..] + more);
    OneChar(t, st);
    OneChar(t + more, st);
    ScanSplits(t[1..], more, StepChar(t[0], st));
  }

  /** A character that begins neither a string nor a comment. */
  lemma OneChar(t: string, st: State)
    requires t != [] && t[0] != '"' && !(t[0] == '/' && |t| > 1 && (t[1] == '/' || t[1] == '*'))
    ensures Scan(t, st) == Scan(t[1..], StepChar(t[0], st))
  {}

  /** Brackets that close all frames find what is found when the text just ends. */
  lemma {:induction false} ClosingFindsTheRest(more: string, st: State, other: State)
    requires AllClose(more) && Scan(more, st).stack == Bottom && st.stack == other.stack && st.found == other.found
    ensures Scan(more, st).found == CloseAll(other).found
    decreases |more|
  {
    if more != [] {
      assert more[0] == '}' || more[0] == ']';
      assert forall i | 0 <= i < |more[1..]| :: more[1..][i] == more[i + 1];
      OneChar(more, st);
      if st.stack == Bottom {
        ClosingFindsTheRest(more[1..], Closed(st), other);
      } else {
        ClosingFindsTheRest(more[1..], Closed(st), CloseFrame(other));
      }
    }
  }

  lemma DocumentEndsClosed(d: Document)
    requires DocumentOk(d)
    ensures Scan(Print(d), START).stack == Bottom && Scan(Print(d), START).found == Reports(ObjectsOf(d))
  {
    ScanOfDocument(d);
    WalkOfRoot(d.value, 1 + GapLines(d.before));
    EndsAs(Print(d), Walk(d.value, State(1 + GapLines(d.before), None, None, Bottom, [])), GapLines(d.after));
  }

  lemma EndsAs(text: string, st: State, lines: nat)
    requires Scan(text, START) == Down(st, lines)
    ensures Scan(text, START).stack == st.stack && Scan(text, START).found == st.found
  {}

  /** A document that lacks brackets at its end, however many, is reported as if it had them. */
  lemma CutOffIsReportedAsClosed(d: Document, text: string, more: string)
    requires DocumentOk(d) && Print(d) == text + more && AllClose(more) && EndsBetween(text)
    ensures Duplicates(text) == Reports(ObjectsOf(d))
  {
    DocumentEndsClosed(d);
    ScanSplits(text, more, START);
    ClosingFindsTheRest(more, Scan(text, START), Scan(text, START));
  }
}
