/**
 * The greedy word wrap of Applet::printWrapped, as a function of the text.
 * Glyph metrics come from the font: `bounds` stands for AdafruitGFX's
 * getTextBounds (left edge and width of a string drawn at a cursor),
 * `advance` for how far printing a string moves the cursor. The cursor is
 * a pair of `int16_t`.
 */
module TextLayout {
  import opened Common

  datatype TextBounds = TextBounds(left: int, width: int)

  datatype Font = Font(
    lineHeight: u8, heightAboveCursor: u8, heightBelowCursor: u8, widthBetweenWords: u8,
    bounds: (string, int, int) -> TextBounds,
    advance: string -> int)

  datatype Pen = Pen(x: int, y: int)

  /** One call of `print`: where the cursor stood, and what was printed. */
  datatype PrintOp = PrintOp(x: int, y: int, text: string)

  /** setCursor(left, y + lineHeight). */
  function NewLine(f: Font, left: int, pen: Pen): Pen
  {
    Pen(Wrap16(left), Wrap16(pen.y + f.lineHeight as int))
  }

  /** print(s): recorded at the cursor, which then moves right. */
  function Print(f: Font, pen: Pen, s: string): (Pen, PrintOp)
  {
    (Pen(Wrap16(pen.x + f.advance(s)), pen.y), PrintOp(pen.x, pen.y, s))
  }

  /** A word at least as wide as the box, printed character by character from position c on. */
  function LongWord(f: Font, left: int, width: int, word: string, c: nat, pen: Pen, ops: seq<PrintOp>): (r: (Pen, seq<PrintOp>))
    requires c <= |word|
    decreases |word| - c
  {
    if c == |word| then (pen, ops)
    else
      var st := LongWordChar(f, left, width, word[c], pen, ops);
      LongWord(f, left, width, word, c + 1, st.0, st.1)
  }

  /** One character of a long word: on a new line if it would cross the right edge, then printed. */
  function LongWordChar(f: Font, left: int, width: int, ch: char, pen: Pen, ops: seq<PrintOp>): (r: (Pen, seq<PrintOp>))
  {
    var b := f.bounds([ch], pen.x, pen.y);
    var pen1 := if b.left + b.width > left + width then NewLine(f, left, pen) else pen;
    var printed := Print(f, pen1, [ch]);
    (printed.0, ops + [printed.1])
  }

  /**
   * One word (with its trailing space, if any): a short word stays on the
   * line if it and a space fit before the right edge, else starts a new
   * line; a long word is broken wherever its next character would cross the
   * right edge.
   */
  function PlaceWord(f: Font, left: int, width: int, word: string, pen: Pen, ops: seq<PrintOp>): (Pen, seq<PrintOp>)
  {
    var b := f.bounds(word, pen.x, pen.y);
    if b.width < width then
      var pen1 := if b.left + b.width + f.widthBetweenWords as int < left + width then pen else NewLine(f, left, pen);
      var printed := Print(f, pen1, word);
      (printed.0, ops + [printed.1])
    else
      LongWord(f, left, width, word, 0, pen, ops)
  }

  /** The loop's variables: the cursor, where the current word began, and the prints so far. */
  datatype WrapState = WrapState(pen: Pen, wordStart: nat, ops: seq<PrintOp>)

  /** A completed word placed at the state's cursor; the next word starts at `next`. */
  function Flush(f: Font, left: int, width: int, word: string, st: WrapState, next: nat): WrapState
  {
    var placed := PlaceWord(f, left, width, word, st.pen, st.ops);
    WrapState(placed.0, next, placed.1)
  }

  /** The loop from character i on. */
  function WrapFrom(f: Font, left: int, width: int, text: string, i: nat, st: WrapState): (r: WrapState)
    requires st.wordStart <= i <= |text|
    decreases |text| - i
  {
    if i == |text| then st
    else if text[i] == '\n' then
      WrapFrom(f, left, width, text, i + 1, st.(pen := NewLine(f, left, st.pen), wordStart := i + 1))
    else if text[i] == ' ' || i == |text| - 1 then
      WrapFrom(f, left, width, text, i + 1, Flush(f, left, width, text[st.wordStart..i + 1], st, i + 1))
    else
      WrapFrom(f, left, width, text, i + 1, st)
  }

  function StartState(f: Font, left: int, top: int): WrapState
  {
    WrapState(Pen(Wrap16(left), Wrap16(top + f.heightAboveCursor as int)), 0, [])
  }

  /** printWrapped(left, top, width, text) from an empty print log. */
  function Wrapped(f: Font, left: int, top: int, width: int, text: string): WrapState
  {
    WrapFrom(f, left, width, text, 0, StartState(f, left, top))
  }

  /** Everything printed, in order. */
  function Chars(ops: seq<PrintOp>): string
  {
    if ops == [] then [] else Chars(ops[..|ops| - 1]) + ops[|ops| - 1].text
  }

  lemma {:induction false} CharsAppend(a: seq<PrintOp>, b: seq<PrintOp>)
    ensures Chars(a + b) == Chars(a) + Chars(b)
    decreases |b|
  {
    if b != [] {
      assert (a + b)[..|a + b| - 1] == a + b[..|b| - 1];
      CharsAppend(a, b[..|b| - 1]);
    } else {
      assert a + b == a;
    }
  }

  /**
   * The characters the wrap keeps, read left to right with the word in
   * progress held back: a space flushes the word with its space, the end
   * of the text flushes it, and a newline throws it away.
   */
  function KeptText(s: string, pending: string): string
    decreases |s|
  {
    if s == [] then pending
    else if s[0] == '\n' then KeptText(s[1..], [])
    else if s[0] == ' ' then pending + [' '] + KeptText(s[1..], [])
    else KeptText(s[1..], pending + [s[0]])
  }

  lemma {:induction false} LongWordChars(f: Font, left: int, width: int, word: string, c: nat, pen: Pen, ops: seq<PrintOp>)
    requires c <= |word|
    ensures Chars(LongWord(f, left, width, word, c, pen, ops).1) == Chars(ops) + word[c..]
    decreases |word| - c
  {
    if c < |word| {
      var st := LongWordChar(f, left, width, word[c], pen, ops);
      var op := st.1[|ops|];
      assert st.1 == ops + [op];
      LongWordChars(f, left, width, word, c + 1, st.0, st.1);
      CharsAppend(ops, [op]);
      assert Chars([op]) == [word[c]] by {
        assert [op][..0] == [];
      }
      assert word[c..] == [word[c]] + word[c + 1..];
    }
  }

  lemma PlaceWordChars(f: Font, left: int, width: int, word: string, pen: Pen, ops: seq<PrintOp>)
    ensures Chars(PlaceWord(f, left, width, word, pen, ops).1) == Chars(ops) + word
  {
    var b := f.bounds(word, pen.x, pen.y);
    if b.width < width {
      var pen1 := if b.left + b.width + f.widthBetweenWords as int < left + width then pen else NewLine(f, left, pen);
      var op := Print(f, pen1, word).1;
      CharsAppend(ops, [op]);
      assert [op][..0] == [];
    } else {
      LongWordChars(f, left, width, word, 0, pen, ops);
      assert word[0..] == word;
    }
  }

  lemma FlushChars(f: Font, left: int, width: int, word: string, st: WrapState, next: nat)
    ensures Chars(Flush(f, left, width, word, st, next).ops) == Chars(st.ops) + word
  {
    PlaceWordChars(f, left, width, word, st.pen, st.ops);
  }

  /** From any loop state, what is printed is what KeptText keeps of the rest, the pending word included. */
  lemma {:induction false} WrapFromChars(f: Font, left: int, width: int, text: string, i: nat, st: WrapState)
    requires st.wordStart <= i <= |text|
    requires st.wordStart < i ==> i < |text|
    ensures Chars(WrapFrom(f, left, width, text, i, st).ops) == Chars(st.ops) + KeptText(text[i..], text[st.wordStart..i])
    decreases |text| - i, 1
  {
    if i == |text| {
      assert text[st.wordStart..i] == [];
    } else {
      assert text[i..][1..] == text[i + 1..];
      if text[i] == '\n' {
        var st' := st.(pen := NewLine(f, left, st.pen), wordStart := i + 1);
        WrapFromChars(f, left, width, text, i + 1, st');
        assert text[i + 1..i + 1] == [];
      } else if text[i] == ' ' || i == |text| - 1 {
        WordEndChars(f, left, width, text, i, st);
      } else {
        WrapFromChars(f, left, width, text, i + 1, st);
        assert text[st.wordStart..i + 1] == text[st.wordStart..i] + [text[i]];
      }
    }
  }

  /** The inductive step of WrapFromChars at a space or at the last character. */
  lemma {:induction false} WordEndChars(f: Font, left: int, width: int, text: string, i: nat, st: WrapState)
    requires st.wordStart <= i < |text| && (text[i] == ' ' || i == |text| - 1) && text[i] != '\n'
    ensures Chars(WrapFrom(f, left, width, text, i, st).ops) == Chars(st.ops) + KeptText(text[i..], text[st.wordStart..i])
    decreases |text| - i, 0
  {
    var pending := text[st.wordStart..i];
    var word := text[st.wordStart..i + 1];
    var flushed := Flush(f, left, width, word, st, i + 1);
    var rest := KeptText(text[i + 1..], []);
    calc {
      Chars(WrapFrom(f, left, width, text, i, st).ops);
      Chars(WrapFrom(f, left, width, text, i + 1, flushed).ops);
      { WrapFromChars(f, left, width, text, i + 1, flushed);
        assert text[i + 1..i + 1] == []; }
      Chars(flushed.ops) + rest;
      { FlushChars(f, left, width, word, st, i + 1); }
      Chars(st.ops) + word + rest;
      { assert word == pending + [text[i]]; }
      Chars(st.ops) + (pending + [text[i]] + rest);
      { KeptAtWordEnd(text, i, pending); }
      Chars(st.ops) + KeptText(text[i..], pending);
    }
  }

  /** At a space or the last character, KeptText releases the pending word with that character. */
  lemma KeptAtWordEnd(text: string, i: nat, pending: string)
    requires i < |text| && (text[i] == ' ' || i == |text| - 1) && text[i] != '\n'
    ensures KeptText(text[i..], pending) == pending + [text[i]] + KeptText(text[i + 1..], [])
  {
    assert text[i..][1..] == text[i + 1..];
    if text[i] != ' ' {
      assert text[i + 1..] == [];
      assert KeptText(text[i + 1..], pending + [text[i]]) == pending + [text[i]];
    }
  }

  /**
   * What printWrapped prints is the text without its newlines and without
   * each word that ends directly at a newline: whatever the font and the box.
   */
  lemma PrintedText(f: Font, left: int, top: int, width: int, text: string)
    ensures Chars(Wrapped(f, left, top, width, text).ops) == KeptText(text, [])
  {
    WrapFromChars(f, left, width, text, 0, StartState(f, left, top));
    assert text[0..] == text && text[0..0] == [];
  }

  /**
   * A word that ends directly at '\n' is never printed: from a word
   * boundary, a run without spaces or newlines followed by '\n' adds no
   * print and only moves the cursor to the next line.
   */
  lemma {:induction false} WordBeforeNewlineDropped(f: Font, left: int, width: int, text: string, i: nat, k: nat, st: WrapState)
    requires st.wordStart <= i <= k < |text| && text[k] == '\n'
    requires forall j :: i <= j < k ==> text[j] != ' ' && text[j] != '\n'
    ensures WrapFrom(f, left, width, text, i, st)
      == WrapFrom(f, left, width, text, k + 1, st.(pen := NewLine(f, left, st.pen), wordStart := k + 1))
    decreases k - i
  {
    if i < k {
      WordBeforeNewlineDropped(f, left, width, text, i + 1, k, st);
    }
  }

  /** A run of characters without spaces or newlines is only added to the pending word. */
  lemma {:induction false} KeptPlainRun(w: string, rest: string, pending: string)
    requires forall j :: 0 <= j < |w| ==> w[j] != ' ' && w[j] != '\n'
    ensures KeptText(w + rest, pending) == KeptText(rest, pending + w)
    decreases |w|
  {
    if w != [] {
      assert (w + rest)[1..] == w[1..] + rest;
      KeptPlainRun(w[1..], rest, pending + [w[0]]);
      assert pending + [w[0]] + w[1..] == pending + w;
    } else {
      assert w + rest == rest && pending + w == pending;
    }
  }

  // -------------------------------------------------------------------
  // The wrap with a newline ending the word before it
  // -------------------------------------------------------------------

  /** The text without its newline characters. */
  function NoNewlines(s: string): (r: string)
    ensures |r| <= |s|
    decreases |s|
  {
    if s == [] then [] else (if s[0] == '\n' then [] else [s[0]]) + NoNewlines(s[1..])
  }

  lemma {:induction false} NoNewlinesAppend(a: string, b: string)
    ensures NoNewlines(a + b) == NoNewlines(a) + NoNewlines(b)
    decreases |a|
  {
    if a != [] {
      assert (a + b)[1..] == a[1..] + b;
      NoNewlinesAppend(a[1..], b);
    } else {
      assert a + b == b;
    }
  }

  lemma {:induction false} NoNewlinesKeeps(s: string)
    requires forall j :: 0 <= j < |s| ==> s[j] != '\n'
    ensures NoNewlines(s) == s
    decreases |s|
  {
    if s != [] {
      NoNewlinesKeeps(s[1..]);
      assert [s[0]] + s[1..] == s;
    }
  }

  /** The loop as evidently intended: at a newline the word before it is placed first. */
  function WrapFromCorrected(f: Font, left: int, width: int, text: string, i: nat, st: WrapState): (r: WrapState)
    requires st.wordStart <= i <= |text|
    decreases |text| - i
  {
    if i == |text| then st
    else WrapFromCorrected(f, left, width, text, i + 1, CorrectedStep(f, left, width, text, i, st))
  }

  /** One turn of the corrected loop, at character i. */
  function CorrectedStep(f: Font, left: int, width: int, text: string, i: nat, st: WrapState): (r: WrapState)
    requires st.wordStart <= i < |text|
    ensures r.wordStart <= i + 1
  {
    if text[i] == '\n' then AtNewline(f, left, width, text, i, st)
    else if text[i] == ' ' || i == |text| - 1 then Flush(f, left, width, text[st.wordStart..i + 1], st, i + 1)
    else st
  }

  lemma WrapFromCorrectedUnfold(f: Font, left: int, width: int, text: string, i: nat, st: WrapState)
    requires st.wordStart <= i < |text|
    ensures WrapFromCorrected(f, left, width, text, i, st)
      == WrapFromCorrected(f, left, width, text, i + 1, CorrectedStep(f, left, width, text, i, st))
  {
  }

  /** A newline at i: the pending word, if any, is placed, then the cursor moves to the next line. */
  function AtNewline(f: Font, left: int, width: int, text: string, i: nat, st: WrapState): (r: WrapState)
    requires st.wordStart <= i < |text|
    ensures r.wordStart == i + 1
  {
    var st1 := if st.wordStart < i then Flush(f, left, width, text[st.wordStart..i], st, i + 1) else st.(wordStart := i + 1);
    st1.(pen := NewLine(f, left, st1.pen))
  }

  lemma AtNewlineChars(f: Font, left: int, width: int, text: string, i: nat, st: WrapState)
    requires st.wordStart <= i < |text|
    ensures Chars(AtNewline(f, left, width, text, i, st).ops) == Chars(st.ops) + text[st.wordStart..i]
  {
    if st.wordStart < i {
      FlushChars(f, left, width, text[st.wordStart..i], st, i + 1);
    } else {
      assert text[st.wordStart..i] == [];
    }
  }

  function WrappedCorrected(f: Font, left: int, top: int, width: int, text: string): WrapState
  {
    WrapFromCorrected(f, left, width, text, 0, StartState(f, left, top))
  }

  /** The pending word never holds a newline, and is flushed before the text ends. */
  ghost predicate PendingPlain(text: string, i: nat, st: WrapState)
  {
    st.wordStart <= i <= |text| && (st.wordStart < i ==> i < |text|)
    && forall j :: st.wordStart <= j < i ==> text[j] != '\n'
  }

  lemma {:induction false} WrapFromCorrectedChars(f: Font, left: int, width: int, text: string, i: nat, st: WrapState)
    requires PendingPlain(text, i, st)
    ensures Chars(WrapFromCorrected(f, left, width, text, i, st).ops) == Chars(st.ops) + NoNewlines(text[st.wordStart..])
    decreases |text| - i, 1
  {
    if i == |text| {
      assert text[st.wordStart..] == [];
    } else if text[i] == '\n' {
      NewlineStepChars(f, left, width, text, i, st);
    } else if text[i] == ' ' || i == |text| - 1 {
      WordEndStepChars(f, left, width, text, i, st);
    } else {
      WrapFromCorrectedChars(f, left, width, text, i + 1, st);
    }
  }

  lemma {:induction false} NewlineStepChars(f: Font, left: int, width: int, text: string, i: nat, st: WrapState)
    requires PendingPlain(text, i, st) && i < |text| && text[i] == '\n'
    ensures Chars(WrapFromCorrected(f, left, width, text, i, st).ops) == Chars(st.ops) + NoNewlines(text[st.wordStart..])
    decreases |text| - i, 0
  {
    var next := AtNewline(f, left, width, text, i, st);
    calc {
      Chars(WrapFromCorrected(f, left, width, text, i, st).ops);
      { WrapFromCorrectedUnfold(f, left, width, text, i, st); }
      Chars(WrapFromCorrected(f, left, width, text, i + 1, next).ops);
      { assert PendingPlain(text, i + 1, next);
        WrapFromCorrectedChars(f, left, width, text, i + 1, next); }
      Chars(next.ops) + NoNewlines(text[i + 1..]);
      { AtNewlineChars(f, left, width, text, i, st); }
      Chars(st.ops) + text[st.wordStart..i] + NoNewlines(text[i + 1..]);
      { NewlineSplit(text, st.wordStart, i); }
      Chars(st.ops) + NoNewlines(text[st.wordStart..]);
    }
  }

  /** Past a newline, the rest of the text loses only that newline. */
  lemma NewlineSplit(text: string, ws: nat, i: nat)
    requires ws <= i < |text| && text[i] == '\n'
    requires forall j :: ws <= j < i ==> text[j] != '\n'
    ensures NoNewlines(text[ws..]) == text[ws..i] + NoNewlines(text[i + 1..])
  {
    var p := text[ws..i];
    assert text[ws..] == p + ['\n'] + text[i + 1..];
    NoNewlinesAppend(p + ['\n'], text[i + 1..]);
    NoNewlinesAppend(p, ['\n']);
    forall j | 0 <= j < |p|
      ensures p[j] != '\n'
    {
      assert p[j] == text[ws + j];
    }
    NoNewlinesKeeps(p);
    assert NoNewlines(['\n']) == [];
  }

  lemma {:induction false} WordEndStepChars(f: Font, left: int, width: int, text: string, i: nat, st: WrapState)
    requires PendingPlain(text, i, st) && i < |text| && text[i] != '\n' && (text[i] == ' ' || i == |text| - 1)
    ensures Chars(WrapFromCorrected(f, left, width, text, i, st).ops) == Chars(st.ops) + NoNewlines(text[st.wordStart..])
    decreases |text| - i, 0
  {
    var word := text[st.wordStart..i + 1];
    FlushChars(f, left, width, word, st, i + 1);
    WrapFromCorrectedChars(f, left, width, text, i + 1, Flush(f, left, width, word, st, i + 1));
    WordSplit(text, st.wordStart, i);
  }

  /** Past a word's last character, the rest of the text keeps the whole word. */
  lemma WordSplit(text: string, ws: nat, i: nat)
    requires ws <= i < |text| && text[i] != '\n'
    requires forall j :: ws <= j < i ==> text[j] != '\n'
    ensures NoNewlines(text[ws..]) == text[ws..i + 1] + NoNewlines(text[i + 1..])
  {
    var word := text[ws..i + 1];
    assert text[ws..] == word + text[i + 1..];
    NoNewlinesAppend(word, text[i + 1..]);
    forall j | 0 <= j < |word|
      ensures word[j] != '\n'
    {
      assert word[j] == text[ws + j];
    }
    NoNewlinesKeeps(word);
  }

  /**
   * The corrected wrap prints every character of the text except the
   * newlines, in order: whatever the font and the box.
   */
  lemma CorrectedPrintsAllButNewlines(f: Font, left: int, top: int, width: int, text: string)
    ensures Chars(WrappedCorrected(f, left, top, width, text).ops) == NoNewlines(text)
  {
    WrapFromCorrectedChars(f, left, width, text, 0, StartState(f, left, top));
    assert text[0..] == text;
  }

  /** The two loops differ only at newlines: on text without one they lay it out identically. */
  lemma {:induction false} WrapFromAgreesWithoutNewlines(f: Font, left: int, width: int, text: string, i: nat, st: WrapState)
    requires st.wordStart <= i <= |text|
    requires forall j :: i <= j < |text| ==> text[j] != '\n'
    ensures WrapFrom(f, left, width, text, i, st) == WrapFromCorrected(f, left, width, text, i, st)
    decreases |text| - i
  {
    if i < |text| {
      var next := CorrectedStep(f, left, width, text, i, st);
      WrapFromAgreesWithoutNewlines(f, left, width, text, i + 1, next);
    }
  }

  lemma WrappedAgreesWithoutNewlines(f: Font, left: int, top: int, width: int, text: string)
    requires forall j :: 0 <= j < |text| ==> text[j] != '\n'
    ensures Wrapped(f, left, top, width, text) == WrappedCorrected(f, left, top, width, text)
  {
    WrapFromAgreesWithoutNewlines(f, left, width, text, 0, StartState(f, left, top));
  }

  /**
   * A word directly before a newline (as in "hello\nworld") is lost by the
   * loop as written, while the corrected loop prints it.
   */
  lemma WordBeforeNewlineLost(f: Font, left: int, top: int, width: int, w: string, rest: string)
    requires forall j :: 0 <= j < |w| ==> w[j] != ' ' && w[j] != '\n'
    ensures Chars(Wrapped(f, left, top, width, w + ['\n'] + rest).ops) == KeptText(rest, [])
    ensures Chars(WrappedCorrected(f, left, top, width, w + ['\n'] + rest).ops) == w + NoNewlines(rest)
  {
    var tail := ['\n'] + rest;
    assert w + ['\n'] + rest == w + tail;
    WrittenDropsWord(f, left, top, width, w, tail);
    CorrectedKeepsWord(f, left, top, width, w, tail);
    assert NoNewlines(tail) == NoNewlines(rest) by {
      assert tail[0] == '\n' && tail[1..] == rest;
    }
  }

  lemma WrittenDropsWord(f: Font, left: int, top: int, width: int, w: string, tail: string)
    requires forall j :: 0 <= j < |w| ==> w[j] != ' ' && w[j] != '\n'
    requires tail != [] && tail[0] == '\n'
    ensures Chars(Wrapped(f, left, top, width, w + tail).ops) == KeptText(tail[1..], [])
  {
    PrintedText(f, left, top, width, w + tail);
    KeptPlainRun(w, tail, []);
  }

  lemma CorrectedKeepsWord(f: Font, left: int, top: int, width: int, w: string, tail: string)
    requires forall j :: 0 <= j < |w| ==> w[j] != '\n'
    ensures Chars(WrappedCorrected(f, left, top, width, w + tail).ops) == w + NoNewlines(tail)
  {
    CorrectedPrintsAllButNewlines(f, left, top, width, w + tail);
    NoNewlinesAppend(w, tail);
    NoNewlinesKeeps(w);

  }
}
