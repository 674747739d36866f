/**
 * DIY modules: text commands typed into an unmodified client app are
 * intercepted before they reach the mesh and handed to the first registered
 * module that claims them (by its name as the first word, or by its own
 * channel). This module models the shared parsing helpers (stringsMatch,
 * getArg, getDataHash, parseBool), the own-channel name buffer, the module
 * registry and the dispatch loop of interceptSentText.
 */
module DIY {
  import opened Common

  // ---------------------------------------------------------------------
  // stringsMatch
  // ---------------------------------------------------------------------

  predicate CharsMatch(a: char, b: char, caseSensitive: bool)
  {
    if caseSensitive then a == b else ToLower(a) == ToLower(b)
  }

  /** Meaning of `stringsMatch`: same length, and every position matches. */
  predicate Matches(s1: string, s2: string, caseSensitive: bool)
  {
    |s1| == |s2| && forall i :: 0 <= i < |s1| ==> CharsMatch(s1[i], s2[i], caseSensitive)
  }

  /** The C++ loop: lengths first, then every character up to and including the terminator. */
  method StringsMatch(s1: string, s2: string, caseSensitive: bool) returns (r: bool)
    ensures r == Matches(s1, s2, caseSensitive)
  {
    if |s1| != |s2| {
      return false;
    }
    var i := 0;
    while i <= |s1|
      invariant 0 <= i <= |s1| + 1
      invariant forall j :: 0 <= j < i && j < |s1| ==> CharsMatch(s1[j], s2[j], caseSensitive)
    {
      // position |s1| holds the NUL terminator of both strings
      var c1 := if i < |s1| then s1[i] else '\0';
      var c2 := if i < |s2| then s2[i] else '\0';
      if caseSensitive && c1 != c2 {
        return false;
      }
      if !caseSensitive && ToLower(c1) != ToLower(c2) {
        return false;
      }
      i := i + 1;
    }
    return true;
  }

  lemma MatchesReflexive(s: string, caseSensitive: bool)
    ensures Matches(s, s, caseSensitive)
  {
  }

  lemma MatchesSymmetric(s1: string, s2: string, caseSensitive: bool)
    ensures Matches(s1, s2, caseSensitive) == Matches(s2, s1, caseSensitive)
  {
  }

  lemma SensitiveMatchImpliesInsensitive(s1: string, s2: string)
    ensures Matches(s1, s2, true) ==> Matches(s1, s2, false)
  {
  }

  /** A case-sensitive match is plain equality. */
  lemma {:induction false} SensitiveMatchIsEquality(s1: string, s2: string)
    ensures Matches(s1, s2, true) <==> s1 == s2
  {
    if Matches(s1, s2, true) {
      assert forall i :: 0 <= i < |s1| ==> s1[i] == s2[i];
    }
  }

  /** A case-insensitive match is equality after lower-casing both sides. */
  lemma {:induction false} InsensitiveMatchIsLowerEquality(s1: string, s2: string)
    ensures Matches(s1, s2, false) <==> LowerString(s1) == LowerString(s2)
  {
    if LowerString(s1) == LowerString(s2) {
      assert |s1| == |s2|;
      forall i | 0 <= i < |s1|
        ensures CharsMatch(s1[i], s2[i], false)
      {
        assert LowerString(s1)[i] == LowerString(s2)[i];
      }
    }
    if Matches(s1, s2, false) {
      assert forall i :: 0 <= i < |s1| ==> LowerString(s1)[i] == LowerString(s2)[i];
    }
  }

  /** A case-insensitive match against a lower-case word is equality with it after lower-casing. */
  lemma MatchesLowercaseWord(s: string, w: string)
    requires forall i :: 0 <= i < |w| ==> 'a' <= w[i] <= 'z'
    ensures Matches(s, w, false) <==> LowerString(s) == w
  {
    InsensitiveMatchIsLowerEquality(s, w);
    LowerOfLowercase(w);
  }

  /** `parseBool`: "true" in any letter case. */
  function ParseBool(raw: string): (r: bool)
    ensures r <==> LowerString(raw) == "true"
  {
    InsensitiveMatchIsLowerEquality(raw, "true");
    assert LowerString("true") == "true";
    Matches(raw, "true", false)
  }

  // ---------------------------------------------------------------------
  // getArg: space-separated fields of the current text
  // ---------------------------------------------------------------------

  function SpaceCount(c: char): nat { if c == ' ' then 1 else 0 }

  function CountSpaces(s: string): (n: nat)
    ensures n <= |s|
  {
    if s == [] then 0 else CountSpaces(s[..|s| - 1]) + SpaceCount(s[|s| - 1])
  }

  /** What follows the n-th space of `s`; None when `s` has fewer than n spaces. */
  function AfterSpaces(s: string, n: nat): Option<string>
  {
    if n == 0 then Some(s)
    else if s == [] then None
    else if s[0] == ' ' then AfterSpaces(s[1..], n - 1)
    else AfterSpaces(s[1..], n)
  }

  /** Everything before the first space. */
  function FirstWord(s: string): string
  {
    if s == [] || s[0] == ' ' then [] else [s[0]] + FirstWord(s[1..])
  }

  /**
   * Whether getArg takes one of its flagged branches: the text is empty, or
   * it has at least `index` spaces, so field `index` exists.
   */
  predicate ArgFound(text: string, index: nat)
  {
    |text| == 0 || CountSpaces(text) >= index
  }

  /** What `getArg(index, untilEnd)` returns for the text `text`. */
  function Arg(text: string, index: nat, untilEnd: bool): string
  {
    match AfterSpaces(text, index)
    case None => ""
    case Some(rest) => if untilEnd then rest else FirstWord(rest)
  }

  /** Reference split: the fields of `s` between spaces (consecutive spaces give empty fields). */
  function Fields(s: string): (fs: seq<string>)
    ensures |fs| >= 1
  {
    if s == [] then [[]]
    else
      var rest := Fields(s[1..]);
      if s[0] == ' ' then [[]] + rest else [[s[0]] + rest[0]] + rest[1..]
  }

  function JoinWithSpaces(fs: seq<string>): string
    requires |fs| >= 1
  {
    if |fs| == 1 then fs[0] else fs[0] + " " + JoinWithSpaces(fs[1..])
  }

  lemma {:induction false} JoinFields(s: string)
    ensures JoinWithSpaces(Fields(s)) == s
  {
    if s != [] {
      JoinFields(s[1..]);
      var rest := Fields(s[1..]);
      if s[0] == ' ' {
        assert Fields(s)[1..] == rest;
      } else if |rest| > 1 {
        assert Fields(s)[1..] == rest[1..];
        assert JoinWithSpaces(rest) == rest[0] + " " + JoinWithSpaces(rest[1..]);
      }
    }
  }

  lemma {:induction false} FieldsCount(s: string)
    ensures |Fields(s)| == CountSpaces(s) + 1
  {
    if s != [] {
      FieldsCount(s[1..]);
      CountSpacesFront(s);
    }
  }

  /** getArg(i) is the i-th field, and "" past the last one. */
  lemma {:induction false} ArgIsField(s: string, i: nat)
    ensures Arg(s, i, false) == if i < |Fields(s)| then Fields(s)[i] else ""
  {
    if s != [] {
      var rest := Fields(s[1..]);
      if i > 0 {
        if s[0] == ' ' {
          ArgIsField(s[1..], i - 1);
        } else {
          ArgIsField(s[1..], i);
        }
      } else if s[0] != ' ' {
        ArgIsField(s[1..], 0);
      }
    }
  }

  predicate NoSpace(s: string) { forall i :: 0 <= i < |s| ==> s[i] != ' ' }

  lemma {:induction false} NoSpaceCount(s: string)
    requires NoSpace(s)
    ensures CountSpaces(s) == 0
  {
    if s != [] {
      NoSpaceCount(s[..|s| - 1]);
    }
  }

  /** A word followed by a space is field 0, and the fields after it are those of the rest. */
  lemma {:induction false} WordThenRest(w: string, rest: string, n: nat)
    requires NoSpace(w)
    ensures FirstWord(w + " " + rest) == w
    ensures AfterSpaces(w + " " + rest, n + 1) == AfterSpaces(rest, n)
  {
    var s := w + " " + rest;
    NoSpaceCount(w);
    assert s[..|w|] == w;
    FirstWordUpTo(s, |w|);
    AfterSpacesSkip(s, |w|, n + 1);
    assert s[|w|..][1..] == rest;
  }

  /** The command shape "<word> <word> <rest>": the two words are arguments 0 and 1, and the rest is argument 2 up to the end. */
  lemma ArgsOfCommand(w1: string, w2: string, rest: string)
    requires NoSpace(w1) && NoSpace(w2)
    ensures var s := w1 + " " + w2 + " " + rest;
      Arg(s, 0, false) == w1 && Arg(s, 1, false) == w2 && Arg(s, 2, true) == rest
  {
    var s := w1 + " " + w2 + " " + rest;
    assert s == w1 + " " + (w2 + " " + rest);
    WordThenRest(w1, w2 + " " + rest, 0);
    WordThenRest(w1, w2 + " " + rest, 1);
    WordThenRest(w2, rest, 0);
  }

  /** getArg(i, true) with i = 0 is the whole text. */
  lemma ArgZeroUntilEnd(s: string)
    ensures Arg(s, 0, true) == s
  {
  }

  /** A field never contains the delimiter. */
  lemma {:induction false} FirstWordHasNoSpace(s: string)
    ensures CountSpaces(FirstWord(s)) == 0 && FirstWord(s) <= s
  {
    if s != [] && s[0] != ' ' {
      FirstWordHasNoSpace(s[1..]);
      CountSpacesFront([s[0]] + FirstWord(s[1..]));
      assert ([s[0]] + FirstWord(s[1..]))[1..] == FirstWord(s[1..]);
    }
  }

  lemma {:induction false} CountSpacesAppend(a: string, b: string)
    ensures CountSpaces(a + b) == CountSpaces(a) + CountSpaces(b)
  {
    if b != [] {
      assert (a + b)[..|a + b| - 1] == a + b[..|b| - 1];
      CountSpacesAppend(a, b[..|b| - 1]);
    } else {
      assert a + b == a;
    }
  }

  lemma CountSpacesFront(s: string)
    requires s != []
    ensures CountSpaces(s) == SpaceCount(s[0]) + CountSpaces(s[1..])
  {
    assert s == [s[0]] + s[1..];
    CountSpacesAppend([s[0]], s[1..]);
    assert [s[0]][..0] == [];
  }

  lemma CountSpacesSplit(s: string, k: nat)
    requires k <= |s|
    ensures CountSpaces(s) == CountSpaces(s[..k]) + CountSpaces(s[k..])
  {
    assert s == s[..k] + s[k..];
    CountSpacesAppend(s[..k], s[k..]);
  }

  lemma CountSpacesStep(s: string, i: nat)
    requires i < |s|
    ensures CountSpaces(s[..i + 1]) == CountSpaces(s[..i]) + SpaceCount(s[i])
  {
    assert s[..i + 1][..i] == s[..i];
  }

  /** Skipping a prefix with fewer than n spaces. */
  lemma {:induction false} AfterSpacesSkip(s: string, k: nat, n: nat)
    requires k <= |s| && CountSpaces(s[..k]) < n
    ensures AfterSpaces(s, n) == AfterSpaces(s[k..], n - CountSpaces(s[..k]))
  {
    if k > 0 {
      CountSpacesStep(s, k - 1);
      AfterSpacesSkip(s, k - 1, n);
      assert s[k - 1..][1..] == s[k..];
    }
  }

  lemma AfterSpacesShort(s: string, n: nat)
    requires CountSpaces(s) < n
    ensures AfterSpaces(s, n) == None
  {
    assert s[..|s|] == s;
    AfterSpacesSkip(s, |s|, n);
  }

  lemma {:induction false} FirstWordNoSpaces(s: string)
    requires CountSpaces(s) == 0
    ensures FirstWord(s) == s
  {
    if s != [] {
      CountSpacesFront(s);
      FirstWordNoSpaces(s[1..]);
    }
  }

  lemma {:induction false} FirstWordUpTo(s: string, j: nat)
    requires j < |s| && s[j] == ' ' && CountSpaces(s[..j]) == 0
    ensures FirstWord(s) == s[..j]
  {
    if j > 0 {
      CountSpacesFront(s[..j]);
      assert s[..j][1..] == s[1..][..j - 1];
      FirstWordUpTo(s[1..], j - 1);
    }
  }

  /**
   * The scanning loop of getArg over a text shorter than 256 bytes. The
   * `uint8_t` counters are written with their wrap-around (`% 256`) as in
   * the source; for such texts it never changes the answer.
   */
  method ScanArg(text: string, index: u8, untilEnd: bool) returns (arg: string, found: bool)
    requires |text| < 256
    ensures arg == Arg(text, index as nat, untilEnd)
    ensures found == ArgFound(text, index as nat)
  {
    if |text| == 0 {
      return "", true;
    }
    var delimiterCount: int := 0;
    var start: int := 0;
    var end: int := 0;
    var i := 0;
    ghost var atTerminator := false;
    while true
      invariant 0 <= i <= |text|
      invariant delimiterCount == CountSpaces(text[..i])
      invariant 0 <= start <= i
      invariant FieldStart(text, index as nat, delimiterCount, start)
      invariant !untilEnd ==> delimiterCount <= index as int
      decreases |text| - i
    {
      if i == |text| {
        // currentText[i] is the terminator
        assert 0 <= i - 1 < 256;
        end := (i - 1) % 256;
        atTerminator := true;
        assert text[..i] == text;
        break;
      }
      var stop;
      delimiterCount, start, stop, end := ScanCharacter(text, index, untilEnd, i, delimiterCount, start, end);
      if stop {
        break;
      }
      i := i + 1;
    }
    arg, found := CopyArg(text, index, untilEnd, i, delimiterCount, start, end, atTerminator);
  }

  /**
   * The end of getArg: when the scan saw at least `index` delimiters, the
   * `uint8_t` length `end - start + 1` of text from `start` is the argument;
   * otherwise the argument is empty. `found` tells which of the two
   * branches ran.
   */
  method CopyArg(text: string, index: u8, untilEnd: bool, i: nat, delimiterCount: int, start: int, end: int, ghost atTerminator: bool)
    returns (arg: string, found: bool)
    requires 0 < |text| < 256 && 0 <= start <= i <= |text|
    requires FieldStart(text, index as nat, delimiterCount, start)
    requires atTerminator ==>
               i == |text| && end == |text| - 1 && delimiterCount == CountSpaces(text)
               && (!untilEnd ==> delimiterCount <= index as int)
    requires !atTerminator ==>
               i < |text| && text[i] == ' ' && end == (if i == 0 then 255 else i - 1)
               && !untilEnd && delimiterCount == index as int + 1 && CountSpaces(text[..i]) == index as int
    ensures arg == Arg(text, index as nat, untilEnd)
    ensures found <==> CountSpaces(text) >= index as int
  {
    if !atTerminator {
      CountSpacesStep(text, i);
      CountSpacesSplit(text, i + 1);
    }
    found := delimiterCount >= index as int;
    if found {
      var substringLength := ((end - start) + 1) % 256;
      if atTerminator {
        assert substringLength == |text| - start;
        ArgToEnd(text, index as nat, untilEnd, start);
      } else {
        assert substringLength == i - start;
        ArgToSpace(text, index as nat, start, i);
      }
      arg := text[start..start + substringLength];
    } else {
      AfterSpacesShort(text, index as nat);
      arg := "";
    }
  }

  /**
   * One character of getArg's scan: a space counts as a delimiter, recording
   * the start of field `index` when the count reaches it, and stopping the
   * scan at the space after that field unless the argument runs to the end.
   */
  method ScanCharacter(text: string, index: u8, untilEnd: bool, i: nat, delimiterCount: int, start: int, end: int)
    returns (delimiterCount': int, start': int, stop: bool, end': int)
    requires i < |text| < 256
    requires delimiterCount == CountSpaces(text[..i]) && 0 <= start <= i
    requires FieldStart(text, index as nat, delimiterCount, start)
    requires !untilEnd ==> delimiterCount <= index as int
    ensures delimiterCount' == CountSpaces(text[..i + 1]) && 0 <= start' <= i + 1
    ensures FieldStart(text, index as nat, delimiterCount', start')
    ensures stop <==> text[i] == ' ' && delimiterCount' == index as int + 1 && !untilEnd
    ensures stop ==> end' == (if i == 0 then 255 else i - 1) && start' == start && CountSpaces(text[..i]) == index as int
    ensures !stop ==> end' == end && (!untilEnd ==> delimiterCount' <= index as int)
  {
    CountSpacesStep(text, i);
    delimiterCount', start', stop, end' := delimiterCount, start, false, end;
    if text[i] == ' ' {
      var next := delimiterCount + 1;
      assert next < 256 && (i + 1) < 256;
      FieldStartStep(text, index as nat, delimiterCount, start, i);
      delimiterCount' := next % 256;
      assert delimiterCount' == next;
      if delimiterCount' == index as int {
        start' := (i + 1) % 256;
      }
      if delimiterCount' == index as int + 1 && !untilEnd {
        end' := (i - 1) % 256;
        stop := true;
      }
    }
  }

  /** The scan's record of where field `index` starts, once `count` spaces have been seen. */
  predicate FieldStart(text: string, index: nat, count: int, start: int)
  {
    if index > 0 && count >= index
    then 0 <= start <= |text| && CountSpaces(text[..start]) == index && AfterSpaces(text, index) == Some(text[start..])
    else start == 0
  }

  /** A space at i moves the scan's count on by one; reaching `index` records the field's start. */
  lemma FieldStartStep(text: string, index: nat, count: int, start: int, i: nat)
    requires i < |text| && text[i] == ' ' && 0 <= count == CountSpaces(text[..i])
    requires FieldStart(text, index, count, start)
    requires CountSpaces(text[..i + 1]) == count + 1
    ensures FieldStart(text, index, count + 1, if count + 1 == index then i + 1 else start)
  {
    if count + 1 == index {
      AfterSpacesSkip(text, i, index);
      assert text[i..][1..] == text[i + 1..];
    }
  }

  /** The scan reached the terminator: the argument runs to the end of the text. */
  lemma ArgToEnd(text: string, index: nat, untilEnd: bool, start: nat)
    requires start <= |text| && CountSpaces(text) >= index
    requires FieldStart(text, index, CountSpaces(text), start)
    requires !untilEnd ==> CountSpaces(text) <= index
    ensures Arg(text, index, untilEnd) == text[start..]
  {
    if !untilEnd {
      CountSpacesSplit(text, start);
      FirstWordNoSpaces(text[start..]);
    }
  }

  /** The scan stopped at the space after field `index`. */
  lemma ArgToSpace(text: string, index: nat, start: nat, i: nat)
    requires start <= i < |text| && text[i] == ' ' && CountSpaces(text[..i]) == index
    requires FieldStart(text, index, index + 1, start)
    ensures Arg(text, index, false) == text[start..i]
  {
    assert text[..i][start..] == text[start..][..i - start];
    assert text[..i][..start] == text[..start];
    CountSpacesSplit(text[..i], start);
    FirstWordUpTo(text[start..], i - start);
  }

  // ---------------------------------------------------------------------
  // getDataHash
  // ---------------------------------------------------------------------

  function ByteSum(data: seq<u8>): nat
  {
    if data == [] then 0 else ByteSum(data[..|data| - 1]) + data[|data| - 1] as nat
  }

  /** Sum of all bytes, wrapping at 2^32 like the `uint32_t` accumulator. */
  method GetDataHash(data: seq<u8>) returns (hash: u32)
    ensures hash as int == ByteSum(data) % TwoTo32
  {
    hash := 0;
    var i := 0;
    while i < |data|
      invariant 0 <= i <= |data|
      invariant hash as int == ByteSum(data[..i]) % TwoTo32
    {
      assert data[..i + 1][..i] == data[..i];
      ModAddStep(ByteSum(data[..i]), data[i] as int);
      hash := ((hash as int + data[i] as int) % TwoTo32) as u32;
      i := i + 1;
    }
    assert data[..i] == data;
  }

  /** The hash as a value: the byte sum modulo 2^32. */
  function DataHash(data: seq<u8>): (h: u32)
    ensures h as int == ByteSum(data) % TwoTo32
  {
    (ByteSum(data) % TwoTo32) as u32
  }

  /** Changing one byte always changes the hash. */
  lemma SingleByteChangeDetected(data: seq<u8>, i: nat, v: u8)
    requires i < |data| && v != data[i]
    ensures DataHash(data[i := v]) != DataHash(data)
  {
    var d' := data[i := v];
    assert data == data[..i] + [data[i]] + data[i + 1..];
    assert d' == data[..i] + [v] + data[i + 1..];
    ByteSumAppend(data[..i] + [data[i]], data[i + 1..]);
    ByteSumAppend(data[..i], [data[i]]);
    ByteSumAppend(data[..i] + [v], data[i + 1..]);
    ByteSumAppend(data[..i], [v]);
    assert [v][..0] == [] && [data[i]][..0] == [];
    var diff := ByteSum(d') - ByteSum(data);
    assert diff == v as int - data[i] as int;
    if DataHash(d') == DataHash(data) {
      ModEqual(ByteSum(d'), ByteSum(data));
    }
  }

  lemma ModEqual(a: nat, b: nat)
    requires a % TwoTo32 == b % TwoTo32 && -256 < a - b < 256
    ensures a == b
  {
    var qa := a / TwoTo32;
    var qb := b / TwoTo32;
    assert a == qa * TwoTo32 + a % TwoTo32;
    assert b == qb * TwoTo32 + b % TwoTo32;
    assert a - b == (qa - qb) * TwoTo32;
  }

  /** A saved file: the data bytes, then the hash as four bytes, least significant first. */
  function SaveImage(data: seq<u8>): (file: seq<u8>)
    ensures |file| == |data| + 4 && file[..|data|] == data
  {
    var h := DataHash(data) as int;
    data + [(h % 0x100) as u8, (h / 0x100 % 0x100) as u8, (h / 0x1_0000 % 0x100) as u8, (h / 0x100_0000) as u8]
  }

  function SavedHash(b: seq<u8>): int
    requires |b| == 4
  {
    b[0] as int + b[1] as int * 0x100 + b[2] as int * 0x1_0000 + b[3] as int * 0x100_0000
  }

  /** loadData's check: the data is accepted only when the stored hash matches its byte sum. */
  function LoadImage(file: seq<u8>, size: nat): (r: Option<seq<u8>>)
    ensures r.Some? ==> size + 4 <= |file| && r.value == file[..size]
  {
    if |file| < size + 4 then None
    else if SavedHash(file[size..size + 4]) == DataHash(file[..size]) as int then Some(file[..size])
    else None
  }

  /** Whatever is saved is loaded back unchanged. */
  lemma LoadSaved(data: seq<u8>)
    ensures LoadImage(SaveImage(data), |data|) == Some(data)
  {
    var file := SaveImage(data);
    var h := DataHash(data) as int;
    var b := [(h % 0x100) as u8, (h / 0x100 % 0x100) as u8, (h / 0x1_0000 % 0x100) as u8, (h / 0x100_0000) as u8];
    assert file[|data|..|data| + 4] == b;
    LittleEndianBytes(h);
    assert SavedHash(b) == h;
  }

  /** The four bytes SaveImage writes put the hash back together. */
  lemma LittleEndianBytes(h: int)
    requires 0 <= h < TwoTo32
    ensures h % 0x100 + (h / 0x100 % 0x100) * 0x100 + (h / 0x1_0000 % 0x100) * 0x1_0000 + (h / 0x100_0000) * 0x100_0000 == h
  {
    var q1 := h / 0x100;
    var q2 := q1 / 0x100;
    var q3 := q2 / 0x100;
    assert h == q1 * 0x100 + h % 0x100;
    assert q1 == q2 * 0x100 + q1 % 0x100;
    assert q2 == q3 * 0x100 + q2 % 0x100;
    assert h / 0x1_0000 == q2;
    assert h / 0x100_0000 == q3;
    assert q3 < 0x100;
  }

  /** A saved file with one data byte altered is rejected. */
  lemma CorruptByteRejected(data: seq<u8>, i: nat, v: u8)
    requires i < |data| && v != data[i]
    ensures LoadImage(SaveImage(data)[i := v], |data|) == None
  {
    var file := SaveImage(data);
    var bad := file[i := v];
    LoadSaved(data);
    assert bad[..|data|] == data[i := v];
    assert bad[|data|..|data| + 4] == file[|data|..|data| + 4];
    SingleByteChangeDetected(data, i, v);
  }

  lemma ModAddStep(a: nat, d: nat)
    ensures (a % TwoTo32 + d) % TwoTo32 == (a + d) % TwoTo32
  {
    var q := a / TwoTo32;
    assert a == q * TwoTo32 + a % TwoTo32;
    assert a + d == q * TwoTo32 + (a % TwoTo32 + d);
  }

  lemma {:induction false} ByteSumAppend(a: seq<u8>, b: seq<u8>)
    ensures ByteSum(a + b) == ByteSum(a) + ByteSum(b)
  {
    if b != [] {
      assert (a + b)[..|a + b| - 1] == a + b[..|b| - 1];
      ByteSumAppend(a, b[..|b| - 1]);
    } else {
      assert a + b == a;
    }
  }

  /** The hash does not depend on the order of the bytes. */
  lemma {:induction false} ByteSumPermutation(a: seq<u8>, b: seq<u8>)
    requires multiset(a) == multiset(b)
    ensures ByteSum(a) == ByteSum(b)
  {
    if a != [] {
      var x := a[|a| - 1];
      assert a == a[..|a| - 1] + [x];
      assert x in multiset(b);
      var j :| 0 <= j < |b| && b[j] == x;
      var b' := b[..j] + b[j + 1..];
      assert b == b[..j] + [x] + b[j + 1..];
      assert multiset(b) == multiset(b[..j]) + multiset{x} + multiset(b[j + 1..]);
      assert multiset(a) == multiset(a[..|a| - 1]) + multiset{x};
      assert multiset(b') == multiset(b[..j]) + multiset(b[j + 1..]);
      assert multiset(a[..|a| - 1]) == multiset(a) - multiset{x};
      assert multiset(b') == multiset(b) - multiset{x};
      ByteSumPermutation(a[..|a| - 1], b');
      ByteSumAppend(b[..j] + [x], b[j + 1..]);
      ByteSumAppend(b[..j], [x]);
      ByteSumAppend(b[..j], b[j + 1..]);
      assert ByteSum([x]) == x as nat by {
        assert [x][..0] == [];
      }
    } else {
      assert |b| == |multiset(b)| == 0;
    }
  }

  // ---------------------------------------------------------------------
  // Module registry and interceptSentText
  // ---------------------------------------------------------------------

  datatype ControlStyle = ByName | OwnChannel
  datatype RxSource = RxSrcLocal | RxSrcRadio | RxSrcUser
  datatype PortNum = TextMessageApp | RoutingApp | OtherApp(number: nat)
  datatype ProcessMessage = Continue | Stop

  datatype Packet = Packet(id: nat, channel: nat, portnum: PortNum, payload: seq<char>)

  /** A registered module: its name, its control style and its 12-byte own-channel name buffer. */
  datatype ModuleEntry = ModuleEntry(name: string, style: ControlStyle, ownChannelName: seq<char>)

  const OwnChannelNameSize: nat := 12

  function Nuls(n: nat): (r: seq<char>)
    ensures |r| == n && forall i :: 0 <= i < n ==> r[i] == '\0'
  {
    seq(n, _ => '\0')
  }

  /** `char ownChannelName[12]{0}` after `strncpy(ownChannelName, name, 11)`. */
  function OwnChannelBuffer(name: string): (buf: seq<char>)
    ensures |buf| == OwnChannelNameSize && buf[OwnChannelNameSize - 1] == '\0'
    ensures var n := CString(name); CString(buf) == if |n| <= 11 then n else n[..11]
  {
    var n := CString(name);
    var k := if |n| <= 11 then |n| else 11;
    var buf := n[..k] + Nuls(12 - k);
    assert buf == n[..k] + ['\0'] + Nuls(11 - k);
    CStringOfTerminated(n[..k], Nuls(11 - k));
    buf
  }

  /** The DIYModule constructor's bookkeeping for a new module. */
  function NewModule(name: string, style: ControlStyle): (m: ModuleEntry)
    ensures m.name == name && m.style == style && |m.ownChannelName| == OwnChannelNameSize
    ensures style == ByName ==> CString(m.ownChannelName) == ""
    ensures style == OwnChannel ==>
      (|CString(m.ownChannelName)| <= 11 && CString(m.ownChannelName) <= CString(name))
  {
    var tmp := ['\0'] + Nuls(11);
    assert CString(tmp) == [];
    ModuleEntry(name, style, if style == OwnChannel then OwnChannelBuffer(name) else Nuls(12))
  }

  /** `isFromChannel`: compares the two names as C strings. */
  predicate IsFromChannel(channelName: seq<char>, packetChannelName: seq<char>)
  {
    CString(channelName) == CString(packetChannelName)
  }

  /** `isFromPublicChannel`: the channel has the empty name. */
  predicate IsFromPublicChannel(packetChannelName: seq<char>)
  {
    IsFromChannel("", packetChannelName)
  }

  /** Whether module `m` claims the text `text` sent on the channel called `packetChannelName`. */
  predicate Wants(m: ModuleEntry, text: string, packetChannelName: string)
  {
    if m.style == ByName then Matches(Arg(text, 0, false), m.name, false)
    else IsFromChannel(m.ownChannelName, packetChannelName)
  }

  /** The first module, in registration order from `from` on, that claims the text. */
  function FirstWanting(ms: seq<ModuleEntry>, text: string, packetChannelName: string, from: nat): (r: Option<nat>)
    requires from <= |ms|
    ensures r.Some? ==>
      (from <= r.value < |ms| && Wants(ms[r.value], text, packetChannelName)
       && forall j :: from <= j < r.value ==> !Wants(ms[j], text, packetChannelName))
    ensures r.None? ==> forall j :: from <= j < |ms| ==> !Wants(ms[j], text, packetChannelName)
    decreases |ms| - from
  {
    if from == |ms| then None
    else if Wants(ms[from], text, packetChannelName) then Some(from)
    else FirstWanting(ms, text, packetChannelName, from + 1)
  }

  datatype InterceptEffect =
    | HandleSentText(moduleIndex: nat)
    | CancelSending(packetId: nat)
    | QueueStatusToPhone(packetId: nat)
    | SpoofAck(packetId: nat)

  /** Heap buffers handed out by getArg: how many are live, and whether `argMemoryAllocated` is set. */
  datatype ArgMemory = ArgMemory(live: nat, flagged: bool)

  /** Every live buffer is the one the flag says is allocated. */
  predicate Tracked(m: ArgMemory) { m.live == (if m.flagged then 1 else 0) }

  /** The `delete[] requestedArg` guarded by the flag (start of getArg, end of interceptSentText). */
  function ReleaseArg(m: ArgMemory): (r: ArgMemory)
    ensures !r.flagged
    ensures Tracked(m) ==> r.live == 0
  {
    if m.flagged then ArgMemory(if m.live > 0 then m.live - 1 else 0, false) else m
  }

  /**
   * getArg's bookkeeping as written: every call allocates one buffer, but
   * only the branches that found the field set the flag (see ArgFound).
   */
  function GetArgMemoryAsWritten(m: ArgMemory, flagged: bool): (r: ArgMemory)
  {
    var freed := ReleaseArg(m);
    ArgMemory(freed.live + 1, flagged)
  }

  /** getArg's bookkeeping with the flag set on every path that allocates. */
  function GetArgMemory(m: ArgMemory): (r: ArgMemory)
    ensures r.flagged
    ensures Tracked(m) ==> Tracked(r)
  {
    var freed := ReleaseArg(m);
    ArgMemory(freed.live + 1, true)
  }

  /**
   * As written, one getArg past the last field (e.g. getArg(1) on "save")
   * leaves a buffer that the release at the end of interceptSentText misses.
   */
  lemma ArgLeakAsWritten()
    ensures !ArgFound("save", 1)
    ensures var afterArgs := GetArgMemoryAsWritten(GetArgMemoryAsWritten(ArgMemory(0, false), ArgFound("save", 0)), ArgFound("save", 1));
      ReleaseArg(afterArgs).live == 1
  {
    assert NoSpace("save");
    NoSpaceCount("save");
  }

  lemma {:induction false} ArgLeakAccumulates(m: ArgMemory, n: nat)
    requires !m.flagged
    ensures RepeatOutOfRangeAsWritten(m, n).live == m.live + n
    ensures !RepeatOutOfRangeAsWritten(m, n).flagged
  {
    if n > 0 {
      ArgLeakAccumulates(m, n - 1);
    }
  }

  function RepeatOutOfRangeAsWritten(m: ArgMemory, n: nat): ArgMemory
  {
    if n == 0 then m else GetArgMemoryAsWritten(RepeatOutOfRangeAsWritten(m, n - 1), false)
  }

  /** The static state of DIYModule: the registry and the buffers of the current interception. */
  class DIYContext {
    var modules: seq<ModuleEntry>
    var currentText: string
    var requestedArg: string
    var argMemoryAllocated: bool
    var liveArgBuffers: nat
    var effects: seq<InterceptEffect>

    constructor ()
      ensures modules == [] && currentText == "" && requestedArg == ""
      ensures !argMemoryAllocated && liveArgBuffers == 0 && effects == []
    {
      modules := [];
      currentText := "";
      requestedArg := "";
      argMemoryAllocated := false;
      liveArgBuffers := 0;
      effects := [];
    }

    function Memory(): ArgMemory
      reads this
    {
      ArgMemory(liveArgBuffers, argMemoryAllocated)
    }

    /** The DIYModule constructor: push the new module onto the registry. */
    method Register(name: string, style: ControlStyle)
      modifies this`modules
      ensures modules == old(modules) + [NewModule(name, style)]
    {
      modules := modules + [NewModule(name, style)];
    }

    /** getArg on the current text; the returned text is also kept in requestedArg. */
    method GetArg(index: u8, untilEnd: bool) returns (arg: string)
      requires |currentText| < 256
      modifies this`requestedArg, this`argMemoryAllocated, this`liveArgBuffers
      ensures arg == Arg(currentText, index as nat, untilEnd) && requestedArg == arg
      ensures Memory() == GetArgMemoryAsWritten(old(Memory()), ArgFound(currentText, index as nat))
    {
      if argMemoryAllocated {
        liveArgBuffers := if liveArgBuffers > 0 then liveArgBuffers - 1 else 0;
        argMemoryAllocated := false;
      }
      var found;
      arg, found := ScanArg(currentText, index, untilEnd);
      requestedArg := arg;
      liveArgBuffers := liveArgBuffers + 1;
      argMemoryAllocated := found;
    }

    /** The test interceptSentText applies to one registered module; a by-name test reads argument 0. */
    method ModuleWantsText(cm: ModuleEntry, packetChannelName: string) returns (wants: bool)
      requires |currentText| < 256
      modifies this`requestedArg, this`argMemoryAllocated, this`liveArgBuffers
      ensures wants == Wants(cm, currentText, packetChannelName)
      ensures Tracked(old(Memory())) ==> Tracked(Memory())
    {
      wants := false;
      if cm.style == ByName {
        var command := GetArg(0, false);
        wants := StringsMatch(command, cm.name, false);
      } else if cm.style == OwnChannel && CString(cm.ownChannelName) == CString(packetChannelName) {
        wants := true;
      }
    }

    /**
     * interceptSentText: only text the user sent on the text port is examined;
     * the first module in registration order that claims it takes it, and the
     * result is Stop exactly when some module took it.
     *
     * The chosen module's handleSentText is that module's own code; what its
     * getArg calls do to the bookkeeping is the parameter `handled`, applied
     * to the memory it starts from (`atHandler`), before the final free.
     */
    method InterceptSentText(mp: Packet, src: RxSource, packetChannelName: string, handled: ArgMemory -> ArgMemory)
      returns (r: ProcessMessage, handler: Option<nat>, ghost atHandler: ArgMemory)
      requires |CString(mp.payload)| < 256
      modifies this`currentText, this`requestedArg, this`argMemoryAllocated, this`liveArgBuffers, this`effects
      ensures src != RxSrcUser || mp.portnum != TextMessageApp ==>
        r == Continue && handler == None && effects == old(effects) && Memory() == old(Memory())
      ensures src == RxSrcUser && mp.portnum == TextMessageApp ==>
        && currentText == CString(mp.payload)
        && handler == FirstWanting(modules, currentText, packetChannelName, 0)
        && (r == Stop <==> handler.Some?)
        && effects == old(effects) + InterceptEffects(handler, mp.id)
        && !argMemoryAllocated
        && (handler.None? ==> (Tracked(old(Memory())) ==> liveArgBuffers == 0))
        && (handler.Some? ==> Memory() == ReleaseArg(handled(atHandler)))
        && (Tracked(old(Memory())) ==> Tracked(atHandler))
    {
      atHandler := Memory();
      if src != RxSrcUser {
        return Continue, None, atHandler;
      }
      if mp.portnum != TextMessageApp {
        return Continue, None, atHandler;
      }
      currentText := CString(mp.payload);
      var intercepted := false;
      handler := None;
      var i := 0;
      while i < |modules|
        invariant 0 <= i <= |modules|
        invariant currentText == CString(mp.payload) && effects == old(effects)
        invariant forall j :: 0 <= j < i ==> !Wants(modules[j], currentText, packetChannelName)
        invariant !intercepted && handler == None
        invariant Tracked(old(Memory())) ==> Tracked(Memory())
        invariant atHandler == old(Memory())
      {
        var moduleWantsText := ModuleWantsText(modules[i], packetChannelName);
        if moduleWantsText {
          atHandler := Memory();
          var m := handled(Memory());
          liveArgBuffers, argMemoryAllocated := m.live, m.flagged;
          effects := effects + [HandleSentText(i), CancelSending(mp.id), QueueStatusToPhone(mp.id)];
          intercepted := true;
          handler := Some(i);
          break;
        }
        i := i + 1;
      }
      assert handler == FirstWanting(modules, currentText, packetChannelName, 0) by {
        if handler.None? {
          FirstNoneWhenNoneWant(modules, currentText, packetChannelName);
        } else {
          FirstIsLeast(modules, currentText, packetChannelName, handler.value);
        }
      }
      if argMemoryAllocated {
        liveArgBuffers := if liveArgBuffers > 0 then liveArgBuffers - 1 else 0;
        argMemoryAllocated := false;
      }
      if intercepted {
        effects := effects + [SpoofAck(mp.id)];
      }
      r := if intercepted then Stop else Continue;
    }
  }

  function InterceptEffects(handler: Option<nat>, id: nat): seq<InterceptEffect>
  {
    match handler
    case None => []
    case Some(i) => [HandleSentText(i), CancelSending(id), QueueStatusToPhone(id), SpoofAck(id)]
  }

  lemma FirstNoneWhenNoneWant(ms: seq<ModuleEntry>, text: string, ch: string)
    requires forall j :: 0 <= j < |ms| ==> !Wants(ms[j], text, ch)
    ensures FirstWanting(ms, text, ch, 0) == None
  {
  }

  lemma FirstIsLeast(ms: seq<ModuleEntry>, text: string, ch: string, i: nat)
    requires i < |ms| && Wants(ms[i], text, ch)
    requires forall j :: 0 <= j < i ==> !Wants(ms[j], text, ch)
    ensures FirstWanting(ms, text, ch, 0) == Some(i)
  {
  }
}
