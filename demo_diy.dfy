/**
 * The demo DIY module: listens on its own channel called "Demo" and answers
 * the commands help, save number <int>, save text <text> and load, keeping
 * a number and a 20-byte text that it saves to flash.
 */
module DemoDIY {
  import opened Common
  import opened DIY

  const Int32Min: int := -0x8000_0000
  const Int32Max: int := 0x7FFF_FFFF
  const ExampleTextSize: nat := 20

  /** The `DemoData` struct: an `int32_t` and a `char[20]`. */
  datatype DemoData = DemoData(exampleNumber: int, exampleText: seq<char>)

  predicate ValidData(d: DemoData)
  {
    Int32Min <= d.exampleNumber <= Int32Max && |d.exampleText| == ExampleTextSize
  }

  /** The struct's default member initialisers: 123 and "Not Set!" padded with NULs. */
  function DefaultData(): (d: DemoData)
    ensures ValidData(d) && d.exampleNumber == 123
    ensures CString(d.exampleText) == "Not Set!"
  {
    CStringOfTerminated("Not Set!", Nuls(11));
    DemoData(123, "Not Set!" + ['\0'] + Nuls(11))
  }

  // ---------------------------------------------------------------------
  // atoi
  // ---------------------------------------------------------------------

  predicate IsSpace(c: char) { c == ' ' || c == '\t' || c == '\n' || c as int == 0x0B || c as int == 0x0C || c == '\r' }
  predicate IsDigit(c: char) { '0' <= c <= '9' }

  /** The text after its leading white space: what is dropped is all white space, and what is left does not start with any. */
  function SkipSpaces(s: string): (r: string)
    ensures |r| <= |s| && r == s[|s| - |r|..]
    ensures forall i :: 0 <= i < |s| - |r| ==> IsSpace(s[i])
    ensures r != [] ==> !IsSpace(r[0])
  {
    if s != [] && IsSpace(s[0]) then SkipSpaces(s[1..]) else s
  }

  /** The longest run of digits that starts the text. */
  function LeadingDigits(s: string): (r: string)
    ensures r <= s && forall i :: 0 <= i < |r| ==> IsDigit(r[i])
    ensures |r| < |s| ==> !IsDigit(s[|r|])
  {
    if s != [] && IsDigit(s[0]) then [s[0]] + LeadingDigits(s[1..]) else []
  }

  function Clamp32(v: int): (r: int)
    ensures Int32Min <= r <= Int32Max
    ensures Int32Min <= v <= Int32Max ==> r == v
  {
    if v < Int32Min then Int32Min else if v > Int32Max then Int32Max else v
  }

  /**
   * `atoi` as the C library computes it through `strtol` on a 32-bit target:
   * leading white space, an optional sign, then the longest run of digits;
   * a value out of range saturates.
   */
  function Atoi(s: string): (r: int)
    ensures Int32Min <= r <= Int32Max
  {
    var t := SkipSpaces(s);
    var negative := t != [] && t[0] == '-';
    var body := if t != [] && (t[0] == '-' || t[0] == '+') then t[1..] else t;
    var magnitude: int := DigitsValue(LeadingDigits(body));
    Clamp32(if negative then -magnitude else magnitude)
  }

  lemma {:induction false} LeadingDigitsAll(s: string)
    requires forall i :: 0 <= i < |s| ==> IsDigit(s[i])
    ensures LeadingDigits(s) == s
  {
    if s != [] {
      LeadingDigitsAll(s[1..]);
    }
  }

  /** A number printed in decimal reads back as the same number. */
  lemma AtoiOfDecimal(n: int)
    requires Int32Min <= n <= Int32Max
    ensures Atoi(IntToString(n)) == n
  {
    var m := if n < 0 then -n else n;
    var digits := NatToString(m);
    DigitsValueOfNat(m);
    if n < 0 {
      assert IntToString(n) == "-" + digits;
      AtoiOfNegatedDigits(digits, m);
    } else {
      assert IntToString(n) == digits;
      AtoiOfDigits(digits, m);
    }
  }

  /** A run of digits: atoi reads its value. */
  lemma AtoiOfDigits(digits: string, v: int)
    requires digits != [] && forall i :: 0 <= i < |digits| ==> '0' <= digits[i] <= '9'
    requires v == DigitsValue(digits)
    ensures Atoi(digits) == Clamp32(v)
  {
    LeadingDigitsAll(digits);
    assert !IsSpace(digits[0]) && digits[0] != '-' && digits[0] != '+';
    assert SkipSpaces(digits) == digits;
  }

  /** A minus sign and a run of digits: atoi reads the run's value negated. */
  lemma AtoiOfNegatedDigits(digits: string, v: int)
    requires digits != [] && forall i :: 0 <= i < |digits| ==> '0' <= digits[i] <= '9'
    requires v == DigitsValue(digits)
    ensures Atoi("-" + digits) == Clamp32(-v)
  {
    LeadingDigitsAll(digits);
    var s := "-" + digits;
    assert s[0] == '-' && s[1..] == digits;
    assert SkipSpaces(s) == s;
  }

  // ---------------------------------------------------------------------
  // Commands
  // ---------------------------------------------------------------------

  datatype DemoCommand =
    | Help
    | SaveNumber(numAsText: string)
    | SaveText(text: string)
    | UnknownSaveOption
    | Load
    | UnknownCommand

  /**
   * handleSentText's decision: the command word is matched ignoring case,
   * the save option ("number" or "text") with case.
   */
  function Classify(text: string): (c: DemoCommand)
    ensures var command := LowerString(Arg(text, 0, false));
      && (c == Help <==> command == "help")
      && (c.SaveNumber? || c.SaveText? || c == UnknownSaveOption <==> command == "save")
      && (c.SaveNumber? <==> command == "save" && Arg(text, 1, false) == "number")
      && (c.SaveText? <==> command == "save" && Arg(text, 1, false) == "text")
      && (c == Load <==> command == "load")
    ensures c.SaveNumber? ==> c.numAsText == Arg(text, 2, false)
    ensures c.SaveText? ==> c.text == Arg(text, 2, true)
  {
    var command := Arg(text, 0, false);
    MatchesLowercaseWord(command, "help");
    MatchesLowercaseWord(command, "save");
    MatchesLowercaseWord(command, "load");
    if Matches(command, "help", false) then Help
    else if Matches(command, "save", false) then
      var what := Arg(text, 1, false);
      SensitiveMatchIsEquality(what, "number");
      SensitiveMatchIsEquality(what, "text");
      if Matches(what, "number", true) then SaveNumber(Arg(text, 2, false))
      else if Matches(what, "text", true) then SaveText(Arg(text, 2, true))
      else UnknownSaveOption
    else if Matches(command, "load", false) then Load
    else UnknownCommand
  }

  /** "save" in any letter case followed by "text": everything after the option is the text, spaces included. */
  lemma SaveTextAnyCase(save: string, text: string)
    requires LowerString(save) == "save"
    ensures Classify(save + " text " + text) == SaveText(text)
  {
    assert NoSpace(save) by {
      forall i | 0 <= i < |save| ensures save[i] != ' ' {
        assert LowerString(save)[i] == ToLower(save[i]);
      }
    }
    assert save + " text " + text == save + " " + "text" + " " + text;
    ArgsOfCommand(save, "text", text);
  }

  /** The save option is case sensitive: "TEXT" is not understood. */
  lemma SaveOptionIsCaseSensitive(save: string, text: string)
    requires LowerString(save) == "save"
    ensures Classify(save + " TEXT " + text) == UnknownSaveOption
  {
    assert NoSpace(save) by {
      forall i | 0 <= i < |save| ensures save[i] != ' ' {
        assert LowerString(save)[i] == ToLower(save[i]);
      }
    }
    assert save + " TEXT " + text == save + " " + "TEXT" + " " + text;
    ArgsOfCommand(save, "TEXT", text);
  }

  /**
   * Whether the last getArg of handleSentText asks for a field the text does
   * not have: a "save" without an option, or an option without its value.
   * getArg then allocates a buffer without setting its flag.
   */
  predicate LeavesUntrackedArg(text: string)
  {
    var c := Classify(text);
    && (c.SaveNumber? || c.SaveText? || c == UnknownSaveOption)
    && !ArgFound(text, if c.SaveNumber? || c.SaveText? then 2 else 1)
  }

  /**
   * handleSentText's getArg bookkeeping from memory `m`, in the order it
   * calls getArg: argument 0, argument 1 for "save", and argument 2 after
   * the "number" or "text" option.
   */
  function DemoArgMemory(text: string, m: ArgMemory): ArgMemory
  {
    var c := Classify(text);
    var m0 := GetArgMemoryAsWritten(m, ArgFound(text, 0));
    if c.SaveNumber? || c.SaveText? || c == UnknownSaveOption then
      var m1 := GetArgMemoryAsWritten(m0, ArgFound(text, 1));
      if c.SaveNumber? || c.SaveText? then GetArgMemoryAsWritten(m1, ArgFound(text, 2)) else m1
    else m0
  }

  /** From tracked memory one buffer is live afterwards, and it is flagged unless the last field asked for is missing. */
  lemma DemoArgMemoryFromTracked(text: string, m: ArgMemory)
    requires Tracked(m)
    ensures DemoArgMemory(text, m) == ArgMemory(1, !LeavesUntrackedArg(text))
  {
    if !ArgFound(text, 1) {
      AfterSpacesShort(text, 1);
    }
  }

  /**
   * With the demo as the handler of interceptSentText, the final free
   * releases everything exactly when the text does not leave an untracked
   * buffer; a bare "save" leaves one buffer live.
   */
  lemma InterceptFreesUnlessUntracked(text: string, m: ArgMemory)
    requires Tracked(m)
    ensures ReleaseArg(DemoArgMemory(text, m)).live == (if LeavesUntrackedArg(text) then 1 else 0)
    ensures ReleaseArg(DemoArgMemory("save", m)).live == 1
  {
    DemoArgMemoryFromTracked(text, m);
    DemoArgMemoryFromTracked("save", m);
    BareSaveLeavesUntrackedArg();
  }

  /** A bare "save" leaves getArg(1)'s buffer untracked. */
  lemma BareSaveLeavesUntrackedArg()
    ensures LeavesUntrackedArg("save")
  {
    assert NoSpace("save");
    NoSpaceCount("save");
    FirstWordNoSpaces("save");
    AfterSpacesShort("save", 1);
    assert LowerString("save") == "save";
  }

  /** "save number" without a value leaves getArg(2)'s buffer untracked. */
  lemma SaveWithoutValueLeavesUntrackedArg()
    ensures LeavesUntrackedArg("save number")
  {
    var s := "save number";
    assert s == "save" + " " + "number";
    assert NoSpace("save") && NoSpace("number");
    WordThenRest("save", "number", 0);
    NoSpaceCount("save");
    NoSpaceCount("number");
    FirstWordNoSpaces("number");
    CountSpacesAppend("save" + " ", "number");
    CountSpacesAppend("save", " ");
    assert CountSpaces(" ") == 1;
    assert LowerString("save") == "save";
  }

  /** A command word, an option and a value: every buffer getArg allocates for it is flagged. */
  lemma CompleteSaveTracksArg(command: string, option: string, value: string)
    requires NoSpace(command) && NoSpace(option)
    ensures !LeavesUntrackedArg(command + " " + option + " " + value)
  {
    NoSpaceCount(command);
    NoSpaceCount(option);
    CountSpacesAppend(command + " " + option + " ", value);
    CountSpacesAppend(command + " " + option, " ");
    CountSpacesAppend(command + " ", option);
    CountSpacesAppend(command, " ");
    assert CountSpaces(" ") == 1;
  }

  // ---------------------------------------------------------------------
  // Responses
  // ---------------------------------------------------------------------

  /** Effects of the demo: feedback texts to the phone and saves to flash. */
  datatype DemoAction = Feedback(message: string) | SaveData(data: DemoData)

  const HelpLines: seq<string> := [
    "Just a quick demo, to show off saving config to flash. Available commands are:",
    "save number <int>",
    "save text <char>",
    "load"
  ]
  const UnknownOptionReply: string := "I didn't understand. What do you want to save? Try help"
  const UnknownCommandReply: string := "I didn't understand that command.. Try help"
  const TooMuchTextReply: string := "Too much text! We only allocated 20 chars in the example.."
  const SavedNumberReply: string := "Saved the number"
  const SavedTextReply: string := "Saved that text"

  /** `strcpy` of a text shorter than the buffer: the text, its terminator, then what was there. */
  function StoreText(buffer: seq<char>, text: string): (r: seq<char>)
    requires |buffer| == ExampleTextSize && |text| < ExampleTextSize && NoNul(text)
    ensures |r| == ExampleTextSize && CString(r) == text
    ensures r[|text| + 1..] == buffer[|text| + 1..]
  {
    CStringOfTerminated(text, buffer[|text| + 1..]);
    text + ['\0'] + buffer[|text| + 1..]
  }

  /** exampleLoad's reply. */
  function LoadReply(d: DemoData): string
  {
    "Number: " + IntToString(d.exampleNumber) + "\n" + "Text: " + CString(d.exampleText)
  }

  /** What each command does to the stored data, and what it sends and saves. */
  function Respond(d: DemoData, c: DemoCommand): (r: (DemoData, seq<DemoAction>))
    requires ValidData(d)
    ensures ValidData(r.0)
    ensures |r.1| >= 1 && r.1[|r.1| - 1].Feedback?
    ensures r.0 != d ==> |r.1| == 2 && r.1[0] == SaveData(r.0)
    ensures forall i :: 0 <= i < |r.1| && r.1[i].SaveData? ==> r.1[i].data == r.0
    ensures !(c.SaveNumber? || c.SaveText?) ==> r.0 == d
    ensures c.SaveNumber? ==> r.0 == d.(exampleNumber := Atoi(CString(c.numAsText)))
    ensures c.SaveText? ==> (|CString(c.text)| >= ExampleTextSize <==> r == (d, [Feedback(TooMuchTextReply)]))
    ensures c.SaveText? && |CString(c.text)| < ExampleTextSize ==>
      r.0.exampleNumber == d.exampleNumber && CString(r.0.exampleText) == CString(c.text)
  {
    match c
    case Help => (d, seq(|HelpLines|, i requires 0 <= i < |HelpLines| => Feedback(HelpLines[i])))
    case SaveNumber(numAsText) =>
      var d' := d.(exampleNumber := Atoi(CString(numAsText)));
      (d', [SaveData(d'), Feedback(SavedNumberReply)])
    case SaveText(text) =>
      var t := CString(text);
      if |t| >= ExampleTextSize then (d, [Feedback(TooMuchTextReply)])
      else
        var d' := d.(exampleText := StoreText(d.exampleText, t));
        (d', [SaveData(d'), Feedback(SavedTextReply)])
    case UnknownSaveOption => (d, [Feedback(UnknownOptionReply)])
    case Load => (d, [Feedback(LoadReply(d))])
    case UnknownCommand => (d, [Feedback(UnknownCommandReply)])
  }

  /** A number saved as decimal text is what load reports afterwards. */
  lemma SaveNumberThenLoad(d: DemoData, n: int)
    requires ValidData(d) && Int32Min <= n <= Int32Max
    ensures var saved := Respond(d, SaveNumber(IntToString(n))).0;
      saved.exampleNumber == n && Respond(saved, Load).1 == [Feedback(LoadReply(saved))]
      && LoadReply(saved) == "Number: " + IntToString(n) + "\n" + "Text: " + CString(d.exampleText)
  {
    AtoiOfDecimal(n);
    DecimalIsCString(n);
    var saved := d.(exampleNumber := n);
    assert Respond(d, SaveNumber(IntToString(n))).0 == saved;
    assert Respond(saved, Load).1 == [Feedback(LoadReply(saved))];
  }

  /** A number printed in decimal holds no NUL, so it is its own C string. */
  lemma DecimalIsCString(n: int)
    ensures CString(IntToString(n)) == IntToString(n)
  {
    var s := IntToString(n);
    forall i | 0 <= i < |s|
      ensures s[i] != '\0'
    {
      if n < 0 && i > 0 {
        assert s[i] == NatToString(-n)[i - 1];
      }
    }
    CStringWhole(s);
  }

  /** Text that fits is what load reports afterwards. */
  lemma SaveTextThenLoad(d: DemoData, text: string)
    requires ValidData(d) && NoNul(text) && |text| < ExampleTextSize
    ensures var saved := Respond(d, SaveText(text)).0;
      LoadReply(saved) == "Number: " + IntToString(d.exampleNumber) + "\n" + "Text: " + text
  {
    CStringWhole(text);
  }

  lemma {:induction false} CStringWhole(s: string)
    requires NoNul(s)
    ensures CString(s) == s
  {
    if s != [] {
      CStringWhole(s[1..]);
    }
  }

  /** The demo's state: the global `demoData`, and the actions it has taken so far. */
  class DemoDIYModule {
    var demoData: DemoData
    var actions: seq<DemoAction>

    predicate Valid()
      reads this
    {
      ValidData(demoData)
    }

    /** Registers as "Demo" on its own channel; `stored` is what loadData found valid in flash, if anything. */
    constructor (ctx: DIYContext, stored: Option<DemoData>)
      requires stored.Some? ==> ValidData(stored.value)
      modifies ctx`modules
      ensures Valid() && actions == []
      ensures demoData == if stored.Some? then stored.value else DefaultData()
      ensures ctx.modules == old(ctx.modules) + [NewModule("Demo", OwnChannel)]
    {
      demoData := if stored.Some? then stored.value else DefaultData();
      actions := [];
      new;
      ctx.Register("Demo", OwnChannel);
    }

    /** handleSentText: the getArg/stringsMatch decision, then the chosen example method. */
    method HandleSentText(ctx: DIYContext)
      requires Valid() && |ctx.currentText| < 256
      modifies this, ctx`requestedArg, ctx`argMemoryAllocated, ctx`liveArgBuffers
      ensures Valid()
      ensures var r := Respond(old(demoData), Classify(ctx.currentText));
        demoData == r.0 && actions == old(actions) + r.1
      ensures ctx.Memory() == DemoArgMemory(ctx.currentText, old(ctx.Memory()))
      ensures Tracked(old(ctx.Memory())) ==> ctx.Memory() == ArgMemory(1, !LeavesUntrackedArg(ctx.currentText))
    {
      var c := ReadCommand(ctx);
      match c
      case Help => ExampleHelp();
      case SaveNumber(numAsText) => ExampleSaveNum(numAsText);
      case SaveText(text) => ExampleSaveText(text);
      case UnknownSaveOption => actions := actions + [Feedback(UnknownOptionReply)];
      case Load => ExampleLoad();
      case UnknownCommand => actions := actions + [Feedback(UnknownCommandReply)];
    }

    /** The argument parsing of handleSentText, in the order it calls getArg. */
    method ReadCommand(ctx: DIYContext) returns (c: DemoCommand)
      requires |ctx.currentText| < 256
      modifies ctx`requestedArg, ctx`argMemoryAllocated, ctx`liveArgBuffers
      ensures c == Classify(ctx.currentText)
      ensures ctx.Memory() == DemoArgMemory(ctx.currentText, old(ctx.Memory()))
      ensures Tracked(old(ctx.Memory())) ==> ctx.Memory() == ArgMemory(1, !LeavesUntrackedArg(ctx.currentText))
    {
      if Tracked(ctx.Memory()) {
        DemoArgMemoryFromTracked(ctx.currentText, ctx.Memory());
      }
      var command := ctx.GetArg(0, false);
      var isHelp := StringsMatch(command, "help", false);
      if isHelp {
        return Help;
      }
      var isSave := StringsMatch(command, "save", false);
      if isSave {
        var what := ctx.GetArg(1, false);
        if !ArgFound(ctx.currentText, 1) {
          AfterSpacesShort(ctx.currentText, 1);
        }
        var isNumber := StringsMatch(what, "number", true);
        if isNumber {
          var arg := ctx.GetArg(2, false);
          return SaveNumber(arg);
        }
        var isText := StringsMatch(what, "text", true);
        if isText {
          var arg := ctx.GetArg(2, true);
          return SaveText(arg);
        }
        return UnknownSaveOption;
      }
      var isLoad := StringsMatch(command, "load", false);
      if isLoad {
        return Load;
      }
      return UnknownCommand;
    }

    method ExampleHelp()
      modifies this`actions
      ensures actions == old(actions) + Respond(demoData, Help).1
      requires Valid()
    {
      var i := 0;
      while i < |HelpLines|
        invariant 0 <= i <= |HelpLines|
        invariant actions == old(actions) + seq(i, j requires 0 <= j < i => Feedback(HelpLines[j]))
      {
        actions := actions + [Feedback(HelpLines[i])];
        i := i + 1;
      }
    }

    method ExampleSaveNum(numAsText: string)
      requires Valid()
      modifies this
      ensures Valid()
      ensures var r := Respond(old(demoData), SaveNumber(numAsText));
        demoData == r.0 && actions == old(actions) + r.1
    {
      var number := Atoi(CString(numAsText));
      demoData := demoData.(exampleNumber := number);
      actions := actions + [SaveData(demoData), Feedback(SavedNumberReply)];
    }

    method ExampleSaveText(text: string)
      requires Valid()
      modifies this
      ensures Valid()
      ensures var r := Respond(old(demoData), SaveText(text));
        demoData == r.0 && actions == old(actions) + r.1
    {
      var t := CString(text);
      if |t| >= ExampleTextSize {
        actions := actions + [Feedback(TooMuchTextReply)];
        return;
      }
      demoData := demoData.(exampleText := StoreText(demoData.exampleText, t));
      actions := actions + [SaveData(demoData), Feedback(SavedTextReply)];
    }

    method ExampleLoad()
      requires Valid()
      modifies this`actions
      ensures actions == old(actions) + [Feedback(LoadReply(demoData))]
    {
      var ourReply := "";
      ourReply := ourReply + "Number: ";
      ourReply := ourReply + IntToString(demoData.exampleNumber);
      ourReply := ourReply + "\n";
      ourReply := ourReply + "Text: ";
      ourReply := ourReply + CString(demoData.exampleText);
      assert ourReply == LoadReply(demoData);
      actions := actions + [Feedback(ourReply)];
    }
  }
}
