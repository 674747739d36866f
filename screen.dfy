/**
 * Two small pieces of the OLED screen class: the UTF-8 to font-table byte
 * converter used when drawing strings (default build, without the Polish,
 * Ukrainian, Russian or Czech tables), and the gate through which UI
 * commands reach the screen thread's queue.
 */
module Screen {

  /** The two static variables of customFontTableLookup. */
  datatype LookupState = LookupState(lastChar: bv8, skipRest: bool)

  /** Static storage starts zeroed. */
  const InitialLookup: LookupState := LookupState(0, false)

  /** The font's "unconvertible character" glyph. */
  const Unconvertible: bv8 := 191

  predicate IsLead(b: bv8) { b == 0xC2 || b == 0xC3 }

  /** One call of customFontTableLookup: the new static state, and the font-table byte returned. */
  function LookupStep(s: LookupState, ch: bv8): (r: (LookupState, bv8))
    ensures ch < 0x80 ==> r == (InitialLookup, ch)
    ensures ch >= 0x80 ==> r.0.lastChar == ch
    ensures ch >= 0x80 && s.lastChar == 0xC2 ==> r.1 == ch && !r.0.skipRest
    ensures ch >= 0x80 && s.lastChar == 0xC3 ==> r.1 == ch | 0xC0 && !r.0.skipRest
    ensures ch >= 0x80 && !IsLead(s.lastChar) && IsLead(ch) ==> r.1 == 0 && r.0.skipRest == s.skipRest
    ensures ch >= 0x80 && !IsLead(s.lastChar) && !IsLead(ch) ==>
      r.0.skipRest && r.1 == (if s.skipRest then 0 else Unconvertible)
  {
    if ch < 0x80 then (InitialLookup, ch)
    else if s.lastChar == 0xC2 then (LookupState(ch, false), ch)
    else if s.lastChar == 0xC3 then (LookupState(ch, false), ch | 0xC0)
    else if IsLead(ch) then (LookupState(ch, s.skipRest), 0)
    else if s.skipRest then (LookupState(ch, true), 0)
    else (LookupState(ch, true), Unconvertible)
  }

  /** The bytes returned for a string passed through the converter one byte at a time. */
  function Convert(s: LookupState, bytes: seq<bv8>): (out: seq<bv8>)
    ensures |out| == |bytes|
    decreases bytes
  {
    if bytes == [] then [] else
      var step := LookupStep(s, bytes[0]);
      [step.1] + Convert(step.0, bytes[1..])
  }

  /** The static state after the string. */
  function After(s: LookupState, bytes: seq<bv8>): LookupState
    decreases bytes
  {
    if bytes == [] then s else After(LookupStep(s, bytes[0]).0, bytes[1..])
  }

  lemma {:induction false} ConvertAppend(s: LookupState, a: seq<bv8>, b: seq<bv8>)
    ensures Convert(s, a + b) == Convert(s, a) + Convert(After(s, a), b)
    decreases a
  {
    if a != [] {
      assert (a + b)[1..] == a[1..] + b;
      ConvertAppend(LookupStep(s, a[0]).0, a[1..], b);
    } else {
      assert a + b == b;
    }
  }

  /** Plain ASCII passes through unchanged. */
  lemma {:induction false} AsciiUnchanged(s: LookupState, bytes: seq<bv8>)
    requires forall i :: 0 <= i < |bytes| ==> bytes[i] < 0x80
    ensures Convert(s, bytes) == bytes
    decreases bytes
  {
    if bytes != [] {
      AsciiUnchanged(InitialLookup, bytes[1..]);
    }
  }

  /** UTF-8 encoding of a Latin-1 code point (U+0001 to U+00FF). */
  function EncodeLatin1(c: bv8): seq<bv8>
  {
    if c < 0x80 then [c] else [0xC0 | (c >> 6), 0x80 | (c & 0x3F)]
  }

  function EncodeAll(cs: seq<bv8>): seq<bv8>
  {
    if cs == [] then [] else EncodeLatin1(cs[0]) + EncodeAll(cs[1..])
  }

  /** The NUL bytes the converter returns for lead bytes are dropped when drawing. */
  function DropNuls(bs: seq<bv8>): seq<bv8>
  {
    if bs == [] then [] else (if bs[0] == 0 then [] else [bs[0]]) + DropNuls(bs[1..])
  }

  lemma {:induction false} DropNulsAppend(a: seq<bv8>, b: seq<bv8>)
    ensures DropNuls(a + b) == DropNuls(a) + DropNuls(b)
  {
    if a != [] {
      assert (a + b)[1..] == a[1..] + b;
      DropNulsAppend(a[1..], b);
    } else {
      assert a + b == b;
    }
  }

  /** One encoded character converts back to itself, leaving a state that is not after a lead byte. */
  /** The UTF-8 form of a code point from 0x80 up: a lead byte, then a continuation byte that the lead maps back. */
  lemma TwoByteForm(c: bv8)
    requires c >= 0x80
    ensures |EncodeLatin1(c)| == 2
    ensures IsLead(EncodeLatin1(c)[0]) && EncodeLatin1(c)[1] >= 0x80 && !IsLead(EncodeLatin1(c)[1])
    ensures EncodeLatin1(c)[0] == 0xC2 ==> EncodeLatin1(c)[1] == c
    ensures EncodeLatin1(c)[0] == 0xC3 ==> EncodeLatin1(c)[1] | 0xC0 == c
  {
  }

  lemma EncodedCharacter(s: LookupState, c: bv8)
    requires c != 0 && !IsLead(s.lastChar)
    ensures DropNuls(Convert(s, EncodeLatin1(c))) == [c]
    ensures !IsLead(After(s, EncodeLatin1(c)).lastChar)
  {
    if c >= 0x80 {
      var e := EncodeLatin1(c);
      TwoByteForm(c);
      var s1 := LookupStep(s, e[0]).0;
      assert s1.lastChar == e[0];
      assert e[1..] == [e[1]];
      var s2 := LookupStep(s1, e[1]).0;
      assert LookupStep(s1, e[1]).1 == c;
      assert s2.lastChar == e[1];
      assert After(s1, [e[1]]) == After(s2, []) == s2;
      assert Convert(s1, [e[1]]) == [c] + Convert(s2, []);
      assert Convert(s, e) == [0, c];
      var out := [0 as bv8, c];
      assert out[1..] == [c] && [c][1..] == [];
      assert DropNuls([c]) == [c] + DropNuls([]);
      assert DropNuls(out) == [] + DropNuls([c]);
    } else {
      assert EncodeLatin1(c)[1..] == [];
    }
  }

  /**
   * Latin-1 text survives: encoding it as UTF-8 and converting it gives back
   * the code points, once the NULs returned for the lead bytes are dropped.
   */
  lemma {:induction false} Latin1RoundTrip(s: LookupState, cs: seq<bv8>)
    requires forall i :: 0 <= i < |cs| ==> cs[i] != 0
    requires !IsLead(s.lastChar)
    ensures DropNuls(Convert(s, EncodeAll(cs))) == cs
    decreases cs
  {
    if cs != [] {
      var e := EncodeLatin1(cs[0]);
      EncodedCharacter(s, cs[0]);
      ConvertAppend(s, e, EncodeAll(cs[1..]));
      DropNulsAppend(Convert(s, e), Convert(After(s, e), EncodeAll(cs[1..])));
      Latin1RoundTrip(After(s, e), cs[1..]);
      assert cs == [cs[0]] + cs[1..];
    }
  }

  /** A bytes outside ASCII that is neither a lead byte nor after one. */
  predicate Unconvertible1(b: bv8) { b >= 0x80 && !IsLead(b) }

  /** A run of unconvertible bytes after the skip flag is set converts to NULs only. */
  lemma {:induction false} SkippedRun(s: LookupState, bytes: seq<bv8>)
    requires s.skipRest && !IsLead(s.lastChar)
    requires forall i :: 0 <= i < |bytes| ==> Unconvertible1(bytes[i])
    ensures Convert(s, bytes) == seq(|bytes|, _ => 0)
    decreases bytes
  {
    if bytes != [] {
      SkippedRun(LookupStep(s, bytes[0]).0, bytes[1..]);
    }
  }

  /** A run of unconvertible bytes shows as one 191 followed by NULs. */
  lemma UnconvertibleRun(s: LookupState, bytes: seq<bv8>)
    requires !s.skipRest && !IsLead(s.lastChar) && |bytes| >= 1
    requires forall i :: 0 <= i < |bytes| ==> Unconvertible1(bytes[i])
    ensures Convert(s, bytes) == [Unconvertible] + seq(|bytes| - 1, _ => 0)
  {
    SkippedRun(LookupStep(s, bytes[0]).0, bytes[1..]);
  }

  /** An ASCII byte ends the run: whatever came before, the state is back to its initial value. */
  lemma AsciiResets(s: LookupState, bytes: seq<bv8>, ch: bv8)
    requires ch < 0x80
    ensures After(s, bytes + [ch]) == InitialLookup
  {
    AfterAppend(s, bytes, [ch]);
  }

  lemma {:induction false} AfterAppend(s: LookupState, a: seq<bv8>, b: seq<bv8>)
    ensures After(s, a + b) == After(After(s, a), b)
    decreases a
  {
    if a != [] {
      assert (a + b)[1..] == a[1..] + b;
      AfterAppend(LookupStep(s, a[0]).0, a[1..], b);
    } else {
      assert a + b == b;
    }
  }

  /** customFontTableLookup with its static variables. */
  class FontTableLookup {
    var lastChar: bv8
    var skipRest: bool

    function State(): LookupState
      reads this
    {
      LookupState(lastChar, skipRest)
    }

    constructor ()
      ensures State() == InitialLookup
    {
      lastChar := 0;
      skipRest := false;
    }

    method CustomFontTableLookup(ch: bv8) returns (r: bv8)
      modifies this
      ensures (State(), r) == LookupStep(old(State()), ch)
    {
      if ch < 128 {
        lastChar := 0;
        skipRest := false;
        return ch;
      }
      var last := lastChar;
      lastChar := ch;
      if last == 0xC2 {
        skipRest := false;
        return ch;
      }
      if last == 0xC3 {
        skipRest := false;
        return ch | 0xC0;
      }
      if ch == 0xC2 || ch == 0xC3 {
        return 0;
      }
      if skipRest {
        return 0;
      }
      skipRest := true;
      return 191;
    }

    /** The converter applied to each byte of a string in turn, as the display library does. */
    method ConvertString(bytes: seq<bv8>) returns (out: seq<bv8>)
      modifies this
      ensures out == Convert(old(State()), bytes) && State() == After(old(State()), bytes)
    {
      out := [];
      var i := 0;
      while i < |bytes|
        invariant 0 <= i <= |bytes|
        invariant Convert(old(State()), bytes[..i]) == out && State() == After(old(State()), bytes[..i])
      {
        var b := CustomFontTableLookup(bytes[i]);
        ConvertAppend(old(State()), bytes[..i], [bytes[i]]);
        AfterAppend(old(State()), bytes[..i], [bytes[i]]);
        assert bytes[..i + 1] == bytes[..i] + [bytes[i]];
        out := out + [b];
        i := i + 1;
      }
      assert bytes[..i] == bytes;
    }
  }

  // ---------------------------------------------------------------------
  // Command queue
  // ---------------------------------------------------------------------

  datatype Cmd =
    | SetOnCmd | OnPress | ShowPrevFrame | ShowNextFrame | StartAlertFrame | StopAlertFrame
    | StartFirmwareUpdateScreen | StopBootScreen | Noop

  /**
   * `useDisplay`, the thread's `enabled` flag, the command queue, and the
   * power changes handled at once by handleSetOn.
   */
  datatype ScreenState = ScreenState(useDisplay: bool, enabled: bool, queue: seq<Cmd>, powerChanges: seq<bool>)

  /**
   * enqueueCmd with a queue of `capacity` entries and a zero wait: refused
   * without a display; otherwise the thread is woken whether or not the
   * queue had room.
   */
  function Enqueue(s: ScreenState, capacity: nat, cmd: Cmd): (r: (ScreenState, bool))
    ensures !s.useDisplay ==> r == (s, false)
    ensures s.useDisplay ==> r.0.enabled
    ensures r.1 <==> s.useDisplay && |s.queue| < capacity
    ensures r.0.queue == s.queue + (if r.1 then [cmd] else [])
    ensures r.0.useDisplay == s.useDisplay && r.0.powerChanges == s.powerChanges
  {
    if !s.useDisplay then (s, false)
    else
      var success := |s.queue| < capacity;
      (s.(queue := if success then s.queue + [cmd] else s.queue, enabled := true), success)
  }

  /** setOn: off is handled at once (the CPU may be shutting down), on goes through the queue. */
  function SetOnState(s: ScreenState, capacity: nat, on: bool): (r: ScreenState)
    ensures !on ==> r == s.(powerChanges := s.powerChanges + [false])
    ensures on ==> r.powerChanges == s.powerChanges && r == Enqueue(s, capacity, SetOnCmd).0
  {
    if !on then s.(powerChanges := s.powerChanges + [false]) else Enqueue(s, capacity, SetOnCmd).0
  }

  /** Commands enqueued while there is room arrive in order. */
  lemma {:induction false} EnqueueInOrder(s: ScreenState, capacity: nat, cmds: seq<Cmd>)
    requires s.useDisplay && |s.queue| + |cmds| <= capacity
    ensures EnqueueAll(s, capacity, cmds).queue == s.queue + cmds
    decreases cmds
  {
    if cmds != [] {
      var s' := Enqueue(s, capacity, cmds[0]).0;
      EnqueueInOrder(s', capacity, cmds[1..]);
      assert s.queue + cmds == s.queue + [cmds[0]] + cmds[1..];
    }
  }

  function EnqueueAll(s: ScreenState, capacity: nat, cmds: seq<Cmd>): ScreenState
    decreases cmds
  {
    if cmds == [] then s else EnqueueAll(Enqueue(s, capacity, cmds[0]).0, capacity, cmds[1..])
  }

  /** Without a display nothing is ever queued, whatever is requested. */
  lemma {:induction false} NoDisplayNoQueue(s: ScreenState, capacity: nat, cmds: seq<Cmd>)
    requires !s.useDisplay
    ensures EnqueueAll(s, capacity, cmds) == s
    decreases cmds
  {
    if cmds != [] {
      NoDisplayNoQueue(s, capacity, cmds[1..]);
    }
  }

  class Screen {
    const capacity: nat
    var useDisplay: bool
    var enabled: bool
    var cmdQueue: seq<Cmd>
    var powerChanges: seq<bool>

    function State(): ScreenState
      reads this
    {
      ScreenState(useDisplay, enabled, cmdQueue, powerChanges)
    }

    constructor (queueCapacity: nat, hasDisplay: bool)
      ensures capacity == queueCapacity
      ensures State() == ScreenState(hasDisplay, false, [], [])
    {
      capacity := queueCapacity;
      useDisplay := hasDisplay;
      enabled := false;
      cmdQueue := [];
      powerChanges := [];
    }

    method EnqueueCmd(cmd: Cmd) returns (success: bool)
      modifies this
      ensures (State(), success) == Enqueue(old(State()), capacity, cmd)
    {
      if !useDisplay {
        return false;
      }
      success := |cmdQueue| < capacity;
      if success {
        cmdQueue := cmdQueue + [cmd];
      }
      enabled := true;
    }

    method SetOn(on: bool)
      modifies this
      ensures State() == SetOnState(old(State()), capacity, on)
    {
      if !on {
        powerChanges := powerChanges + [false];
      } else {
        var _ := EnqueueCmd(SetOnCmd);
      }
    }

    method OnPress()
      modifies this
      ensures State() == Enqueue(old(State()), capacity, Cmd.OnPress).0
    {
      var _ := EnqueueCmd(Cmd.OnPress);
    }

    method ShowPrevFrame()
      modifies this
      ensures State() == Enqueue(old(State()), capacity, Cmd.ShowPrevFrame).0
    {
      var _ := EnqueueCmd(Cmd.ShowPrevFrame);
    }

    method ShowNextFrame()
      modifies this
      ensures State() == Enqueue(old(State()), capacity, Cmd.ShowNextFrame).0
    {
      var _ := EnqueueCmd(Cmd.ShowNextFrame);
    }

    method EndAlert()
      modifies this
      ensures State() == Enqueue(old(State()), capacity, StopAlertFrame).0
    {
      var _ := EnqueueCmd(StopAlertFrame);
    }

    method StartFirmwareUpdateScreen()
      modifies this
      ensures State() == Enqueue(old(State()), capacity, Cmd.StartFirmwareUpdateScreen).0
    {
      var _ := EnqueueCmd(Cmd.StartFirmwareUpdateScreen);
    }

    method StopBootScreen()
      modifies this
      ensures State() == Enqueue(old(State()), capacity, Cmd.StopBootScreen).0
    {
      var _ := EnqueueCmd(Cmd.StopBootScreen);
    }
  }
}
