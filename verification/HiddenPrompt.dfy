/**
 * The CLI's hidden prompt: keystrokes decoded one by one, escape sequences
 * carried across chunks, the rest of a paste handed on to the line framer.
 */
module HiddenPrompt {
  import opened JsText
  import opened LineFramer

  const ESC := '\U{1B}'
  const CTRL_C := '\U{03}'
  const BACKSPACE := '\U{08}'
  const DEL := '\U{7F}'

  predicate IsPrintable(c: char) {
    ' ' <= c <= '~'
  }

  /** The last byte of a CSI sequence. */
  predicate IsFinal(c: char) {
    '@' <= c <= '~'
  }

  predicate IsEnter(c: char) {
    c == '\r' || c == '\n'
  }

  // ---------------------------------------------------------------------
  // The decoder
  // ---------------------------------------------------------------------

  datatype Decoder = Decoder(data: string, escaped: bool, inCsi: bool)

  datatype Key = Typing(next: Decoder) | Entered | Interrupted

  /** What one character does. */
  function OnKey(d: Decoder, c: char): Key {
    if d.escaped && IsPrintable(c) then Typing(Decoder(d.data, false, d.inCsi || c == '['))
    else if d.inCsi then Typing(Decoder(d.data, false, !IsFinal(c)))
    else if c == ESC then Typing(Decoder(d.data, true, false))
    else if IsEnter(c) then Entered
    else if c == CTRL_C then Interrupted
    else if c == DEL || c == BACKSPACE then Typing(Decoder(WithoutLast(d.data), false, false))
    else if c >= ' ' then Typing(Decoder(d.data + [c], false, false))
    else Typing(Decoder(d.data, false, false))
  }

  function WithoutLast(s: string): string {
    if s == [] then [] else s[..|s| - 1]
  }

  /** `after` is the raw text behind the Enter key, which was a carriage return if `byCr`. */
  datatype Outcome = Waiting(decoder: Decoder) | Done(value: string, byCr: bool, after: string) | Killed

  function Decode(d: Decoder, input: string, i: nat): Outcome
    requires i <= |input|
    decreases |input| - i
  {
    if i == |input| then Waiting(d)
    else
      match OnKey(d, input[i])
      case Typing(next) => Decode(next, input, i + 1)
      case Entered => Done(d.data, input[i] == '\r', input[i + 1..])
      case Interrupted => Killed
  }

  const START := Decoder("", false, false)

  function Typed(input: string): Outcome {
    Decode(START, input, 0)
  }

  /** More input continues where the decoder stands; after Enter it is only appended. */
  lemma {:induction false} DecodeResumes(d: Decoder, input: string, i: nat, more: string)
    requires i <= |input|
    ensures match Decode(d, input, i)
      case Waiting(next) => Decode(d, input + more, i) == Decode(next, input + more, |input|)
      case Done(value, byCr, after) => Decode(d, input + more, i) == Done(value, byCr, after + more)
      case Killed => Decode(d, input + more, i) == Killed
    decreases |input| - i
  {
    if i < |input| {
      assert (input + more)[i] == input[i];
      match OnKey(d, input[i]) {
        case Typing(next) => DecodeResumes(next, input, i + 1, more);
        case Entered => assert (input + more)[i + 1..] == input[i + 1..] + more;
        case Interrupted =>
      }
    }
  }

  // ---------------------------------------------------------------------
  // The reference: reading key by key, with lookahead
  // ---------------------------------------------------------------------

  /** The first index past a CSI sequence whose parameters start at `i`. */
  function PastCsi(s: string, i: nat): (k: nat)
    requires i <= |s|
    ensures i <= k <= |s|
    decreases |s| - i
  {
    if i == |s| then i else if IsFinal(s[i]) then i + 1 else PastCsi(s, i + 1)
  }

  /** A function key: `ESC O` and the printable byte that belongs to it. */
  predicate IsSs3(s: string, i: nat) {
    i + 2 < |s| && s[i] == ESC && s[i + 1] == 'O' && IsPrintable(s[i + 2])
  }

  /** A function key of the Linux console: `ESC [ [` and the printable byte that belongs to it. */
  predicate IsConsoleKey(s: string, i: nat) {
    i + 3 < |s| && s[i] == ESC && s[i + 1] == '[' && s[i + 2] == '[' && IsPrintable(s[i + 3])
  }

  /** The control characters above DEL. */
  predicate IsC1(c: char) {
    '\U{80}' <= c <= '\U{9F}'
  }

  /**
   * What a whole key means to the value. A `Leak` should mean nothing: it is
   * the last byte of a function key, or a C1 control.
   */
  datatype Stroke = Nothing | Erase | Enter | Interrupt | Char(c: char) | Leak(c: char)

  function StrokeAt(s: string, i: nat): Stroke
    requires i < |s|
  {
    if s[i] == ESC then
      (if IsSs3(s, i) then Leak(s[i + 2]) else if IsConsoleKey(s, i) then Leak(s[i + 3]) else Nothing)
    else if IsEnter(s[i]) then Enter
    else if s[i] == CTRL_C then Interrupt
    else if s[i] == BACKSPACE || s[i] == DEL then Erase
    else if s[i] < ' ' then Nothing
    else if IsC1(s[i]) then Leak(s[i])
    else Char(s[i])
  }

  /**
   * The index past the key at `i`: `ESC [ ... final`, `ESC [ [ byte`,
   * `ESC O byte`, `ESC printable`, Escape alone, or one character.
   */
  function EndOfKey(s: string, i: nat): (k: nat)
    requires i < |s|
    ensures i < k <= |s|
  {
    if s[i] != ESC || i + 1 == |s| then i + 1
    else if IsConsoleKey(s, i) then i + 4
    else if s[i + 1] == '[' then PastCsi(s, i + 2)
    else if IsSs3(s, i) then i + 3
    else if IsPrintable(s[i + 1]) then i + 2
    else i + 1
  }

  datatype Reading = StillTyping(typed: string) | Read(typed: string, enter: nat) | Aborted(at: nat)

  /** The keys from `i` on, with leaks kept in the value or, as they should be, not. */
  function ReadKeys(s: string, i: nat, typed: string, keepLeaks: bool): Reading
    requires i <= |s|
    decreases |s| - i
  {
    if i == |s| then StillTyping(typed)
    else
      match StrokeAt(s, i)
      case Enter => Read(typed, i)
      case Interrupt => Aborted(i)
      case Nothing => ReadKeys(s, EndOfKey(s, i), typed, keepLeaks)
      case Erase => ReadKeys(s, EndOfKey(s, i), WithoutLast(typed), keepLeaks)
      case Char(c) => ReadKeys(s, EndOfKey(s, i), typed + [c], keepLeaks)
      case Leak(c) => ReadKeys(s, EndOfKey(s, i), if keepLeaks then typed + [c] else typed, keepLeaks)
  }

  predicate Agree(o: Outcome, r: Reading, s: string) {
    match r
    case StillTyping(typed) => o.Waiting? && o.decoder.data == typed
    case Read(value, enter) => enter < |s| && o == Done(value, s[enter] == '\r', s[enter + 1..])
    case Aborted(_) => o == Killed
  }

  lemma {:induction false} CsiIsSkipped(s: string, i: nat, typed: string)
    requires i <= |s|
    ensures Decode(Decoder(typed, false, true), s, i)
      == if PastCsi(s, i) == |s| && (i == |s| || !IsFinal(s[|s| - 1])) then Waiting(Decoder(typed, false, true))
         else Decode(Decoder(typed, false, false), s, PastCsi(s, i))
    decreases |s| - i
  {
    if i < |s| && !IsFinal(s[i]) {
      CsiIsSkipped(s, i + 1, typed);
    }
  }

  /** The value after a key, with leaks kept. */
  function AfterStroke(stroke: Stroke, typed: string): string {
    match stroke
    case Erase => WithoutLast(typed)
    case Char(c) => typed + [c]
    case Leak(c) => typed + [c]
    case _ => typed
  }

  /** A CSI sequence that starts at `i` and has no final byte. */
  predicate IsOpenCsi(s: string, i: nat) {
    && i + 1 < |s| && s[i] == ESC && s[i + 1] == '['
    && PastCsi(s, i + 2) == |s| && (i + 2 == |s| || !IsFinal(s[|s| - 1]))
  }

  /** The characters of one key take the decoder from one value to the next. */
  lemma {:induction false} DecoderReadsOneKey(s: string, i: nat, typed: string)
    requires i < |s| && !StrokeAt(s, i).Enter? && !StrokeAt(s, i).Interrupt?
    ensures var o, k := Decode(Decoder(typed, false, false), s, i), EndOfKey(s, i);
      || o == Decode(Decoder(AfterStroke(StrokeAt(s, i), typed), false, false), s, k)
      || (k == |s| && StrokeAt(s, i) == Nothing && o.Waiting? && o.decoder.data == typed
          && (o.decoder.inCsi <==> IsOpenCsi(s, i)))
    ensures IsOpenCsi(s, i) ==> Decode(Decoder(typed, false, false), s, i) == Waiting(Decoder(typed, false, true))
  {
    if s[i] == ESC && i + 1 < |s| {
      if s[i + 1] == '[' {
        CsiIsSkipped(s, i + 2, typed);
      } else if IsPrintable(s[i + 1]) {
        var plain := Decoder(typed, false, false);
        assert Decode(plain, s, i) == Decode(Decoder(typed, true, false), s, i + 1) == Decode(plain, s, i + 2);
      } else {
        assert OnKey(Decoder(typed, true, false), s[i + 1]) == OnKey(Decoder(typed, false, false), s[i + 1]);
      }
    }
  }

  /**
   * The character-by-character decoder reads whole keys and keeps the leaks:
   * the last byte of every function key, and every C1 control.
   */
  lemma {:induction false} DecoderReadsKeys(s: string, i: nat, typed: string)
    requires i <= |s|
    ensures Agree(Decode(Decoder(typed, false, false), s, i), ReadKeys(s, i, typed, true), s)
    decreases |s| - i
  {
    if i < |s| && !StrokeAt(s, i).Enter? && !StrokeAt(s, i).Interrupt? {
      DecoderReadsOneKey(s, i, typed);
      DecoderReadsKeys(s, EndOfKey(s, i), AfterStroke(StrokeAt(s, i), typed));
    }
  }

  /** Do the keys from `i` on end, before any Enter, in a CSI sequence without its final byte? */
  predicate EndsInCsi(s: string, i: nat)
    requires i <= |s|
    decreases |s| - i
  {
    && i < |s| && !StrokeAt(s, i).Enter? && !StrokeAt(s, i).Interrupt?
    && (IsOpenCsi(s, i) || EndsInCsi(s, EndOfKey(s, i)))
  }

  lemma {:induction false} InCsiIffOpen(s: string, i: nat, typed: string)
    requires i <= |s| && Decode(Decoder(typed, false, false), s, i).Waiting?
    ensures Decode(Decoder(typed, false, false), s, i).decoder.inCsi <==> EndsInCsi(s, i)
    decreases |s| - i
  {
    if i < |s| {
      DecoderReadsOneKey(s, i, typed);
      OpenCsiIsLast(s, i);
      if Decode(Decoder(AfterStroke(StrokeAt(s, i), typed), false, false), s, EndOfKey(s, i)).Waiting? {
        InCsiIffOpen(s, EndOfKey(s, i), AfterStroke(StrokeAt(s, i), typed));
      }
    }
  }

  lemma {:induction false} OpenCsiIsLast(s: string, i: nat)
    requires i < |s|
    ensures IsOpenCsi(s, i) ==> EndOfKey(s, i) == |s| && StrokeAt(s, i) == Nothing
  {
    if IsOpenCsi(s, i) && i + 2 < |s| {
      assert !IsFinal(s[i + 2]);
    }
  }

  /**
   * While a prompt is open, Enter resolves it and Ctrl-C ends the process
   * unless the keys so far end in a CSI sequence without its final byte, which
   * swallows both.
   */
  lemma {:induction false} EnterIsObeyedIff(s: string, c: char)
    requires Typed(s).Waiting? && (IsEnter(c) || c == CTRL_C)
    ensures EndsInCsi(s, 0) ==> Typed(s + [c]) == Waiting(Decoder(Typed(s).decoder.data, false, true))
    ensures !EndsInCsi(s, 0) && IsEnter(c) ==> Typed(s + [c]) == Done(Typed(s).decoder.data, c == '\r', "")
    ensures !EndsInCsi(s, 0) && c == CTRL_C ==> Typed(s + [c]) == Killed
  {
    InCsiIffOpen(s, 0, "");
    DecodeResumes(START, s, 0, [c]);
    var d := Typed(s).decoder;
    assert (s + [c])[|s|] == c && (s + [c])[|s| + 1..] == "";
  }

  /** No control character below space, and no DEL; C1 controls are not excluded. */
  predicate IsClean(value: string) {
    forall i :: 0 <= i < |value| ==> value[i] >= ' ' && value[i] != DEL
  }

  /** Not even a C1 control. */
  predicate HoldsNoControl(value: string) {
    IsClean(value) && forall i :: 0 <= i < |value| ==> !IsC1(value[i])
  }

  /** Whatever the keys, no control below space and no DEL is ever stored. */
  lemma {:induction false} ValueIsClean(d: Decoder, input: string, i: nat)
    requires i <= |input| && IsClean(d.data)
    ensures Decode(d, input, i).Done? ==> IsClean(Decode(d, input, i).value)
    decreases |input| - i
  {
    if i < |input| {
      var key := OnKey(d, input[i]);
      if key.Typing? {
        ValueIsClean(key.next, input, i + 1);
      }
    }
  }

  // ---------------------------------------------------------------------
  // Leaks: where decoder and reference part
  // ---------------------------------------------------------------------

  /** The reference stores no control character at all. */
  lemma {:induction false} ReferenceHoldsNoControl(s: string, i: nat, typed: string)
    requires i <= |s| && HoldsNoControl(typed)
    ensures match ReadKeys(s, i, typed, false)
      case StillTyping(value) => HoldsNoControl(value)
      case Read(value, _) => HoldsNoControl(value)
      case Aborted(_) => true
    decreases |s| - i
  {
    if i < |s| {
      match StrokeAt(s, i) {
        case Enter =>
        case Interrupt =>
        case Nothing => ReferenceHoldsNoControl(s, EndOfKey(s, i), typed);
        case Leak(_) => ReferenceHoldsNoControl(s, EndOfKey(s, i), typed);
        case Erase => ReferenceHoldsNoControl(s, EndOfKey(s, i), WithoutLast(typed));
        case Char(c) => ReferenceHoldsNoControl(s, EndOfKey(s, i), typed + [c]);
      }
    }
  }

  /**
   * How many leaks still stand when the reading stops, counted from `n`
   * characters that belong and `x` leaks: each leak adds one, and a backspace
   * takes one away only when nothing that belongs is left to erase.
   */
  function Surplus(s: string, i: nat, n: nat, x: nat): nat
    requires i <= |s|
    decreases |s| - i
  {
    if i == |s| then x
    else
      match StrokeAt(s, i)
      case Enter => x
      case Interrupt => x
      case Nothing => Surplus(s, EndOfKey(s, i), n, x)
      case Char(_) => Surplus(s, EndOfKey(s, i), n + 1, x)
      case Leak(_) => Surplus(s, EndOfKey(s, i), n, x + 1)
      case Erase =>
        if n > 0 then Surplus(s, EndOfKey(s, i), n - 1, x)
        else Surplus(s, EndOfKey(s, i), 0, if x > 0 then x - 1 else 0)
  }

  /** A value with `x` characters more than it should have, and the right one without any. */
  predicate Exceeds(value: string, right: string, x: nat) {
    |value| == |right| + x && (x == 0 ==> value == right)
  }

  predicate ReadingExceeds(r: Reading, right: Reading, x: nat) {
    match right
    case StillTyping(typed) => r.StillTyping? && Exceeds(r.typed, typed, x)
    case Read(typed, enter) => r.Read? && r.enter == enter && Exceeds(r.typed, typed, x)
    case Aborted(at) => r == Aborted(at)
  }

  lemma {:induction false} LeaksStand(s: string, i: nat, typed: string, right: string, x: nat)
    requires i <= |s| && Exceeds(typed, right, x)
    ensures ReadingExceeds(ReadKeys(s, i, typed, true), ReadKeys(s, i, right, false), Surplus(s, i, |right|, x))
    decreases |s| - i
  {
    if i < |s| {
      var k := EndOfKey(s, i);
      match StrokeAt(s, i) {
        case Enter =>
        case Interrupt =>
        case Nothing => LeaksStand(s, k, typed, right, x);
        case Char(c) => LeaksStand(s, k, typed + [c], right + [c], x);
        case Leak(c) => LeaksStand(s, k, typed + [c], right, x + 1);
        case Erase =>
          LeaksStand(s, k, WithoutLast(typed), WithoutLast(right), if |right| == 0 && x > 0 then x - 1 else x);
      }
    }
  }

  /** Is a leaking key pressed before the reading stops? */
  predicate Leaks(s: string, i: nat)
    requires i <= |s|
    decreases |s| - i
  {
    && i < |s| && !StrokeAt(s, i).Enter? && !StrokeAt(s, i).Interrupt?
    && (StrokeAt(s, i).Leak? || Leaks(s, EndOfKey(s, i)))
  }

  lemma {:induction false} NoLeaksNoSurplus(s: string, i: nat, n: nat)
    requires i <= |s| && !Leaks(s, i)
    ensures Surplus(s, i, n, 0) == 0
    decreases |s| - i
  {
    if i < |s| {
      var k := EndOfKey(s, i);
      match StrokeAt(s, i) {
        case Enter =>
        case Interrupt =>
        case Nothing => NoLeaksNoSurplus(s, k, n);
        case Char(_) => NoLeaksNoSurplus(s, k, n + 1);
        case Erase => NoLeaksNoSurplus(s, k, if n > 0 then n - 1 else 0);
      }
    }
  }

  lemma {:induction false} PastCsiInPrefix(s: string, i: nat, k: nat)
    requires i <= k <= |s|
    ensures PastCsi(s[..k], i) == if PastCsi(s, i) <= k then PastCsi(s, i) else k
    decreases k - i
  {
    if i < k && !IsFinal(s[i]) {
      PastCsiInPrefix(s, i + 1, k);
    }
  }

  /** A key that is whole in a prefix is the same key there; one that is cut off means nothing yet. */
  lemma {:induction false} KeyInPrefix(s: string, i: nat, k: nat)
    requires i < k <= |s|
    ensures EndOfKey(s, i) <= k ==> EndOfKey(s[..k], i) == EndOfKey(s, i) && StrokeAt(s[..k], i) == StrokeAt(s, i)
    ensures EndOfKey(s, i) > k ==> EndOfKey(s[..k], i) == k && StrokeAt(s[..k], i) == Nothing
  {
    if s[i] == ESC && i + 1 < k && s[i + 1] == '[' {
      PastCsiInPrefix(s, i + 2, k);
    }
  }

  lemma {:induction false} LeaksOfPrefix(s: string, i: nat, k: nat)
    requires i <= k <= |s| && Leaks(s[..k], i)
    ensures Leaks(s, i)
    decreases k - i
  {
    KeyInPrefix(s, i, k);
    if !StrokeAt(s[..k], i).Leak? {
      LeaksOfPrefix(s, EndOfKey(s[..k], i), k);
    }
  }

  /** Right behind the first leaking key exactly one leak stands. */
  lemma {:induction false} FirstLeakStands(s: string, i: nat, typed: string) returns (k: nat)
    requires i <= |s| && Leaks(s, i)
    ensures i < k <= |s| && Surplus(s[..k], i, |typed|, 0) == 1
    ensures ReadKeys(s[..k], i, typed, false).StillTyping?
    decreases |s| - i
  {
    var j := EndOfKey(s, i);
    match StrokeAt(s, i) {
      case Leak(_) => k := j;
      case Nothing => k := FirstLeakStands(s, j, typed);
      case Char(c) => k := FirstLeakStands(s, j, typed + [c]);
      case Erase => k := FirstLeakStands(s, j, WithoutLast(typed));
    }
    KeyInPrefix(s, i, k);
  }

  /** At every moment of typing `s` the decoder stands where the reference does. */
  ghost predicate KeepsPromise(s: string) {
    forall k {:trigger s[..k]} :: 0 <= k <= |s| ==> Agree(Typed(s[..k]), ReadKeys(s[..k], 0, "", false), s[..k])
  }

  /** At the end of an input: the decoder agrees with the reference exactly when no leak stands. */
  lemma {:induction false} AgreesIffNoSurplus(s: string)
    ensures Agree(Typed(s), ReadKeys(s, 0, "", false), s) <==>
      ReadKeys(s, 0, "", false).Aborted? || Surplus(s, 0, 0, 0) == 0
  {
    DecoderReadsKeys(s, 0, "");
    LeaksStand(s, 0, "", "", 0);
  }

  /**
   * For every input: function keys and control characters stay out of the
   * value throughout if and only if no `ESC O` key with its byte and no C1
   * control is pressed before Enter.
   */
  lemma {:induction false} KeepsPromiseIffNoLeak(s: string)
    ensures KeepsPromise(s) <==> !Leaks(s, 0)
  {
    if Leaks(s, 0) {
      var k := FirstLeakStands(s, 0, "");
      AgreesIffNoSurplus(s[..k]);
    } else {
      forall k | 0 <= k <= |s| ensures Agree(Typed(s[..k]), ReadKeys(s[..k], 0, "", false), s[..k]) {
        if Leaks(s[..k], 0) {
          LeaksOfPrefix(s, 0, k);
        }
        NoLeaksNoSurplus(s[..k], 0, 0);
        AgreesIffNoSurplus(s[..k]);
      }
    }
  }

  /** F1 on a terminal in application mode: its `P` is stored. */
  lemma {:induction false} FunctionKeyLeaks()
    ensures Typed("\U{1B}OP\r") == Done("P", true, "")
    ensures ReadKeys("\U{1B}OP\r", 0, "", false) == Read("", 3)
  {
  }

  /** F1 on the Linux console. */
  lemma {:induction false} ConsoleKeyLeaks()
    ensures Typed("\U{1B}[[A\r") == Done("A", true, "")
    ensures ReadKeys("\U{1B}[[A\r", 0, "", false) == Read("", 4)
  {
  }

  /** A leak that a backspace took away in an empty value does no harm at Enter. */
  lemma {:induction false} LeakMayBeErased()
    ensures Leaks("\U{1B}OP\U{7F}\r", 0) && Surplus("\U{1B}OP\U{7F}\r", 0, 0, 0) == 0
    ensures Typed("\U{1B}OP\U{7F}\r") == Done("", true, "")
  {
    assert ReadKeys("\U{1B}OP\U{7F}\r", 3, "", false) == Read("", 4);
  }

  /** The eight-bit form of `ESC [` is stored too. */
  lemma {:induction false} C1Leaks()
    ensures Typed("\U{9B}\r") == Done("\U{9B}", true, "")
    ensures ReadKeys("\U{9B}\r", 0, "", false) == Read("", 1)
  {
  }

  // ---------------------------------------------------------------------
  // The listener
  // ---------------------------------------------------------------------

  function WithoutLeadingLf(s: string): string {
    if s != [] && s[0] == '\n' then s[1..] else s
  }

  /** What the framer gets of the text behind Enter: a CRLF is one key. */
  function HandedOn(byCr: bool, after: string): string {
    if byCr then WithoutLeadingLf(after) else after
  }

  /** The state of the hidden prompt's listener. */
  datatype State = State(hidden: bool, decoder: Decoder, skipLeadingLf: bool, exited: bool, values: seq<string>)

  /** A prompt that opens: it takes the keystrokes from now on. */
  function Opened(s: State): State {
    s.(hidden := true, decoder := START)
  }

  /** A chunk given to the prompt: the next state, and the text handed on to the framer. */
  function Keyed(s: State, text: string): (State, string) {
    match Decode(s.decoder, text, 0)
    case Waiting(d) => (s.(decoder := d, skipLeadingLf := false), "")
    case Done(value, byCr, after) =>
      (State(false, START, byCr && after == "", false, s.values + [value]), HandedOn(byCr, after))
    case Killed => (s.(hidden := false, decoder := START, exited := true, skipLeadingLf := false), "")
  }

  /** A chunk of stdin: to the hidden prompt or to the framer, never both. */
  function Received(s: State, chunk: string): (State, string)
    requires chunk != ""
  {
    var text := if s.skipLeadingLf then WithoutLeadingLf(chunk) else chunk;
    if s.hidden then Keyed(s.(skipLeadingLf := false), text) else (s.(skipLeadingLf := false), text)
  }

  /** All the chunks of a stream, in order, until the process is interrupted. */
  function ReceivedAll(s: State, chunks: seq<string>): (State, string)
    requires forall i :: 0 <= i < |chunks| ==> chunks[i] != ""
  {
    if chunks == [] then (s, "")
    else
      var (before, handed) := ReceivedAll(s, chunks[..|chunks| - 1]);
      if before.exited then (before, handed)
      else
        var (after, more) := Received(before, chunks[|chunks| - 1]);
        (after, handed + more)
  }

  /** The input the prompt sees: the line feed of a CRLF before it is skipped, in whatever chunk it comes. */
  function Seen(s: State, input: string): string {
    if s.skipLeadingLf then WithoutLeadingLf(input) else input
  }

  /** What a whole input comes to, wherever it is cut: the reference for a prompt opened in state `s`. */
  ghost predicate Comes(s: State, input: string, after: State, handed: string) {
    match Typed(Seen(s, input))
    case Waiting(d) =>
      after == State(true, d, s.skipLeadingLf && input == "", false, s.values) && handed == ""
    case Done(value, byCr, rest) =>
      && !after.hidden && !after.exited && after.values == s.values + [value]
      && handed == HandedOn(byCr, rest) && after.skipLeadingLf == (byCr && rest == "")
    case Killed => after.exited && after.values == s.values
  }

  lemma {:induction false} SeenGrows(s: State, input: string, chunk: string)
    requires chunk != ""
    ensures Seen(s, input + chunk)
      == Seen(s, input) + if s.skipLeadingLf && input == "" then WithoutLeadingLf(chunk) else chunk
  {
    if input == "" {
      assert input + chunk == chunk;
    }
  }

  lemma {:induction false} OneMoreWhileTyping(s: State, input: string, mid: State, chunk: string)
    requires Typed(Seen(s, input)).Waiting? && Comes(s, input, mid, "") && chunk != ""
    ensures var (after, more) := Received(mid, chunk); Comes(s, input + chunk, after, more)
  {
    var seen := Seen(s, input);
    var text := if mid.skipLeadingLf then WithoutLeadingLf(chunk) else chunk;
    SeenGrows(s, input, chunk);
    DecodeResumes(START, seen, 0, text);
    DecodeShifts(Typed(seen).decoder, seen, text, 0);
  }

  lemma {:induction false} OneMoreWhenDone(s: State, input: string, mid: State, handed: string, chunk: string)
    requires Typed(Seen(s, input)).Done? && Comes(s, input, mid, handed) && chunk != ""
    ensures var (after, more) := Received(mid, chunk); Comes(s, input + chunk, after, handed + more)
  {
    SeenGrows(s, input, chunk);
    DecodeResumes(START, Seen(s, input), 0, chunk);
  }

  lemma {:induction false} OneMoreChunk(s: State, input: string, mid: State, handed: string, chunk: string)
    requires Comes(s, input, mid, handed) && !mid.exited && chunk != ""
    ensures var (after, more) := Received(mid, chunk); Comes(s, input + chunk, after, handed + more)
  {
    if Typed(Seen(s, input)).Waiting? {
      OneMoreWhileTyping(s, input, mid, chunk);
      assert handed + Received(mid, chunk).1 == Received(mid, chunk).1;
    } else {
      OneMoreWhenDone(s, input, mid, handed, chunk);
    }
  }

  /** Decoding does not look at what is behind it. */
  lemma {:induction false} DecodeShifts(d: Decoder, front: string, text: string, i: nat)
    requires i <= |text|
    ensures Decode(d, front + text, |front| + i) == Decode(d, text, i)
    decreases |text| - i
  {
    if i < |text| {
      assert (front + text)[|front| + i] == text[i];
      match OnKey(d, text[i]) {
        case Typing(next) => DecodeShifts(next, front, text, i + 1);
        case Entered => assert (front + text)[|front| + i + 1..] == text[i + 1..];
        case Interrupted =>
      }
    }
  }

  lemma {:induction false} KilledStays(s: State, front: string, last: string)
    requires Typed(Seen(s, front)).Killed?
    ensures Typed(Seen(s, front + last)).Killed?
  {
    assert front != [];
    assert Seen(s, front + last) == Seen(s, front) + last;
    DecodeResumes(START, Seen(s, front), 0, last);
  }

  /** The value a prompt resolves and the text it hands on depend on the input, not on where it was cut. */
  lemma {:induction false} ChunksDoNotMatter(s: State, chunks: seq<string>)
    requires s.hidden && s.decoder == START && !s.exited
    requires forall i :: 0 <= i < |chunks| ==> chunks[i] != ""
    ensures var (after, handed) := ReceivedAll(s, chunks); Comes(s, Concat(chunks), after, handed)
  {
    if chunks != [] {
      var front, last := chunks[..|chunks| - 1], chunks[|chunks| - 1];
      ChunksDoNotMatter(s, front);
      var (mid, handed) := ReceivedAll(s, front);
      if mid.exited {
        KilledStays(s, Concat(front), last);
      } else {
        OneMoreChunk(s, Concat(front), mid, handed, last);
      }
    }
  }

  /** Two ways of cutting the same input: the same values, and the same text for the framer. */
  lemma {:induction false} CutsAgree(s: State, a: seq<string>, b: seq<string>)
    requires s.hidden && s.decoder == START && !s.exited
    requires forall i :: 0 <= i < |a| ==> a[i] != ""
    requires forall i :: 0 <= i < |b| ==> b[i] != ""
    requires Concat(a) == Concat(b)
    ensures var ((x, xHanded), (y, yHanded)) := (ReceivedAll(s, a), ReceivedAll(s, b));
      && x.values == y.values && x.exited == y.exited
      && (!x.exited ==> x.hidden == y.hidden && xHanded == yHanded && x.skipLeadingLf == y.skipLeadingLf)
  {
    ChunksDoNotMatter(s, a);
    ChunksDoNotMatter(s, b);
  }

  /**
   * What a prompt resolves is what the decoder's keys make of the input behind
   * the line feed of an earlier CRLF, and holds no control below space and no DEL.
   */
  lemma {:induction false} PromptReadsKeys(s: State, chunks: seq<string>)
    requires s.hidden && s.decoder == START && !s.exited
    requires forall i :: 0 <= i < |chunks| ==> chunks[i] != ""
    ensures var (after, handed) := ReceivedAll(s, chunks);
      var input := Seen(s, Concat(chunks));
      match ReadKeys(input, 0, "", true)
      case StillTyping(typed) => after.hidden && after.decoder.data == typed && after.values == s.values && handed == ""
      case Read(value, enter) =>
        && enter < |input| && IsClean(value)
        && !after.hidden && after.values == s.values + [value]
        && handed == HandedOn(input[enter] == '\r', input[enter + 1..])
      case Aborted(_) => after.exited && after.values == s.values
  {
    var input := Seen(s, Concat(chunks));
    ChunksDoNotMatter(s, chunks);
    DecoderReadsKeys(input, 0, "");
    ValueIsClean(START, input, 0);
  }

  /**
   * Against the reference, in whatever chunks the keys come: the value a prompt
   * resolves has as many characters too many as leaks stand at Enter, and is
   * the reference's, which holds no control character, exactly when none does.
   */
  lemma {:induction false} PromptExceedsByLeaks(s: State, chunks: seq<string>)
    requires s.hidden && s.decoder == START && !s.exited
    requires forall i :: 0 <= i < |chunks| ==> chunks[i] != ""
    requires ReadKeys(Seen(s, Concat(chunks)), 0, "", false).Read?
    ensures var input, after := Seen(s, Concat(chunks)), ReceivedAll(s, chunks).0;
      var value, x := ReadKeys(input, 0, "", false).typed, Surplus(input, 0, 0, 0);
      && HoldsNoControl(value)
      && |after.values| == |s.values| + 1 && after.values[..|s.values|] == s.values
      && |after.values[|s.values|]| == |value| + x
      && (after.values[|s.values|] == value <==> x == 0)
  {
    var input := Seen(s, Concat(chunks));
    PromptReadsKeys(s, chunks);
    LeaksStand(input, 0, "", "", 0);
    ReferenceHoldsNoControl(input, 0, "");
  }

  /** In raw mode Enter is a chunk of its own, and the next prompt starts with a line feed still to skip. */
  lemma {:induction false} NextPromptSkipsLf(s: State)
    requires s.hidden && s.decoder == START && !s.exited && !s.skipLeadingLf
    ensures Opened(Received(s, "\r").0) == State(true, START, true, false, s.values + [""])
  {
  }

  // ---------------------------------------------------------------------
  // What single keys do, whatever came before and comes behind
  // ---------------------------------------------------------------------

  /** A character that is typed into the value. */
  predicate IsStored(c: char) {
    c >= ' ' && c != DEL
  }

  /** A decoder between two keys. */
  predicate IsBetweenKeys(d: Decoder) {
    !d.escaped && !d.inCsi
  }

  lemma {:induction false} TypedGoesOn(s: string, more: string)
    requires Typed(s).Waiting?
    ensures Typed(s + more) == Decode(Typed(s).decoder, more, 0)
  {
    DecodeResumes(START, s, 0, more);
    DecodeShifts(Typed(s).decoder, s, more, 0);
  }

  /** A character goes to the end of the value. */
  lemma {:induction false} CharacterIsAppended(s: string, c: char)
    requires Typed(s).Waiting? && IsBetweenKeys(Typed(s).decoder) && IsStored(c)
    ensures Typed(s + [c]) == Waiting(Decoder(Typed(s).decoder.data + [c], false, false))
  {
    TypedGoesOn(s, [c]);
  }

  /** Either backspace takes back the character typed right before it, and nothing else. */
  lemma {:induction false} BackspaceUndoesCharacter(s: string, c: char, erase: char, rest: string)
    requires Typed(s).Waiting? && IsBetweenKeys(Typed(s).decoder)
    requires IsStored(c) && (erase == DEL || erase == BACKSPACE)
    ensures Typed(s + [c] + [erase] + rest) == Typed(s + rest)
  {
    var more := [c, erase] + rest;
    TypedGoesOn(s, more);
    TypedGoesOn(s, rest);
    assert s + [c] + [erase] + rest == s + more;
    StrokesCancel(Typed(s).decoder, c, erase, rest);
    DecodeShifts(Typed(s).decoder, [c, erase], rest, 0);
  }

  lemma {:induction false} StrokesCancel(d: Decoder, c: char, erase: char, rest: string)
    requires IsBetweenKeys(d) && IsStored(c) && (erase == DEL || erase == BACKSPACE)
    ensures Decode(d, [c, erase] + rest, 0) == Decode(d, [c, erase] + rest, 2)
  {
    var more := [c, erase] + rest;
    assert OnKey(d, more[0]) == Typing(Decoder(d.data + [c], false, false));
    assert (d.data + [c])[..|d.data|] == d.data;
    assert OnKey(Decoder(d.data + [c], false, false), more[1]) == Typing(d);
  }

  /** In an empty value it does nothing. */
  lemma {:induction false} BackspaceInEmptyValue(s: string, erase: char, rest: string)
    requires Typed(s) == Waiting(START) && (erase == DEL || erase == BACKSPACE)
    ensures Typed(s + [erase] + rest) == Typed(s + rest)
  {
    var more := [erase] + rest;
    TypedGoesOn(s, more);
    TypedGoesOn(s, rest);
    assert s + [erase] + rest == s + more;
    assert Decode(START, more, 0) == Decode(START, more, 1);
    DecodeShifts(START, [erase], rest, 0);
  }

  /** A text of such characters and Enter resolve that text; what is behind Enter is kept. */
  lemma {:induction false} PlainTextIsValue(text: string, enter: char, rest: string)
    requires (forall i :: 0 <= i < |text| ==> IsStored(text[i])) && IsEnter(enter)
    ensures Typed(text) == Waiting(Decoder(text, false, false))
    ensures Typed(text + [enter] + rest) == Done(text, enter == '\r', rest)
  {
    if text != [] {
      var front := text[..|text| - 1];
      PlainTextIsValue(front, enter, rest);
      CharacterIsAppended(front, text[|text| - 1]);
      assert front + [text[|text| - 1]] == text;
    }
    var more := [enter] + rest;
    TypedGoesOn(text, more);
    assert text + [enter] + rest == text + more && more[0] == enter && more[1..] == rest;
  }

  /**
   * A pasted line break is one Enter, CRLF too: exactly what is behind it goes
   * to the framer, in the same chunk or in the next.
   */
  lemma {:induction false} LineBreakIsOneEnter(s: State, text: string, rest: string)
    requires s.hidden && s.decoder == START && !s.exited && !s.skipLeadingLf
    requires forall i :: 0 <= i < |text| ==> IsStored(text[i])
    ensures Received(s, text + "\n" + rest).1 == rest
    ensures Received(s, text + "\r\n" + rest).1 == rest
    ensures rest != "" && rest[0] != '\n' ==> Received(s, text + "\r" + rest).1 == rest
    ensures Received(Received(s, text + "\r").0, "\n" + rest).1 == rest
  {
    PlainTextIsValue(text, '\n', rest);
    PlainTextIsValue(text, '\r', "\n" + rest);
    PlainTextIsValue(text, '\r', rest);
    PlainTextIsValue(text, '\r', "");
    assert text + "\r\n" + rest == text + "\r" + ("\n" + rest);
    assert ("\n" + rest)[1..] == rest;
    assert text + "\r" + "" == text + "\r";
  }

  // ---------------------------------------------------------------------
  // The listener in place
  // ---------------------------------------------------------------------

  class Listener {
    var hidden: bool
    var data: string
    var escaped: bool
    var inCsi: bool
    var skipLeadingLf: bool
    var exited: bool
    /** The values the hidden prompts resolved. */
    var values: seq<string>

    ghost function Abstract(): State
      reads this
    {
      State(hidden, Decoder(data, escaped, inCsi), skipLeadingLf, exited, values)
    }

    constructor ()
      ensures Abstract() == State(false, START, false, false, [])
    {
      hidden, data, escaped, inCsi, skipLeadingLf, exited, values := false, "", false, false, false, false, [];
    }

    method Open()
      modifies this
      ensures Abstract() == Opened(old(Abstract()))
    {
      hidden, data, escaped, inCsi := true, "", false, false;
    }

    method OnData(chunk: string) returns (handed: string)
      requires chunk != "" && !exited
      modifies this
      ensures (Abstract(), handed) == Received(old(Abstract()), chunk)
    {
      var text := chunk;
      if skipLeadingLf {
        skipLeadingLf := false;
        text := WithoutLeadingLf(chunk);
      }
      if hidden {
        handed := HiddenWaiter(text);
      } else {
        handed := text;
      }
    }

    /** The keystrokes of one chunk; the text behind Enter goes to the framer. */
    method HiddenWaiter(text: string) returns (rest: string)
      requires hidden && !exited && !skipLeadingLf
      modifies this
      ensures (Abstract(), rest) == Keyed(old(Abstract()), text)
    {
      ghost var start := Decoder(data, escaped, inCsi);
      for i := 0 to |text|
        invariant Abstract() == old(Abstract()).(decoder := Decoder(data, escaped, inCsi))
        invariant Decode(start, text, 0) == Decode(Decoder(data, escaped, inCsi), text, i)
      {
        var code := text[i];
        if escaped {
          escaped := false;
          if IsPrintable(code) {
            if code == '[' {
              inCsi := true;
            }
            continue;
          }
        }
        if inCsi {
          if IsFinal(code) {
            inCsi := false;
          }
          continue;
        }
        if code == ESC {
          escaped := true;
        } else if IsEnter(code) {
          rest := text[i + 1..];
          if code == '\r' {
            rest := WithoutLeadingLf(rest);
          }
          hidden := false;
          values := values + [data];
          data, escaped, inCsi := "", false, false;
          skipLeadingLf := code == '\r' && i == |text| - 1;
          return;
        } else if code == CTRL_C {
          hidden, data, escaped, inCsi := false, "", false, false;
          exited := true;
          return "";
        } else if code == DEL || code == BACKSPACE {
          data := WithoutLast(data);
        } else if code >= ' ' {
          data := data + [code];
        }
      }
      return "";
    }
  }

  /** The wired handler: what the listener hands on goes to the framer. */
  method FeedChunk(listener: Listener, framer: Framer, chunk: string)
    requires chunk != "" && !listener.exited && framer.Valid() && !framer.eof
    modifies listener, framer
    ensures listener.Abstract() == Received(old(listener.Abstract()), chunk).0
    ensures framer.Valid() && !framer.eof && framer.asks == old(framer.asks)
    ensures framer.stream == old(framer.stream) + Received(old(listener.Abstract()), chunk).1
  {
    var handed := listener.OnData(chunk);
    framer.HandleData(handed);
  }

  /**
   * The same over a whole stream, until the process is interrupted: the framer
   * ends up framing one text, that of the specification.
   */
  method Feed(listener: Listener, framer: Framer, chunks: seq<string>)
    requires forall i :: 0 <= i < |chunks| ==> chunks[i] != ""
    requires !listener.exited && framer.Valid() && !framer.eof
    modifies listener, framer
    ensures listener.Abstract() == ReceivedAll(old(listener.Abstract()), chunks).0
    ensures framer.Valid() && !framer.eof && framer.asks == old(framer.asks)
    ensures framer.stream == old(framer.stream) + ReceivedAll(old(listener.Abstract()), chunks).1
  {
    ghost var start := listener.Abstract();
    for i := 0 to |chunks|
      invariant listener.Abstract() == ReceivedAll(start, chunks[..i]).0
      invariant framer.Valid() && !framer.eof && framer.asks == old(framer.asks)
      invariant framer.stream == old(framer.stream) + ReceivedAll(start, chunks[..i]).1
    {
      OneMoreReceived(start, chunks, i);
      if !listener.exited {
        Regrouped(old(framer.stream), ReceivedAll(start, chunks[..i]).1, Received(listener.Abstract(), chunks[i]).1);
        FeedChunk(listener, framer, chunks[i]);
      }
    }
    assert chunks[..|chunks|] == chunks;
  }

  lemma {:induction false} Regrouped(a: string, b: string, c: string)
    ensures a + b + c == a + (b + c)
  {
  }

  lemma {:induction false} OneMoreReceived(s: State, chunks: seq<string>, i: nat)
    requires i < |chunks| && forall k :: 0 <= k < |chunks| ==> chunks[k] != ""
    ensures ReceivedAll(s, chunks[..i + 1]) ==
      var (before, handed) := ReceivedAll(s, chunks[..i]);
      if before.exited then (before, handed)
      else (Received(before, chunks[i]).0, handed + Received(before, chunks[i]).1)
  {
    assert chunks[..i + 1][..i] == chunks[..i];
  }

  /**
   * Hidden prompt and framer together: however the keys and the paste behind
   * them are cut, the prompts get the same lines.
   */
  lemma {:induction false} CutsFrameAlike(s: State, a: seq<string>, b: seq<string>, stream: string, asks: seq<Ask>)
    requires s.hidden && s.decoder == START && !s.exited
    requires forall i :: 0 <= i < |a| ==> a[i] != ""
    requires forall i :: 0 <= i < |b| ==> b[i] != ""
    requires Concat(a) == Concat(b) && !ReceivedAll(s, a).0.exited
    ensures Framed(stream + ReceivedAll(s, a).1, false, asks) == Framed(stream + ReceivedAll(s, b).1, false, asks)
  {
    CutsAgree(s, a, b);
  }
}
