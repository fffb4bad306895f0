/**
 * The bounded output of an agent operation: lines beyond a character budget
 * are dropped from the front, blanked at once and compacted in batches.
 */
module Collector {
  import opened JsText

  const MAX_OP_OUTPUT_CHARS := 16 * 1024 * 1024
  const COMPACT_BATCH := 65_536

  /** The characters of the lines from `i` on. */
  function CharsFrom(stream: seq<string>, i: nat): nat
    requires i <= |stream|
    decreases |stream| - i
  {
    if i == |stream| then 0 else |stream[i]| + CharsFrom(stream, i + 1)
  }

  /**
   * The lines from `d` on are the longest suffix of the stream within the
   * budget, or its last line alone when even that does not fit.
   */
  ghost predicate IsCut(stream: seq<string>, d: nat) {
    && (if stream == [] then d == 0 else d < |stream|)
    && (CharsFrom(stream, d) <= MAX_OP_OUTPUT_CHARS || d + 1 == |stream|)
    && forall e :: 0 <= e < d ==> CharsFrom(stream, e) > MAX_OP_OUTPUT_CHARS
  }

  lemma {:induction false} CutIsUnique(stream: seq<string>, a: nat, b: nat)
    requires IsCut(stream, a) && IsCut(stream, b)
    ensures a == b
  {
    var fromA, fromB := CharsFrom(stream, a), CharsFrom(stream, b);
  }

  function Header(omitted: nat): string {
    "\U{2026} " + Decimal(omitted) + " earlier output line(s) omitted by the agent"
  }

  /** What the answer to a stream of lines must be. */
  ghost predicate IsAnswer(stream: seq<string>, answer: seq<string>) {
    exists d: nat {:trigger IsCut(stream, d)} ::
      IsCut(stream, d) && answer == (if d == 0 then stream else [Header(d)] + stream[d..])
  }

  /** The header with a number in digits. */
  ghost predicate Tells(header: string, omitted: nat) {
    exists digits :: IsDigits(digits) && DigitsValue(digits) == omitted
      && header == "\U{2026} " + digits + " earlier output line(s) omitted by the agent"
  }

  /** An answer that is cut says how many lines are missing: the stream's first ones, as many as its header names. */
  lemma {:induction false} AnswerTellsOmitted(stream: seq<string>, answer: seq<string>)
    requires IsAnswer(stream, answer)
    ensures answer == stream ||
      exists omitted :: 0 < omitted < |stream| && answer[1..] == stream[omitted..] && Tells(answer[0], omitted)
  {
    var d: nat :| IsCut(stream, d) && answer == (if d == 0 then stream else [Header(d)] + stream[d..]);
    DecimalRoundTrip(d);
    assert IsDigits(Decimal(d)) && Tells(Header(d), d);
  }

  lemma {:induction false} CharsAppend(stream: seq<string>, line: string, i: nat)
    requires i <= |stream|
    ensures CharsFrom(stream + [line], i) == CharsFrom(stream, i) + |line|
    decreases |stream| - i
  {
    if i < |stream| {
      CharsAppend(stream, line, i + 1);
    } else {
      assert CharsFrom(stream + [line], i + 1) == 0;
    }
  }

  /** A longer stream drops at least as much: what exceeded the budget still does. */
  lemma {:induction false} DroppedStaysDropped(stream: seq<string>, line: string, d: nat)
    requires d <= |stream| && forall e :: 0 <= e < d ==> CharsFrom(stream, e) > MAX_OP_OUTPUT_CHARS
    ensures forall e :: 0 <= e < d ==> CharsFrom(stream + [line], e) > MAX_OP_OUTPUT_CHARS
  {
    forall e | 0 <= e < d ensures CharsFrom(stream + [line], e) > MAX_OP_OUTPUT_CHARS {
      CharsAppend(stream, line, e);
    }
  }

  class Output {
    var lines: seq<string>
    var keptChars: nat
    /** lines[..dropped] are discarded, blanked but not yet removed. */
    var dropped: nat
    var droppedEarlier: nat
    /** Every line collected so far. */
    ghost var stream: seq<string>

    ghost predicate Aligned()
      reads this
    {
      && dropped <= |lines| && droppedEarlier + |lines| == |stream|
      && (forall i :: 0 <= i < dropped ==> lines[i] == "")
      && (forall i :: dropped <= i < |lines| ==> lines[i] == stream[droppedEarlier + i])
      && keptChars == CharsFrom(stream, droppedEarlier + dropped)
    }

    /** The kept lines are exactly the answer's, and the dead prefix is short. */
    ghost predicate Valid()
      reads this
    {
      Aligned() && IsCut(stream, droppedEarlier + dropped) && dropped < COMPACT_BATCH
    }

    constructor ()
      ensures Valid() && stream == []
    {
      lines, keptChars, dropped, droppedEarlier, stream := [], 0, 0, 0, [];
    }

    /** Everything before the kept lines had to go: any longer suffix is over budget. */
    ghost predicate NothingDroppedInVain()
      reads this
      requires Aligned()
    {
      forall e :: 0 <= e < droppedEarlier + dropped ==> CharsFrom(stream, e) > MAX_OP_OUTPUT_CHARS
    }

    method Collect(line: string)
      requires Valid()
      modifies this
      ensures Valid() && stream == old(stream) + [line]
    {
      CharsAppend(stream, line, droppedEarlier + dropped);
      DroppedStaysDropped(stream, line, droppedEarlier + dropped);
      lines := lines + [line];
      keptChars := keptChars + |line|;
      stream := stream + [line];
      while keptChars > MAX_OP_OUTPUT_CHARS && |lines| - dropped > 1
        invariant Aligned() && dropped < |lines| && NothingDroppedInVain()
        invariant stream == old(stream) + [line]
        decreases |lines| - dropped
      {
        DropOldest();
      }
      if dropped >= COMPACT_BATCH {
        Compact();
      }
    }

    method DropOldest()
      requires Aligned() && dropped + 1 < |lines| && NothingDroppedInVain() && keptChars > MAX_OP_OUTPUT_CHARS
      modifies this`lines, this`keptChars, this`dropped
      ensures Aligned() && NothingDroppedInVain()
      ensures dropped == old(dropped) + 1 && |lines| == old(|lines|)
    {
      keptChars := keptChars - |lines[dropped]|;
      lines := lines[dropped := ""];
      dropped := dropped + 1;
    }

    method Compact()
      requires Aligned()
      modifies this`lines, this`dropped, this`droppedEarlier
      ensures Aligned() && dropped == 0
      ensures lines == old(lines[dropped..]) && droppedEarlier == old(droppedEarlier + dropped)
    {
      lines := lines[dropped..];
      droppedEarlier := droppedEarlier + dropped;
      dropped := 0;
    }

    method Answer() returns (answer: seq<string>)
      requires Valid()
      modifies this`lines
      ensures answer == lines && IsAnswer(stream, answer)
    {
      ghost var d := droppedEarlier + dropped;
      assert stream[d..] == lines[dropped..];
      if dropped + droppedEarlier > 0 {
        lines := [Header(dropped + droppedEarlier)] + lines[dropped..];
      } else {
        assert lines == stream;
      }
      answer := lines;
      assert IsCut(stream, d);
    }
  }

  /** The answer depends on the stream alone, and always ends with its last line. */
  lemma {:induction false} AnswerIsDetermined(stream: seq<string>, a: seq<string>, b: seq<string>)
    requires IsAnswer(stream, a) && IsAnswer(stream, b)
    ensures a == b
    ensures stream != [] ==> a != [] && a[|a| - 1] == stream[|stream| - 1]
  {
    var c: nat :| IsCut(stream, c) && a == (if c == 0 then stream else [Header(c)] + stream[c..]);
    var d: nat :| IsCut(stream, d) && b == (if d == 0 then stream else [Header(d)] + stream[d..]);
    CutIsUnique(stream, c, d);
  }
}
