/**
 * The CLI's line framer: chunks of stdin cut anywhere, complete lines queued,
 * prompts answered in order.
 */
module LineFramer {
  import opened JsText

  /**
   * An ordinary prompt with its default, or a hidden one, which comes here only
   * if a queued line or the end of the stream answers it at once; any other
   * hidden prompt takes keystrokes instead.
   */
  datatype Ask = Plain(defaultValue: string) | Raw

  type PlainAsk = ask: Ask | ask.Plain? witness Plain("")

  function Resolved(line: string, ask: Ask): string {
    match ask
    case Raw => line
    case Plain(defaultValue) => var t := Trim(line); if t != "" then t else defaultValue
  }

  /** An ordinary prompt gets the text of its line, or its default if the line has none. */
  lemma {:induction false} PlainGetsText(before: string, text: string, after: string, defaultValue: string)
    requires AllSpace(before) && AllSpace(after)
    requires text != "" && !IsSpace(text[0]) && !IsSpace(Last(text))
    ensures Resolved(before + text + after, Plain(defaultValue)) == text
    ensures Resolved(before + after, Plain(defaultValue)) == defaultValue
  {
    TrimLeavesText(before, text, after);
    TrimOfSpace(before + after);
  }

  /**
   * A hidden prompt gets the line as it is; an ordinary one gets a part of it
   * with no white space at its ends, and its default only for an empty one.
   */
  lemma {:induction false} ResolvedIff(line: string, defaultValue: string)
    ensures Resolved(line, Raw) == line
    ensures AllSpace(line) ==> Resolved(line, Plain(defaultValue)) == defaultValue
    ensures !AllSpace(line) ==>
      var text := Resolved(line, Plain(defaultValue));
      && text != "" && !IsSpace(text[0]) && !IsSpace(Last(text))
      && exists before, after :: line == before + text + after && AllSpace(before) && AllSpace(after)
  {
    if AllSpace(line) {
      TrimOfSpace(line);
    } else {
      var before, text, after := TrimSplits(line);
      TrimLeavesText(before, text, after);
    }
  }

  /** The lines of a whole stream; a last line without its newline counts once the stream has ended. */
  function Lines(stream: string, ended: bool): seq<string> {
    var pieces := SplitLines(stream);
    if ended && Last(pieces) != "" then pieces else Init(pieces)
  }

  /** The k-th answer: the k-th line of the stream, or no line at all past its end. */
  function AnswerTo(lines: seq<string>, asks: seq<Ask>, k: nat): (nat, string)
    requires k < |asks|
  {
    (k, Resolved(if k < |lines| then lines[k] else "", asks[k]))
  }

  function Answers(lines: seq<string>, asks: seq<Ask>, n: nat): (r: seq<(nat, string)>)
    requires n <= |asks|
    ensures |r| == n
  {
    if n == 0 then [] else Answers(lines, asks, n - 1) + [AnswerTo(lines, asks, n - 1)]
  }

  /** How many prompts have their answer: as many as there are lines, and all of them after the end. */
  function Answered(lines: seq<string>, ended: bool, asks: seq<Ask>): nat {
    if ended || |asks| <= |lines| then |asks| else |lines|
  }

  function Waiting(asks: seq<Ask>, n: nat): (r: seq<(nat, Ask)>)
    requires n <= |asks|
    ensures |r| == |asks| - n
    decreases |asks| - n
  {
    if n == |asks| then [] else [(n, asks[n])] + Waiting(asks, n + 1)
  }

  function Unread(lines: seq<string>, n: nat): seq<string> {
    if n <= |lines| then lines[n..] else []
  }

  /** More text only adds lines: a complete line is never read again differently. */
  lemma {:induction false} LinesGrow(stream: string, chunk: string)
    ensures var more := SplitLines(Last(SplitLines(stream)) + chunk);
      && Lines(stream + chunk, false) == Lines(stream, false) + Init(more)
      && Last(SplitLines(stream + chunk)) == Last(more)
  {
    SplitResumes(stream, chunk);
  }

  lemma {:induction false} LinesAtEnd(stream: string)
    ensures var tail := Last(SplitLines(stream));
      Lines(stream, true) == if tail != "" then Lines(stream, false) + [tail] else Lines(stream, false)
  {
  }

  lemma {:induction false} AnswersStand(lines: seq<string>, more: seq<string>, asks: seq<Ask>, n: nat)
    requires n <= |asks| && n <= |lines|
    ensures Answers(lines, asks, n) == Answers(lines + more, asks, n)
  {
    if n > 0 {
      AnswersStand(lines, more, asks, n - 1);
    }
  }

  lemma {:induction false} AnswersIgnoreLaterAsks(lines: seq<string>, asks: seq<Ask>, ask: Ask, n: nat)
    requires n <= |asks|
    ensures Answers(lines, asks, n) == Answers(lines, asks + [ask], n)
  {
    if n > 0 {
      AnswersIgnoreLaterAsks(lines, asks, ask, n - 1);
    }
  }

  /** The queued lines, the prompts that wait, and what was resolved so far, in order. */
  datatype Queue = Queue(buffer: seq<string>, waiters: seq<(nat, Ask)>, answers: seq<(nat, string)>)

  /** Prompts 0 to n - 1 have their answers, the others wait, and the lines past n are queued. */
  function Served(lines: seq<string>, asks: seq<Ask>, n: nat): Queue
    requires n <= |asks|
  {
    Queue(Unread(lines, n), Waiting(asks, n), Answers(lines, asks, n))
  }

  /** What the framer must hold: a function of the whole stream and the prompts alone. */
  function Framed(stream: string, ended: bool, asks: seq<Ask>): Queue {
    var lines := Lines(stream, ended);
    Served(lines, asks, Answered(lines, ended, asks))
  }

  /** No hidden prompt waits for a line. */
  predicate OnlyPlainWait(waiters: seq<(nat, Ask)>) {
    forall w :: w in waiters ==> w.1.Plain?
  }

  lemma {:induction false} AnswersAt(lines: seq<string>, asks: seq<Ask>, n: nat, k: nat)
    requires k < n <= |asks|
    ensures Answers(lines, asks, n)[k] == AnswerTo(lines, asks, k)
  {
    if k < n - 1 {
      AnswersAt(lines, asks, n - 1, k);
    }
  }

  /**
   * What that means for the k-th prompt: it has the k-th line; past the last
   * line it has nothing but its default once the stream ended, and waits before
   * that, which only an ordinary prompt does. While one waits, no line is queued.
   */
  lemma {:induction false} KthPromptGetsKthLine(stream: string, ended: bool, asks: seq<Ask>, k: nat)
    requires k < |asks| && OnlyPlainWait(Framed(stream, ended, asks).waiters)
    ensures var lines, q := Lines(stream, ended), Framed(stream, ended, asks);
      && (k < |lines| ==> k < |q.answers| && q.answers[k] == (k, Resolved(lines[k], asks[k])))
      && (k >= |lines| && ended ==> k < |q.answers| && q.answers[k] == (k, Resolved("", asks[k])))
      && (k >= |lines| && !ended ==> |q.answers| == |lines| && (k, asks[k]) in q.waiters && asks[k].Plain?)
      && (q.waiters != [] ==> q.buffer == [])
  {
    var lines := Lines(stream, ended);
    var n := Answered(lines, ended, asks);
    if k < n {
      AnswersAt(lines, asks, n, k);
    } else {
      WaitingAt(asks, n, k);
    }
  }

  /** The first waiter takes the next line, or nothing. */
  function FirstServed(q: Queue): Queue
    requires q.waiters != []
  {
    var (me, ask) := q.waiters[0];
    if q.buffer == [] then Queue([], q.waiters[1..], q.answers + [(me, Resolved("", ask))])
    else Queue(q.buffer[1..], q.waiters[1..], q.answers + [(me, Resolved(q.buffer[0], ask))])
  }

  function Flushed(q: Queue, eof: bool): Queue
    decreases |q.waiters|
  {
    if q.waiters != [] && (q.buffer != [] || eof) then Flushed(FirstServed(q), eof) else q
  }

  lemma {:induction false} ServeFirst(lines: seq<string>, asks: seq<Ask>, n: nat)
    requires n < |asks|
    ensures FirstServed(Served(lines, asks, n)) == Served(lines, asks, n + 1)
  {
  }

  /** Flushing goes on until the lines or the prompts run out. */
  lemma {:induction false} FlushServes(lines: seq<string>, ended: bool, asks: seq<Ask>, n: nat)
    requires n <= |asks| && (!ended ==> n <= |lines|)
    ensures Flushed(Served(lines, asks, n), ended) == Served(lines, asks, Answered(lines, ended, asks))
    decreases |asks| - n
  {
    if n < |asks| && (n < |lines| || ended) {
      ServeFirst(lines, asks, n);
      FlushServes(lines, ended, asks, n + 1);
    }
  }

  lemma {:induction false} MoreLines(lines: seq<string>, more: seq<string>, asks: seq<Ask>, n: nat)
    requires n <= |asks| && n <= |lines|
    ensures var q := Served(lines, asks, n); Served(lines + more, asks, n) == q.(buffer := q.buffer + more)
  {
    AnswersStand(lines, more, asks, n);
  }

  /** A chunk, wherever it was cut: its complete lines queue up and are served. */
  lemma {:induction false} Receive(stream: string, chunk: string, asks: seq<Ask>, q: Queue, tail: string)
    requires q == Framed(stream, false, asks) && tail == Last(SplitLines(stream))
    ensures var pieces := SplitLines(tail + chunk);
      && Flushed(Queue(q.buffer + Init(pieces), q.waiters, q.answers), false) == Framed(stream + chunk, false, asks)
      && Last(pieces) == Last(SplitLines(stream + chunk))
  {
    var lines, more := Lines(stream, false), Init(SplitLines(tail + chunk));
    var n := Answered(lines, false, asks);
    LinesGrow(stream, chunk);
    MoreLines(lines, more, asks, n);
    FlushServes(lines + more, false, asks, n);
  }

  function WithTail(buffer: seq<string>, tail: string): seq<string> {
    if tail != "" then buffer + [tail] else buffer
  }

  /** The end: an unfinished last line becomes a line, and nobody waits any longer. */
  lemma {:induction false} Close(stream: string, asks: seq<Ask>, q: Queue, tail: string)
    requires q == Framed(stream, false, asks) && tail == Last(SplitLines(stream))
    ensures Flushed(Queue(WithTail(q.buffer, tail), q.waiters, q.answers), true) == Framed(stream, true, asks)
  {
    var lines := Lines(stream, false);
    var n := Answered(lines, false, asks);
    LinesAtEnd(stream);
    MoreLines(lines, [tail], asks, n);
    FlushServes(Lines(stream, true), true, asks, n);
  }

  /** A prompt takes a queued line, or nothing after the end, and waits otherwise. */
  function PutInto(q: Queue, me: nat, ask: Ask, ended: bool): Queue {
    if q.buffer != [] then Queue(q.buffer[1..], q.waiters, q.answers + [(me, Resolved(q.buffer[0], ask))])
    else if ended then Queue([], q.waiters, q.answers + [(me, Resolved("", ask))])
    else Queue([], q.waiters + [(me, ask)], q.answers)
  }

  /** One more prompt leaves what the longer list of prompts determines; a hidden one does not come to wait. */
  lemma {:induction false} AskOne(stream: string, ended: bool, asks: seq<Ask>, ask: Ask, q: Queue)
    requires q == Framed(stream, ended, asks)
    requires ask.Plain? || q.buffer != [] || ended
    ensures PutInto(q, |asks|, ask, ended) == Framed(stream, ended, asks + [ask])
  {
    var lines := Lines(stream, ended);
    var n := Answered(lines, ended, asks);
    AnswersIgnoreLaterAsks(lines, asks, ask, n);
    WaitingWithOneMore(asks, ask, n);
    FlushServes(lines, ended, asks + [ask], n);
    if q.buffer != [] || ended {
      ServeFirst(lines, asks + [ask], n);
    }
  }

  lemma {:induction false} WaitingWithOneMore(asks: seq<Ask>, ask: Ask, n: nat)
    requires n <= |asks|
    ensures Waiting(asks + [ask], n) == Waiting(asks, n) + [(|asks|, ask)]
    decreases |asks| - n
  {
    if n < |asks| {
      WaitingWithOneMore(asks, ask, n + 1);
    }
  }

  lemma {:induction false} WaitingAt(asks: seq<Ask>, n: nat, k: nat)
    requires n <= k < |asks|
    ensures Waiting(asks, n)[k - n] == (k, asks[k])
    decreases |asks| - n
  {
    if n < k {
      WaitingAt(asks, n + 1, k);
    }
  }

  /** No answer is ever taken back: more text, the end or more prompts only add to them. */
  lemma {:induction false} AnswersOnlyGrow(stream: string, chunk: string, asks: seq<Ask>, ask: Ask)
    ensures Framed(stream, false, asks).answers <= Framed(stream + chunk, false, asks).answers
    ensures Framed(stream, false, asks).answers <= Framed(stream, true, asks).answers
    ensures Framed(stream, false, asks).answers <= Framed(stream, false, asks + [ask]).answers
  {
    var lines := Lines(stream, false);
    var n := Answered(lines, false, asks);
    LinesGrow(stream, chunk);
    LinesAtEnd(stream);
    AnswersStand(lines, Init(SplitLines(Last(SplitLines(stream)) + chunk)), asks, n);
    AnswersStand(lines, [Last(SplitLines(stream))], asks, n);
    AnswersIgnoreLaterAsks(lines, asks, ask, n);
    AnswersPrefix(Lines(stream + chunk, false), asks, n, Answered(Lines(stream + chunk, false), false, asks));
    AnswersPrefix(Lines(stream, true), asks, n, |asks|);
    AnswersPrefix(lines, asks + [ask], n, Answered(lines, false, asks + [ask]));
  }

  lemma {:induction false} AnswersPrefix(lines: seq<string>, asks: seq<Ask>, m: nat, n: nat)
    requires m <= n <= |asks|
    ensures Answers(lines, asks, m) <= Answers(lines, asks, n)
  {
    if m < n {
      AnswersPrefix(lines, asks, m, n - 1);
    }
  }

  class Framer {
    var lineBuffer: seq<string>
    var pendingTail: string
    var eof: bool
    /** Only ordinary prompts wait. */
    var lineWaiters: seq<(nat, PlainAsk)>
    /** What was resolved so far, in order: the prompt's number and its answer. */
    var answers: seq<(nat, string)>
    var asked: nat
    /** All text received, and every prompt so far. */
    ghost var stream: string
    ghost var asks: seq<Ask>

    ghost predicate Valid()
      reads this
    {
      && Queue(lineBuffer, lineWaiters, answers) == Framed(stream, eof, asks)
      && pendingTail == (if eof then "" else Last(SplitLines(stream)))
      && asked == |asks|
    }

    constructor ()
      ensures Valid() && stream == "" && !eof && asks == []
    {
      lineBuffer, pendingTail, eof, lineWaiters, answers, asked := [], "", false, [], [], 0;
      stream, asks := "", [];
    }

    method HandleData(chunk: string)
      requires Valid() && !eof
      modifies this`lineBuffer, this`pendingTail, this`lineWaiters, this`answers, this`stream
      ensures Valid() && stream == old(stream) + chunk && !eof && asks == old(asks)
    {
      Receive(stream, chunk, asks, Queue(lineBuffer, lineWaiters, answers), pendingTail);
      TakeChunk(chunk);
      stream := stream + chunk;
    }

    /** The complete lines go to the queue and are served, the rest becomes the tail. */
    method TakeChunk(chunk: string)
      modifies this`lineBuffer, this`pendingTail, this`lineWaiters, this`answers
      ensures var pieces := SplitLines(old(pendingTail) + chunk);
        && pendingTail == Last(pieces)
        && Queue(lineBuffer, lineWaiters, answers)
           == Flushed(Queue(old(lineBuffer) + Init(pieces), old(lineWaiters), old(answers)), eof)
    {
      var pieces := SplitLines(pendingTail + chunk);
      pendingTail := Last(pieces);
      lineBuffer := lineBuffer + Init(pieces);
      FlushLineWaiters();
    }

    method HandleEnd()
      requires Valid() && !eof
      modifies this`lineBuffer, this`pendingTail, this`lineWaiters, this`answers, this`eof
      ensures Valid() && stream == old(stream) && eof && asks == old(asks)
    {
      Close(stream, asks, Queue(lineBuffer, lineWaiters, answers), pendingTail);
      TakeTail();
    }

    /** A final line without its newline still counts, and everybody is served. */
    method TakeTail()
      modifies this`lineBuffer, this`pendingTail, this`lineWaiters, this`answers, this`eof
      ensures eof && pendingTail == ""
      ensures Queue(lineBuffer, lineWaiters, answers)
           == Flushed(Queue(WithTail(old(lineBuffer), old(pendingTail)), old(lineWaiters), old(answers)), true)
    {
      eof := true;
      if pendingTail != "" {
        lineBuffer := lineBuffer + [pendingTail];
        pendingTail := "";
      }
      FlushLineWaiters();
    }

    /**
     * The stream ends while a hidden prompt is open: an unfinished line is put
     * back after the end was noted, and nobody is served unless there was one.
     * This does what `HandleEnd` does if and only if there was no unfinished
     * line and nobody waited; otherwise that line, or a waiting prompt, is lost.
     */
    method EndWhileHidden()
      requires Valid() && !eof
      modifies this`lineBuffer, this`pendingTail, this`lineWaiters, this`answers, this`eof
      ensures eof && stream == old(stream) && asks == old(asks)
      ensures Valid() <==> old(pendingTail) == "" && old(lineWaiters) == []
      ensures old(lineWaiters) == [] ==> lineBuffer == old(lineBuffer)
      ensures old(pendingTail) == "" ==> lineWaiters == old(lineWaiters)
    {
      Close(stream, asks, Queue(lineBuffer, lineWaiters, answers), pendingTail);
      eof := true;
      if pendingTail != "" {
        FlushLineWaiters();
      }
    }

    method FlushLineWaiters()
      modifies this`lineBuffer, this`lineWaiters, this`answers
      ensures Queue(lineBuffer, lineWaiters, answers) == Flushed(old(Queue(lineBuffer, lineWaiters, answers)), eof)
    {
      while |lineWaiters| > 0 && (|lineBuffer| > 0 || eof)
        invariant Flushed(Queue(lineBuffer, lineWaiters, answers), eof)
               == Flushed(old(Queue(lineBuffer, lineWaiters, answers)), eof)
        decreases |lineWaiters|
      {
        var (me, ask) := lineWaiters[0];
        lineWaiters := lineWaiters[1..];
        if |lineBuffer| > 0 {
          answers := answers + [(me, Resolved(lineBuffer[0], ask))];
          lineBuffer := lineBuffer[1..];
        } else {
          answers := answers + [(me, Resolved("", ask))];
        }
      }
    }

    /**
     * Put a question: a queued line or the end of the stream answers it at
     * once, otherwise it waits. A hidden prompt comes here for the former only.
     */
    method Put(ask: Ask)
      requires Valid() && (ask.Plain? || |lineBuffer| > 0 || eof)
      modifies this`lineBuffer, this`lineWaiters, this`answers, this`asked, this`asks
      ensures Valid() && stream == old(stream) && eof == old(eof) && asks == old(asks) + [ask]
    {
      AskOne(stream, eof, asks, ask, Queue(lineBuffer, lineWaiters, answers));
      AnswerOrWait(asked, ask);
      asks := asks + [ask];
      asked := asked + 1;
    }

    method AnswerOrWait(me: nat, ask: Ask)
      requires ask.Plain? || |lineBuffer| > 0 || eof
      modifies this`lineBuffer, this`lineWaiters, this`answers
      ensures Queue(lineBuffer, lineWaiters, answers)
           == PutInto(old(Queue(lineBuffer, lineWaiters, answers)), me, ask, eof)
    {
      if |lineBuffer| > 0 {
        answers := answers + [(me, Resolved(lineBuffer[0], ask))];
        lineBuffer := lineBuffer[1..];
      } else if eof {
        answers := answers + [(me, Resolved("", ask))];
      } else {
        lineWaiters := lineWaiters + [(me, ask)];
      }
    }
  }

  /**
   * A pipe whose last line has no newline, read by a hidden prompt when it
   * ends: the line is still held back, and the next prompt would get nothing
   * instead of it.
   */
  method PartialLineIsLost(text: string) returns (framer: Framer)
    requires text != "" && '\n' !in text
    ensures framer.eof && framer.stream == text && framer.asks == [] && Lines(text, true) == [text]
    ensures framer.lineBuffer == [] && !framer.Valid()
  {
    framer := new Framer();
    framer.HandleData(text);
    NoBreakIsOnePiece(text);
    framer.EndWhileHidden();
  }

  /** An ordinary prompt that waits when the stream ends under a hidden one waits for ever. */
  method WaiterIsLost(defaultValue: string) returns (framer: Framer)
    ensures framer.eof && framer.stream == "" && framer.asks == [Plain(defaultValue)]
    ensures framer.lineWaiters == [(0, Plain(defaultValue))] && !framer.Valid()
  {
    framer := new Framer();
    framer.Put(Plain(defaultValue));
    assert Waiting([Plain(defaultValue)], 0) == [(0, Plain(defaultValue))];
    framer.EndWhileHidden();
  }
}
