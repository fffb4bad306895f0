/** The pieces of JavaScript string handling that several modules share. */
module JsText {

  /** JavaScript's white space: what `\s` matches and what `trim` removes. */
  predicate IsSpace(c: char) {
    || c in "\t\n\r "
    || c == '\U{0B}' || c == '\U{0C}' || c == '\U{A0}' || c == '\U{1680}'
    || '\U{2000}' <= c <= '\U{200A}'
    || c == '\U{2028}' || c == '\U{2029}' || c == '\U{202F}' || c == '\U{205F}'
    || c == '\U{3000}' || c == '\U{FEFF}'
  }

  function TrimStart(s: string): (t: string)
    ensures t == [] || !IsSpace(t[0])
  {
    if s == [] || !IsSpace(s[0]) then s else TrimStart(s[1..])
  }

  function TrimEnd(s: string): (t: string)
    ensures t <= s
    ensures t == [] || !IsSpace(t[|t| - 1])
  {
    if s == [] || !IsSpace(s[|s| - 1]) then s else TrimEnd(s[..|s| - 1])
  }

  /** `s.trim()` */
  function Trim(s: string): string {
    TrimEnd(TrimStart(s))
  }

  lemma {:induction false} TrimIdentity(s: string)
    requires s == [] || (!IsSpace(s[0]) && !IsSpace(s[|s| - 1]))
    ensures Trim(s) == s
  {
  }

  predicate AllSpace(s: string) {
    forall i :: 0 <= i < |s| ==> IsSpace(s[i])
  }

  lemma {:induction false} TrimStartStops(gap: string, rest: string)
    requires AllSpace(gap) && (rest == "" || !IsSpace(rest[0]))
    ensures TrimStart(gap + rest) == rest
  {
    if gap == [] {
      assert gap + rest == rest;
    } else {
      assert (gap + rest)[1..] == gap[1..] + rest;
      TrimStartStops(gap[1..], rest);
    }
  }

  lemma {:induction false} TrimEndStops(front: string, gap: string)
    requires AllSpace(gap) && (front == "" || !IsSpace(Last(front)))
    ensures TrimEnd(front + gap) == front
  {
    if gap == [] {
      assert front + gap == front;
    } else {
      assert (front + gap)[..|front + gap| - 1] == front + Init(gap);
      TrimEndStops(front, Init(gap));
    }
  }

  /** White space around a text that has none at its ends is all that goes. */
  lemma {:induction false} TrimLeavesText(before: string, text: string, after: string)
    requires AllSpace(before) && AllSpace(after)
    requires text != "" && !IsSpace(text[0]) && !IsSpace(Last(text))
    ensures Trim(before + text + after) == text
  {
    assert before + text + after == before + (text + after);
    TrimStartStops(before, text + after);
    TrimEndStops(text, after);
  }

  lemma {:induction false} TrimOfSpace(s: string)
    requires AllSpace(s)
    ensures Trim(s) == ""
  {
    TrimStartStops(s, "");
    assert s + "" == s;
  }

  lemma {:induction false} TrimSplits(s: string) returns (before: string, text: string, after: string)
    requires !AllSpace(s)
    ensures s == before + text + after && AllSpace(before) && AllSpace(after)
    ensures text != "" && !IsSpace(text[0]) && !IsSpace(Last(text))
  {
    if IsSpace(s[0]) {
      before, text, after := TrimSplits(s[1..]);
      before := [s[0]] + before;
    } else if IsSpace(Last(s)) {
      before, text, after := TrimSplits(Init(s));
      after := after + [Last(s)];
    } else {
      before, text, after := "", s, "";
    }
  }

  /** `s.split(/\r?\n/)` */
  function SplitLines(s: string): (r: seq<string>)
    ensures |r| >= 1
  {
    if s == [] then [[]]
    else if s[0] == '\n' then [[]] + SplitLines(s[1..])
    else if s[0] == '\r' && |s| > 1 && s[1] == '\n' then [[]] + SplitLines(s[2..])
    else
      var r := SplitLines(s[1..]);
      [[s[0]] + r[0]] + r[1..]
  }

  function Last<T>(s: seq<T>): T
    requires s != []
  {
    s[|s| - 1]
  }

  function Init<T>(s: seq<T>): seq<T>
    requires s != []
  {
    s[..|s| - 1]
  }

  lemma {:induction false} SinglePieceIsWhole(s: string)
    requires |SplitLines(s)| == 1
    ensures SplitLines(s)[0] == s
  {
    if s != [] {
      SinglePieceIsWhole(s[1..]);
    }
  }

  /** A character that breaks no line goes to the front of the first piece. */
  function Onto(c: char, r: seq<string>): seq<string>
    requires r != []
  {
    [[c] + r[0]] + r[1..]
  }

  /** Does a line break start right here, and how long is it? */
  function BreakLength(s: string): nat
    requires s != []
  {
    if s[0] == '\n' then 1
    else if s[0] == '\r' && |s| > 1 && s[1] == '\n' then 2
    else 0
  }

  lemma {:induction false} SplitAtFront(s: string)
    requires s != []
    ensures BreakLength(s) == 0 ==> SplitLines(s) == Onto(s[0], SplitLines(s[1..]))
    ensures BreakLength(s) > 0 ==> SplitLines(s) == [[]] + SplitLines(s[BreakLength(s)..])
  {
  }

  /**
   * Splitting can be resumed: the complete lines of `a` stand, and only its
   * unfinished last piece has to be split again together with what follows.
   */
  lemma {:induction false} SplitResumes(a: string, b: string)
    ensures SplitLines(a + b) == Init(SplitLines(a)) + SplitLines(Last(SplitLines(a)) + b)
  {
    if a == [] {
      assert a + b == b;
    } else if BreakLength(a) > 0 {
      SplitResumes(a[BreakLength(a)..], b);
      ResumesPastBreak(a, b);
    } else if |SplitLines(a[1..])| == 1 {
      ResumesInFirstLine(a, b);
    } else {
      SplitResumes(a[1..], b);
      ResumesPastCharacter(a, b);
    }
  }

  /** A line break at the front of `a` is one at the front of `a + b`. */
  lemma {:induction false} SplitPastBreak(a: string, b: string)
    requires a != [] && BreakLength(a) > 0
    ensures SplitLines(a + b) == [[]] + SplitLines(a[BreakLength(a)..] + b)
  {
    assert (a + b)[BreakLength(a)..] == a[BreakLength(a)..] + b;
    SplitAtFront(a + b);
  }

  lemma {:induction false} PrependPiece(piece: string, r: seq<string>, tail: seq<string>)
    requires r != []
    ensures Init([piece] + r) + tail == [piece] + (Init(r) + tail) && Last([piece] + r) == Last(r)
  {
  }

  lemma {:induction false} ResumesPastBreak(a: string, b: string)
    requires a != [] && BreakLength(a) > 0
    requires var r := SplitLines(a[BreakLength(a)..]);
      SplitLines(a[BreakLength(a)..] + b) == Init(r) + SplitLines(Last(r) + b)
    ensures SplitLines(a + b) == Init(SplitLines(a)) + SplitLines(Last(SplitLines(a)) + b)
  {
    var r := SplitLines(a[BreakLength(a)..]);
    SplitAtFront(a);
    SplitPastBreak(a, b);
    PrependPiece([], r, SplitLines(Last(r) + b));
  }

  lemma {:induction false} ResumesInFirstLine(a: string, b: string)
    requires a != [] && BreakLength(a) == 0 && |SplitLines(a[1..])| == 1
    ensures SplitLines(a + b) == Init(SplitLines(a)) + SplitLines(Last(SplitLines(a)) + b)
  {
    SplitAtFront(a);
    SinglePieceIsWhole(a[1..]);
    assert [a[0]] + a[1..] == a;
    assert Last(SplitLines(a)) == a;
    assert Init(SplitLines(a)) == [];
  }

  /** A character that ends no line goes to the front of the first piece. */
  lemma {:induction false} SplitPastCharacter(a: string, b: string)
    requires a != [] && BreakLength(a) == 0 && |SplitLines(a[1..])| > 1
    ensures SplitLines(a + b) == Onto(a[0], SplitLines(a[1..] + b))
  {
    assert (a + b)[1..] == a[1..] + b;
    SplitAtFront(a + b);
  }

  lemma {:induction false} ResumesPastCharacter(a: string, b: string)
    requires a != [] && BreakLength(a) == 0 && |SplitLines(a[1..])| > 1
    requires var r := SplitLines(a[1..]); SplitLines(a[1..] + b) == Init(r) + SplitLines(Last(r) + b)
    ensures SplitLines(a + b) == Init(SplitLines(a)) + SplitLines(Last(SplitLines(a)) + b)
  {
    var r := SplitLines(a[1..]);
    SplitAtFront(a);
    SplitPastCharacter(a, b);
    OntoKeepsLast(a[0], r);
    OntoExtends(a[0], Init(r), SplitLines(Last(r) + b));
  }

  lemma {:induction false} OntoExtends(c: char, x: seq<string>, y: seq<string>)
    requires x != []
    ensures Onto(c, x + y) == Onto(c, x) + y
  {
    assert (x + y)[1..] == x[1..] + y;
  }

  lemma {:induction false} OntoKeepsLast(c: char, r: seq<string>)
    requires |r| > 1
    ensures Init(Onto(c, r)) == Onto(c, Init(r)) && Last(Onto(c, r)) == Last(r)
  {
  }

  /** A text without a line feed is one piece. */
  lemma {:induction false} NoBreakIsOnePiece(s: string)
    requires '\n' !in s
    ensures SplitLines(s) == [s]
  {
    if s != [] {
      SplitAtFront(s);
      NoBreakIsOnePiece(s[1..]);
      assert [s[0]] + s[1..] == s;
    }
  }

  /** A line without a line feed of its own, ended by one, is split off whole. */
  lemma {:induction false} SplitOffLine(line: string, rest: string)
    requires '\n' !in line && (line == [] || Last(line) != '\r')
    ensures SplitLines(line + "\n" + rest) == [line] + SplitLines(rest)
  {
    var s := line + "\n" + rest;
    SplitAtFront(s);
    if line == [] {
      assert s[1..] == rest;
    } else {
      assert s[1..] == line[1..] + "\n" + rest;
      assert BreakLength(s) == 0;
      SplitOffLine(line[1..], rest);
      assert [line[0]] + line[1..] == line;
    }
  }

  /** ... and so is one ended by a carriage return and a line feed. */
  lemma {:induction false} SplitOffCrLf(line: string, rest: string)
    requires '\n' !in line
    ensures SplitLines(line + "\r\n" + rest) == [line] + SplitLines(rest)
  {
    var s := line + "\r\n" + rest;
    SplitAtFront(s);
    if line == [] {
      assert s[2..] == rest;
    } else {
      assert s[1..] == line[1..] + "\r\n" + rest;
      assert BreakLength(s) == 0;
      SplitOffCrLf(line[1..], rest);
      assert [line[0]] + line[1..] == line;
    }
  }

  /** `s.split(c)` for a one-character separator. */
  function SplitOn(s: string, c: char): (r: seq<string>)
    ensures |r| >= 1
  {
    if s == [] then [[]]
    else
      var r := SplitOn(s[1..], c);
      if s[0] == c then [[]] + r else [[s[0]] + r[0]] + r[1..]
  }

  lemma {:induction false} SplitOnNothing(s: string, c: char)
    requires c !in s
    ensures SplitOn(s, c) == [s]
  {
    if s != [] {
      SplitOnNothing(s[1..], c);
      assert [s[0]] + s[1..] == s;
    }
  }

  lemma {:induction false} SplitOnce(a: string, c: char, b: string)
    requires c !in a
    ensures SplitOn(a + [c] + b, c) == [a] + SplitOn(b, c)
  {
    var s := a + [c] + b;
    if a == [] {
      assert s[1..] == b;
    } else {
      assert s[1..] == a[1..] + [c] + b;
      SplitOnce(a[1..], c, b);
      assert [a[0]] + a[1..] == a;
    }
  }

  lemma {:induction false} SplitOnJoined(a: string, c: char, b: string)
    ensures SplitOn(a + [c] + b, c) == SplitOn(a, c) + SplitOn(b, c)
  {
    var s := a + [c] + b;
    if a == [] {
      assert s[1..] == b;
    } else {
      assert s[1..] == a[1..] + [c] + b;
      SplitOnJoined(a[1..], c, b);
      OntoExtends(a[0], SplitOn(a[1..], c), SplitOn(b, c));
    }
  }

  function DigitChar(d: nat): (c: char)
    requires d < 10
    ensures '0' <= c <= '9'
  {
    '0' + d as char
  }

  predicate IsDigits(s: string) {
    forall i :: 0 <= i < |s| ==> '0' <= s[i] <= '9'
  }

  /** `String(n)` of a whole number below 10^21. */
  function Decimal(n: nat): (s: string)
    ensures s != [] && IsDigits(s)
  {
    if n < 10 then [DigitChar(n)] else Decimal(n / 10) + [DigitChar(n % 10)]
  }

  function DigitsValue(s: string): nat
    requires IsDigits(s)
  {
    if s == [] then 0 else 10 * DigitsValue(s[..|s| - 1]) + (s[|s| - 1] - '0') as nat
  }

  lemma {:induction false} DecimalRoundTrip(n: nat)
    ensures DigitsValue(Decimal(n)) == n
  {
    var s := Decimal(n);
    if n < 10 {
      assert s[..0] == [];
    } else {
      DecimalRoundTrip(n / 10);
      assert s[..|s| - 1] == Decimal(n / 10);
    }
  }

  /** `chunks.join('')` */
  function Concat(chunks: seq<string>): string {
    if chunks == [] then "" else Concat(chunks[..|chunks| - 1]) + chunks[|chunks| - 1]
  }
}
