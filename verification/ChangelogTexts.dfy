/**
 * The texts of the changelog page: a release's tagline is its opening quote,
 * and each of its items is a run of whole lines joined.
 */
module ChangelogTexts {
  import opened JsText
  import opened ChangelogLines
  import opened Changelog
  import opened Optional

  // ---------------------------------------------------------------------
  // The tagline and the items a section's lines give
  // ---------------------------------------------------------------------

  /** The first line from an index on that shows ink or opens a group. */
  function FirstShown(lines: seq<Line>, from: nat, to: nat): (q: nat)
    requires from <= to <= |lines|
    ensures from <= q <= to
    decreases |lines| - from
  {
    if from == to || lines[from].Heading? || InkOf(lines[from]) != [] then from else FirstShown(lines, from + 1, to)
  }

  /** Where a quote that is open at an index ends: at the first line that is neither quoted nor blank. */
  function QuoteEnd(lines: seq<Line>, from: nat, to: nat): (e: nat)
    requires from <= to <= |lines|
    ensures from <= e <= to
    decreases |lines| - from
  {
    if from == to || !(lines[from].Quote? || lines[from].Blank?) then from else QuoteEnd(lines, from + 1, to)
  }

  /** What the quote lines from one index to another say. */
  function Quotes(lines: seq<Line>, from: nat, to: nat): seq<string>
    requires from <= to <= |lines|
  {
    if from == to then []
    else Quotes(lines, from, to - 1) + (if lines[to - 1].Quote? then [lines[to - 1].quoted] else [])
  }

  /** What the bullets and the lines of text from one index to another say. */
  function Texts(lines: seq<Line>, from: nat, to: nat): seq<string>
    requires from <= to <= |lines|
  {
    if from == to then [] else Texts(lines, from, to - 1) + TextOf(lines[to - 1])
  }

  function TextOf(line: Line): seq<string> {
    match line
    case Bullet(text) => [text]
    case Text(words, _) => [words]
    case _ => []
  }

  /** The words of the quote that comes before everything else a section shows, if there is one. */
  function TaglineIn(lines: seq<Line>, from: nat, to: nat): string
    requires from <= to <= |lines|
  {
    var q := FirstShown(lines, from, to);
    if q == to || !lines[q].Quote? then "" else Spaced(WordsRead(Quotes(lines, q, QuoteEnd(lines, q, to))))
  }

  /** Only quote lines and blank ones. */
  predicate IsQuoteRun(lines: seq<Line>, from: nat, to: nat)
    requires from <= to <= |lines|
  {
    forall i :: from <= i < to ==> lines[i].Quote? || lines[i].Blank?
  }

  /** The lines of an item: a quote that it opens with, joined by itself, and the lines that follow. */
  function ItemParts(lines: seq<Line>, a: nat, b: nat, c: nat): seq<string>
    requires a <= b <= c <= |lines|
  {
    var quote := Squashed(Quotes(lines, a, b));
    (if quote == "" then [] else [quote]) + Texts(lines, b, c)
  }

  /** The text is some consecutive whole lines, joined. */
  ghost predicate IsItem(text: string, lines: seq<Line>, from: nat, to: nat)
    requires from <= to <= |lines|
  {
    exists a: nat, b: nat, c: nat ::
      from <= a <= b <= c <= to && IsQuoteRun(lines, a, b) && text == Spaced(WordsRead(ItemParts(lines, a, b, c)))
  }

  ghost predicate HoldsItems(r: Release, lines: seq<Line>, from: nat, to: nat)
    requires from <= to <= |lines|
  {
    forall g, i :: 0 <= g < |r.groups| && 0 <= i < |r.groups[g].items| ==> IsItem(r.groups[g].items[i], lines, from, to)
  }

  // ---------------------------------------------------------------------
  // How far the tagline is
  // ---------------------------------------------------------------------

  /** Nothing shown yet; in the opening quote; past it; or past something else. */
  datatype Front = Bare | Quoting(quotes: seq<string>) | Tagged(quotes: seq<string>) | Untagged

  function FrontOf(lines: seq<Line>, from: nat, n: nat): Front
    requires from <= n <= |lines|
  {
    var q := FirstShown(lines, from, n);
    if q == n then Bare
    else if !lines[q].Quote? then Untagged
    else
      var e := QuoteEnd(lines, q, n);
      if e == n then Quoting(Quotes(lines, q, n)) else Tagged(Quotes(lines, q, e))
  }

  function FrontStep(front: Front, line: Line): Front {
    match front
    case Bare =>
      if line.Quote? && InkOf(line) != [] then Quoting([line.quoted])
      else if line.Heading? || InkOf(line) != [] then Untagged
      else Bare
    case Quoting(quotes) =>
      if line.Quote? then Quoting(quotes + [line.quoted]) else if line.Blank? then front else Tagged(quotes)
    case _ => front
  }

  lemma {:induction false} FirstShownGrows(lines: seq<Line>, from: nat, n: nat)
    requires from <= n < |lines|
    ensures var q := FirstShown(lines, from, n);
      FirstShown(lines, from, n + 1) ==
        if q < n then q else if lines[n].Heading? || InkOf(lines[n]) != [] then n else n + 1
    decreases |lines| - from
  {
    if from < n && !lines[from].Heading? && InkOf(lines[from]) == [] {
      FirstShownGrows(lines, from + 1, n);
    }
  }

  lemma {:induction false} QuoteEndGrows(lines: seq<Line>, from: nat, n: nat)
    requires from <= n < |lines|
    ensures var e := QuoteEnd(lines, from, n);
      QuoteEnd(lines, from, n + 1) == if e < n || !(lines[n].Quote? || lines[n].Blank?) then e else n + 1
    decreases |lines| - from
  {
    if from < n && (lines[from].Quote? || lines[from].Blank?) {
      QuoteEndGrows(lines, from + 1, n);
    }
  }

  lemma {:induction false} FrontGrows(lines: seq<Line>, from: nat, n: nat)
    requires from <= n < |lines|
    ensures FrontOf(lines, from, n + 1) == FrontStep(FrontOf(lines, from, n), lines[n])
  {
    var q := FirstShown(lines, from, n);
    FirstShownGrows(lines, from, n);
    QuoteEndGrows(lines, q, n);
    if q == n {
      QuoteEndGrows(lines, n, n);
      assert Quotes(lines, n, n) == [];
    }
  }

  // ---------------------------------------------------------------------
  // The parser at the front of a release
  // ---------------------------------------------------------------------

  lemma {:induction false} InklessHasNoWords(parts: seq<string>)
    requires Inks(parts) == []
    ensures WordsRead(parts) == []
    ensures parts != [] ==> !EndsInHyphen(Last(parts))
  {
    if parts != [] {
      InklessHasNoWords(Init(parts));
      InkIffSolid(Last(parts));
      NoInkNoWords(Last(parts));
    }
  }

  lemma {:induction false} NoInkNoWords(s: string)
    requires AllSpace(s)
    ensures Words(s) == []
  {
    if s != [] {
      NoInkNoWords(s[1..]);
    }
  }

  /** Lines that show nothing may stand in front. */
  lemma {:induction false} InklessFront(before: seq<string>, parts: seq<string>)
    requires Inks(before) == []
    ensures WordsRead(before + parts) == WordsRead(parts)
  {
    if parts == [] {
      assert before + parts == before;
      InklessHasNoWords(before);
    } else {
      assert Init(before + parts) == before + Init(parts);
      InklessFront(before, Init(parts));
      InklessHasNoWords(before);
      assert Last(before + parts) == Last(parts);
    }
  }

  /** The open quote is the opening one, behind lines that show nothing. */
  ghost predicate Opens(quote: seq<string>, quotes: seq<string>) {
    && |quotes| <= |quote| && quote[|quote| - |quotes|..] == quotes
    && Inks(quote[..|quote| - |quotes|]) == [] && Inks(quotes) != []
  }

  ghost predicate AtFront(s: State, front: Front)
    requires s.releases != []
  {
    var r := Last(s.releases);
    match front
    case Bare => r.tagline == "" && r.groups == [] && Inks(s.item) == [] && Inks(s.quote) == []
    case Quoting(quotes) => r.tagline == "" && r.groups == [] && s.item == [] && Opens(s.quote, quotes)
    case Tagged(quotes) => r.tagline == Spaced(WordsRead(quotes)) != ""
    case Untagged => r.tagline == "" && (r.groups != [] || (Inks(s.item) != [] && s.quote == []))
  }

  lemma {:induction false} OpensGrows(quote: seq<string>, quotes: seq<string>, line: string)
    ensures Opens(quote, quotes) ==> Opens(quote + [line], quotes + [line])
    ensures Inks(quote) == [] && Ink(line) != [] ==> Opens(quote + [line], [line])
    ensures Inks(quote) == [] && Ink(line) == [] ==> Inks(quote + [line]) == []
  {
    OneMorePart(quote, line);
    OneMorePart(quotes, line);
    var more := quote + [line];
    assert more[|more| - 1..] == [line] && more[..|more| - 1] == quote;
    if Opens(quote, quotes) {
      var k := |quote| - |quotes|;
      assert more[k..] == quote[k..] + [line] && more[..k] == quote[..k];
    }
  }

  lemma {:induction false} OpenedIsTagline(quote: seq<string>, quotes: seq<string>)
    requires Opens(quote, quotes)
    ensures Squashed(quote) == Spaced(WordsRead(quotes)) != ""
  {
    var k := |quote| - |quotes|;
    assert quote == quote[..k] + quote[k..];
    InklessFront(quote[..k], quotes);
    SquashIsItsWords(quote);
    SquashIsItsWords(quotes);
    SquashKeepsInk(quotes);
  }

  lemma {:induction false} FlushAtFront(s: State)
    requires s.releases != []
    ensures var t := Flushed(s);
      && t.releases != [] && Last(t.releases).tagline == Last(s.releases).tagline
      && (Inks(s.item) == [] ==> t.releases == s.releases)
      && (Inks(s.item) != [] || Last(s.releases).groups != [] ==> Last(t.releases).groups != [])
  {
    SquashKeepsInk(s.item);
  }

  lemma {:induction false} QuoteWhenBare(s: State, line: Line)
    requires s.releases != [] && AtFront(s, Bare) && line.Quote?
    ensures AtFront(QuoteRead(s, line.quoted), FrontStep(Bare, line))
  {
    FlushAtFront(s);
    OpensGrows(s.quote, [], line.quoted);
  }

  lemma {:induction false} QuoteWhenQuoting(s: State, quotes: seq<string>, line: Line)
    requires s.releases != [] && AtFront(s, Quoting(quotes)) && line.Quote?
    ensures AtFront(QuoteRead(s, line.quoted), FrontStep(Quoting(quotes), line))
  {
    FlushAtFront(s);
    SquashKeepsInk([]);
    OpensGrows(s.quote, quotes, line.quoted);
  }

  lemma {:induction false} QuoteAtFront(s: State, front: Front, line: Line)
    requires s.releases != [] && AtFront(s, front) && line.Quote?
    ensures AtFront(QuoteRead(s, line.quoted), FrontStep(front, line))
  {
    match front
    case Bare => QuoteWhenBare(s, line);
    case Quoting(quotes) => QuoteWhenQuoting(s, quotes, line);
    case _ => FlushAtFront(s);
  }

  function Past(front: Front): Front {
    if front.Quoting? then Tagged(front.quotes) else front
  }

  lemma {:induction false} CloseAtFront(s: State, front: Front)
    requires s.releases != [] && AtFront(s, front)
    ensures QuoteClosed(s).releases != [] && QuoteClosed(s).quote == []
    ensures AtFront(QuoteClosed(s), Past(front))
  {
    SquashKeepsInk(s.quote);
    match front
    case Quoting(quotes) => OpenedIsTagline(s.quote, quotes);
    case Bare => assert Inks([]) == [];
    case Untagged => SquashKeepsInk([]);
    case _ =>
  }

  lemma {:induction false} HeadingAtFront(s: State, front: Front, line: Line, blank: bool)
    requires s.releases != [] && AtFront(s, front) && s.quote == [] && !front.Quoting? && line.Heading?
    ensures AtFront(ContentRead(s, line, blank), FrontStep(front, line))
  {
    FlushAtFront(s);
  }

  lemma {:induction false} RuleAtFront(s: State, front: Front, line: Line, blank: bool)
    requires s.releases != [] && AtFront(s, front) && s.quote == [] && !front.Quoting? && line.Rule?
    ensures AtFront(ContentRead(s, line, blank), FrontStep(front, line))
  {
    FlushAtFront(s);
    assert Inks([]) == [];
  }

  lemma {:induction false} BulletAtFront(s: State, front: Front, line: Line, blank: bool)
    requires s.releases != [] && AtFront(s, front) && s.quote == [] && !front.Quoting? && line.Bullet?
    ensures AtFront(ContentRead(s, line, blank), FrontStep(front, line))
  {
    FlushAtFront(s);
    QuoteBecomesText(line.text);
  }

  lemma {:induction false} TextAtFront(s: State, front: Front, line: Line, blank: bool)
    requires s.releases != [] && AtFront(s, front) && s.quote == [] && !front.Quoting? && line.Text?
    ensures AtFront(TextRead(s, line.words, line.indented, blank), FrontStep(front, line))
  {
    FlushAtFront(s);
    OneMorePart(s.item, line.words);
    OneMorePart([], line.words);
  }

  lemma {:induction false} ContentAtFront(s: State, front: Front, line: Line, blank: bool)
    requires s.releases != [] && AtFront(s, front) && s.quote == [] && !front.Quoting?
    requires line.Heading? || line.Rule? || line.Bullet? || line.Text?
    ensures AtFront(ContentRead(s, line, blank), FrontStep(front, line))
  {
    match line
    case Heading(_) => HeadingAtFront(s, front, line, blank);
    case Rule => RuleAtFront(s, front, line, blank);
    case Bullet(_) => BulletAtFront(s, front, line, blank);
    case Text(_, _) => TextAtFront(s, front, line, blank);
  }

  lemma {:induction false} PastQuoteAtFront(s: State, front: Front, line: Line)
    requires s.releases != [] && AtFront(s, front)
    requires line.Heading? || line.Rule? || line.Bullet? || line.Text?
    ensures AtFront(LineRead(s, line), FrontStep(Past(front), line))
  {
    var u := s.(afterBlank := false);
    CloseAtFront(u, front);
    ContentAtFront(QuoteClosed(u), Past(front), line, s.afterBlank);
  }

  lemma {:induction false} PastStep(front: Front, line: Line)
    requires line.Heading? || line.Rule? || line.Bullet? || line.Text?
    ensures FrontStep(Past(front), line) == FrontStep(front, line)
  {
  }

  lemma {:induction false} FlushKeepsOthers(s: State)
    requires s.releases != []
    ensures var t := Flushed(s); t.releases != [] && Init(t.releases) == Init(s.releases)
  {
  }

  lemma {:induction false} CloseKeepsOthers(s: State)
    requires s.releases != []
    ensures var t := QuoteClosed(s); t.releases != [] && Init(t.releases) == Init(s.releases)
  {
  }

  lemma {:induction false} ContentKeepsOthers(s: State, line: Line, blank: bool)
    requires s.releases != []
    ensures var t := ContentRead(s, line, blank); t.releases != [] && Init(t.releases) == Init(s.releases)
  {
    FlushKeepsOthers(s);
  }

  /** Only the last release changes until the next one's heading. */
  lemma {:induction false} LineKeepsOthers(s: State, line: Line)
    requires s.releases != [] && !line.Version?
    ensures var t := LineRead(s, line); t.releases != [] && Init(t.releases) == Init(s.releases)
  {
    FlushKeepsOthers(s);
    if !line.Blank? && !line.Quote? {
      var u := s.(afterBlank := false);
      CloseKeepsOthers(u);
      ContentKeepsOthers(QuoteClosed(u), line, s.afterBlank);
    }
  }

  lemma {:induction false} LineAtFront(s: State, front: Front, line: Line)
    requires s.releases != [] && AtFront(s, front) && !line.Version?
    ensures LineRead(s, line).releases != []
    ensures AtFront(LineRead(s, line), FrontStep(front, line))
  {
    LineKeepsOthers(s, line);
    if line.Quote? {
      QuoteAtFront(s, front, line);
    } else if !line.Blank? {
      PastQuoteAtFront(s, front, line);
      PastStep(front, line);
    }
  }

  // ---------------------------------------------------------------------
  // The lines in the open item and the open quote
  // ---------------------------------------------------------------------

  ghost predicate IsOpenItem(item: seq<string>, lines: seq<Line>, from: nat, n: nat)
    requires from <= n <= |lines|
  {
    exists a: nat, b: nat :: from <= a <= b <= n && IsQuoteRun(lines, a, b) && item == ItemParts(lines, a, b, n)
  }

  ghost predicate IsOpenQuote(quote: seq<string>, lines: seq<Line>, from: nat, n: nat)
    requires from <= n <= |lines|
  {
    exists a: nat :: from <= a <= n && IsQuoteRun(lines, a, n) && quote == Quotes(lines, a, n)
  }

  /** What is open is whole lines up to here, and every item so far is. */
  ghost predicate HoldsLines(s: State, lines: seq<Line>, from: nat, n: nat)
    requires from <= n <= |lines| && s.releases != []
  {
    && HoldsItems(Last(s.releases), lines, from, n)
    && IsOpenItem(s.item, lines, from, n) && IsOpenQuote(s.quote, lines, from, n)
    && (s.item == [] || s.quote == [])
  }

  lemma {:induction false} ItemsStay(r: Release, lines: seq<Line>, from: nat, n: nat)
    requires from <= n < |lines| && HoldsItems(r, lines, from, n)
    ensures HoldsItems(r, lines, from, n + 1)
  {
    forall g, i | 0 <= g < |r.groups| && 0 <= i < |r.groups[g].items|
      ensures IsItem(r.groups[g].items[i], lines, from, n + 1)
    {
      var text := r.groups[g].items[i];
      assert IsItem(text, lines, from, n);
      var a: nat, b: nat, c: nat :|
        from <= a <= b <= c <= n && IsQuoteRun(lines, a, b) && text == Spaced(WordsRead(ItemParts(lines, a, b, c)));
    }
  }

  lemma {:induction false} NothingIsOpen(lines: seq<Line>, from: nat, n: nat)
    requires from <= n <= |lines|
    ensures IsOpenItem([], lines, from, n) && IsOpenQuote([], lines, from, n)
  {
    SquashKeepsInk([]);
    assert Quotes(lines, n, n) == [] && ItemParts(lines, n, n, n) == [];
  }

  lemma {:induction false} ItemIsAdded(r: Release, text: string, lines: seq<Line>, from: nat, n: nat)
    requires from <= n <= |lines| && HoldsItems(r, lines, from, n) && IsItem(text, lines, from, n)
    ensures HoldsItems(WithItem(r, text), lines, from, n)
  {
  }

  lemma {:induction false} OpenItemIsItem(item: seq<string>, lines: seq<Line>, from: nat, n: nat)
    requires from <= n <= |lines| && IsOpenItem(item, lines, from, n)
    ensures IsItem(Squashed(item), lines, from, n)
  {
    SquashIsItsWords(item);
  }

  lemma {:induction false} FlushHoldsLines(s: State, lines: seq<Line>, from: nat, n: nat)
    requires from <= n <= |lines| && s.releases != [] && HoldsLines(s, lines, from, n)
    ensures var t := Flushed(s); t.releases != [] && HoldsItems(Last(t.releases), lines, from, n)
  {
    OpenItemIsItem(s.item, lines, from, n);
    ItemIsAdded(Last(s.releases), Squashed(s.item), lines, from, n);
  }

  lemma {:induction false} QuoteBecomesItem(s: State, lines: seq<Line>, from: nat, n: nat)
    requires from <= n <= |lines| && s.releases != [] && IsOpenQuote(s.quote, lines, from, n)
    requires Squashed(s.quote) != ""
    ensures IsOpenItem([Squashed(s.quote)], lines, from, n)
  {
    var a: nat :| from <= a <= n && IsQuoteRun(lines, a, n) && s.quote == Quotes(lines, a, n);
    assert Texts(lines, n, n) == [] && ItemParts(lines, a, n, n) == [Squashed(s.quote)];
  }

  lemma {:induction false} CloseDoes(s: State)
    requires s.releases != []
    ensures var t, text := QuoteClosed(s), Squashed(s.quote);
      && t.releases != [] && t.quote == [] && Last(t.releases).groups == Last(s.releases).groups
      && (t.item == s.item || (text != "" && t.item == s.item + [text]))
  {
  }

  lemma {:induction false} CloseHoldsLines(s: State, lines: seq<Line>, from: nat, n: nat)
    requires from <= n <= |lines| && s.releases != [] && HoldsLines(s, lines, from, n)
    ensures var t := QuoteClosed(s); t.releases != [] && t.quote == [] && HoldsLines(t, lines, from, n)
  {
    var t, text := QuoteClosed(s), Squashed(s.quote);
    CloseDoes(s);
    NothingIsOpen(lines, from, n);
    if t.item != s.item {
      SquashKeepsInk([]);
      QuoteBecomesItem(s, lines, from, n);
      assert s.item + [text] == [text];
    }
    SameGroupsHold(Last(s.releases), Last(t.releases), lines, from, n);
  }

  lemma {:induction false} SameGroupsHold(r: Release, t: Release, lines: seq<Line>, from: nat, n: nat)
    requires from <= n <= |lines| && HoldsItems(r, lines, from, n) && t.groups == r.groups
    ensures HoldsItems(t, lines, from, n)
  {
  }

  lemma {:induction false} PartsGoOn(lines: seq<Line>, a: nat, b: nat, n: nat)
    requires a <= b <= n < |lines|
    ensures ItemParts(lines, a, b, n + 1) == ItemParts(lines, a, b, n) + TextOf(lines[n])
  {
    var front, texts, more := ItemParts(lines, a, b, b), Texts(lines, b, n), TextOf(lines[n]);
    assert Texts(lines, b, b) == [];
    assert front + (texts + more) == front + texts + more;
  }

  lemma {:induction false} ItemGoesOn(item: seq<string>, lines: seq<Line>, from: nat, n: nat)
    requires from <= n < |lines| && IsOpenItem(item, lines, from, n)
    ensures IsOpenItem(item + TextOf(lines[n]), lines, from, n + 1)
  {
    var a: nat, b: nat :| from <= a <= b <= n && IsQuoteRun(lines, a, b) && item == ItemParts(lines, a, b, n);
    PartsGoOn(lines, a, b, n);
  }

  lemma {:induction false} ItemStarts(lines: seq<Line>, from: nat, n: nat)
    requires from <= n < |lines|
    ensures IsOpenItem(TextOf(lines[n]), lines, from, n + 1)
  {
    NothingIsOpen(lines, from, n);
    ItemGoesOn([], lines, from, n);
    assert [] + TextOf(lines[n]) == TextOf(lines[n]);
  }

  lemma {:induction false} QuoteRunsOn(quote: seq<string>, lines: seq<Line>, from: nat, n: nat)
    requires from <= n < |lines| && IsOpenQuote(quote, lines, from, n)
    ensures lines[n].Quote? ==> IsOpenQuote(quote + [lines[n].quoted], lines, from, n + 1)
    ensures lines[n].Blank? ==> IsOpenQuote(quote, lines, from, n + 1)
  {
    var a: nat :| from <= a <= n && IsQuoteRun(lines, a, n) && quote == Quotes(lines, a, n);
    if lines[n].Quote? || lines[n].Blank? {
      assert IsQuoteRun(lines, a, n + 1);
      assert quote + [] == quote;
    }
  }

  lemma {:induction false} QuoteHoldsLines(s: State, lines: seq<Line>, from: nat, n: nat)
    requires from <= n < |lines| && s.releases != [] && HoldsLines(s, lines, from, n) && lines[n].Quote?
    ensures HoldsLines(LineRead(s, lines[n]), lines, from, n + 1)
  {
    FlushHoldsLines(s, lines, from, n);
    ItemsStay(Last(Flushed(s).releases), lines, from, n);
    NothingIsOpen(lines, from, n + 1);
    QuoteRunsOn(s.quote, lines, from, n);
  }

  lemma {:induction false} BlankHoldsLines(s: State, lines: seq<Line>, from: nat, n: nat)
    requires from <= n < |lines| && s.releases != [] && HoldsLines(s, lines, from, n) && lines[n].Blank?
    ensures HoldsLines(LineRead(s, lines[n]), lines, from, n + 1)
  {
    ItemsStay(Last(s.releases), lines, from, n);
    ItemGoesOn(s.item, lines, from, n);
    assert s.item + [] == s.item;
    QuoteRunsOn(s.quote, lines, from, n);
  }

  lemma {:induction false} GroupHoldsItems(r: Release, title: string, lines: seq<Line>, from: nat, n: nat)
    requires from <= n <= |lines| && HoldsItems(r, lines, from, n)
    ensures HoldsItems(WithGroup(r, title), lines, from, n)
  {
  }

  /** A line that flushes the open item leaves at most its own text open. */
  lemma {:induction false} BreakHoldsLines(s: State, t: State, lines: seq<Line>, from: nat, n: nat)
    requires from <= n < |lines| && s.releases != [] && t.releases != []
    requires HoldsLines(s, lines, from, n) && t.quote == []
    requires
      || Last(t.releases) == Last(Flushed(s).releases)
      || (lines[n].Heading? && Last(t.releases) == WithGroup(Last(Flushed(s).releases), lines[n].title))
    requires t.item == TextOf(lines[n])
    ensures HoldsLines(t, lines, from, n + 1)
  {
    FlushHoldsLines(s, lines, from, n);
    if lines[n].Heading? {
      GroupHoldsItems(Last(Flushed(s).releases), lines[n].title, lines, from, n);
    }
    ItemsStay(Last(t.releases), lines, from, n);
    ItemStarts(lines, from, n);
    NothingIsOpen(lines, from, n + 1);
  }

  lemma {:induction false} TextGoesOn(s: State, lines: seq<Line>, from: nat, n: nat)
    requires from <= n < |lines| && s.releases != [] && HoldsLines(s, lines, from, n) && s.quote == []
    requires lines[n].Text?
    ensures HoldsLines(s.(item := s.item + [lines[n].words]), lines, from, n + 1)
  {
    ItemsStay(Last(s.releases), lines, from, n);
    ItemGoesOn(s.item, lines, from, n);
    NothingIsOpen(lines, from, n + 1);
  }

  lemma {:induction false} TextBreaks(s: State, lines: seq<Line>, from: nat, n: nat)
    requires from <= n < |lines| && s.releases != [] && HoldsLines(s, lines, from, n) && s.quote == []
    requires lines[n].Text?
    ensures Flushed(s).releases != [] && HoldsLines(Flushed(s).(item := [lines[n].words]), lines, from, n + 1)
  {
    FlushKeepsOthers(s);
    BreakHoldsLines(s, Flushed(s).(item := [lines[n].words]), lines, from, n);
  }

  /** A line of text goes on with the open item, or is a new one's first. */
  lemma {:induction false} TextReadEither(s: State, words: string, indented: bool, blank: bool)
    ensures var t := TextRead(s, words, indented, blank);
      t == s.(item := s.item + [words]) || t == Flushed(s).(item := [words])
  {
    assert [] + [words] == [words];
  }

  lemma {:induction false} TextHoldsLines(s: State, t: State, lines: seq<Line>, from: nat, n: nat)
    requires from <= n < |lines| && s.releases != [] && HoldsLines(s, lines, from, n) && s.quote == []
    requires lines[n].Text?
    requires t == s.(item := s.item + [lines[n].words]) || t == Flushed(s).(item := [lines[n].words])
    ensures t.releases != [] && HoldsLines(t, lines, from, n + 1)
  {
    if t == s.(item := s.item + [lines[n].words]) {
      TextGoesOn(s, lines, from, n);
    } else {
      TextBreaks(s, lines, from, n);
    }
  }

  lemma {:induction false} ContentHoldsLines(s: State, t: State, lines: seq<Line>, from: nat, n: nat, blank: bool)
    requires from <= n < |lines| && s.releases != [] && HoldsLines(s, lines, from, n) && s.quote == []
    requires var line := lines[n]; line.Heading? || line.Rule? || line.Bullet? || line.Text?
    requires t == ContentRead(s, lines[n], blank)
    ensures t.releases != [] && HoldsLines(t, lines, from, n + 1)
  {
    if lines[n].Text? {
      TextReadEither(s, lines[n].words, lines[n].indented, blank);
      TextHoldsLines(s, t, lines, from, n);
    } else {
      BreakHoldsLines(s, t, lines, from, n);
    }
  }

  lemma {:induction false} LineHoldsLines(s: State, lines: seq<Line>, from: nat, n: nat)
    requires from <= n < |lines| && s.releases != [] && HoldsLines(s, lines, from, n) && !lines[n].Version?
    ensures var t := LineRead(s, lines[n]); t.releases != [] && HoldsLines(t, lines, from, n + 1)
  {
    LineKeepsOthers(s, lines[n]);
    if lines[n].Blank? {
      BlankHoldsLines(s, lines, from, n);
    } else if lines[n].Quote? {
      QuoteHoldsLines(s, lines, from, n);
    } else {
      var u := s.(afterBlank := false);
      CloseHoldsLines(u, lines, from, n);
      ContentHoldsLines(QuoteClosed(u), LineRead(s, lines[n]), lines, from, n, s.afterBlank);
    }
  }

  // ---------------------------------------------------------------------
  // Whole documents
  // ---------------------------------------------------------------------

  /** A release's tagline is its section's opening quote, and its items are whole lines of the section. */
  ghost predicate SaysItsLines(r: Release, lines: seq<Line>, from: nat, to: nat)
    requires from <= to <= |lines|
  {
    r.tagline == TaglineIn(lines, from, to) && HoldsItems(r, lines, from, to)
  }

  ghost predicate ReadsOn(s: State, lines: seq<Line>, from: nat, n: nat)
    requires from <= n <= |lines| && s.releases != []
  {
    AtFront(s, FrontOf(lines, from, n)) && HoldsLines(s, lines, from, n)
  }

  lemma {:induction false} TaglineCloses(s: State, lines: seq<Line>, from: nat, n: nat)
    requires from <= n <= |lines| && s.releases != [] && AtFront(s, FrontOf(lines, from, n))
    ensures var t := Flushed(QuoteClosed(s)); t.releases != [] && Last(t.releases).tagline == TaglineIn(lines, from, n)
  {
    var front := FrontOf(lines, from, n);
    CloseAtFront(s, front);
    FlushAtFront(QuoteClosed(s));
    TaglineOfFront(lines, from, n);
  }

  lemma {:induction false} TaglineOfFront(lines: seq<Line>, from: nat, n: nat)
    requires from <= n <= |lines|
    ensures TaglineIn(lines, from, n) == match FrontOf(lines, from, n)
      case Quoting(quotes) => Spaced(WordsRead(quotes))
      case Tagged(quotes) => Spaced(WordsRead(quotes))
      case _ => ""
  {
  }

  /** What is open goes into the release, and then it says its lines. */
  lemma {:induction false} ReleaseCloses(s: State, lines: seq<Line>, from: nat, n: nat)
    requires from <= n <= |lines| && s.releases != [] && ReadsOn(s, lines, from, n)
    ensures var t := Flushed(QuoteClosed(s));
      t.releases != [] && Init(t.releases) == Init(s.releases) && SaysItsLines(Last(t.releases), lines, from, n)
  {
    TaglineCloses(s, lines, from, n);
    CloseHoldsLines(s, lines, from, n);
    FlushHoldsLines(QuoteClosed(s), lines, from, n);
    CloseKeepsOthers(s);
    FlushKeepsOthers(QuoteClosed(s));
  }

  lemma {:induction false} ReleaseStarts(s: State, version: string, date: string, lines: seq<Line>, n: nat)
    requires n <= |lines|
    ensures var t := VersionRead(s, version, date); t.releases != [] && ReadsOn(t, lines, n, n)
  {
    var t := VersionRead(s, version, date);
    NothingIsOpen(lines, n, n);
    assert FirstShown(lines, n, n) == n && Inks([]) == [];
  }

  lemma {:induction false} LineReadsOn(s: State, lines: seq<Line>, from: nat, n: nat)
    requires from <= n < |lines| && s.releases != [] && ReadsOn(s, lines, from, n) && !lines[n].Version?
    ensures var t := LineRead(s, lines[n]); t.releases != [] && ReadsOn(t, lines, from, n + 1)
  {
    FrontGrows(lines, from, n);
    LineAtFront(s, FrontOf(lines, from, n), lines[n]);
    LineHoldsLines(s, lines, from, n);
  }

  /** A property of the release being read, by where its lines start and how far they are read. */
  type Reading = (State, nat, nat) -> bool

  /** A property of a finished release, by where its lines start and end. */
  type Saying = (Release, nat, nat) -> bool

  /** Every release but the last one has the one property, and the last one the other. */
  ghost predicate AllRead(reading: Reading, said: Saying, s: State, versions: seq<nat>, n: nat) {
    && |s.releases| == |versions|
    && (versions != [] ==> Last(versions) < n && reading(s, Last(versions) + 1, n))
    && forall r :: 0 <= r < |versions| - 1 ==> SaidAt(said, s.releases[r], versions, n, r)
  }

  ghost predicate AllSaid(said: Saying, releases: seq<Release>, versions: seq<nat>, n: nat) {
    |releases| == |versions| && forall r :: 0 <= r < |versions| ==> SaidAt(said, releases[r], versions, n, r)
  }

  ghost predicate SaidAt(said: Saying, release: Release, versions: seq<nat>, n: nat, r: nat)
    requires r < |versions|
  {
    versions[r] < EndOf(versions, r, n) <= n && said(release, versions[r] + 1, EndOf(versions, r, n))
  }

  /** A line that goes on with the last release leaves the others alone. */
  lemma {:induction false} ReadOn(reading: Reading, said: Saying, s: State, t: State, versions: seq<nat>, n: nat)
    requires AllRead(reading, said, s, versions, n) && versions != []
    requires t.releases != [] && Init(t.releases) == Init(s.releases) && reading(t, Last(versions) + 1, n + 1)
    ensures AllRead(reading, said, t, versions, n + 1)
  {
    assert |t.releases| == |Init(t.releases)| + 1;
    forall r | 0 <= r < |versions| - 1 ensures SaidAt(said, t.releases[r], versions, n + 1, r) {
      assert SaidAt(said, s.releases[r], versions, n, r);
      assert t.releases[r] == Init(t.releases)[r] == s.releases[r];
    }
  }

  lemma {:induction false} LastFinished(reading: Reading, said: Saying, s: State, releases: seq<Release>,
        versions: seq<nat>, n: nat)
    requires AllRead(reading, said, s, versions, n) && versions != []
    requires releases != [] && Init(releases) == Init(s.releases) && said(Last(releases), Last(versions) + 1, n)
    ensures AllSaid(said, releases, versions, n)
  {
    assert |releases| == |Init(releases)| + 1;
    forall r | 0 <= r < |versions| ensures SaidAt(said, releases[r], versions, n, r) {
      if r < |versions| - 1 {
        assert SaidAt(said, s.releases[r], versions, n, r);
        assert releases[r] == Init(releases)[r] == s.releases[r];
      }
    }
  }

  lemma {:induction false} NextStarted(reading: Reading, said: Saying, closed: seq<Release>, t: State,
        versions: seq<nat>, n: nat)
    requires AllSaid(said, closed, versions, n)
    requires t.releases != [] && Init(t.releases) == closed && reading(t, n + 1, n + 1)
    ensures AllRead(reading, said, t, versions + [n], n + 1)
  {
    var next := versions + [n];
    assert |t.releases| == |closed| + 1;
    forall r | 0 <= r < |next| - 1 ensures SaidAt(said, t.releases[r], next, n + 1, r) {
      assert SaidAt(said, closed[r], versions, n, r) && t.releases[r] == closed[r];
      assert EndOf(next, r, n + 1) == EndOf(versions, r, n);
    }
  }

  /** The first property holds from a release's heading on, line by line, and becomes the second when all is closed. */
  ghost predicate Carries(reading: Reading, said: Saying, lines: seq<Line>) {
    && (forall s: State, from: nat, n: nat :: reading(s, from, n) ==>
          && s.releases != [] && ClosedRelease(s).Some? && said(ClosedRelease(s).value, from, n)
          && (n < |lines| && !lines[n].Version? ==> reading(LineRead(s, lines[n]), from, n + 1)))
    && (forall s: State, n: nat :: n < |lines| && lines[n].Version? ==> reading(LineRead(s, lines[n]), n + 1, n + 1))
  }

  /** The last release once the open quote and the open item went into it. */
  function ClosedRelease(s: State): Option<Release> {
    var t := Flushed(QuoteClosed(s));
    if t.releases == [] then None else Some(Last(t.releases))
  }

  lemma {:induction false} ClosesAll(reading: Reading, said: Saying, s: State, versions: seq<nat>, lines: seq<Line>,
        n: nat)
    requires Carries(reading, said, lines) && AllRead(reading, said, s, versions, n)
    ensures AllSaid(said, Flushed(QuoteClosed(s)).releases, versions, n)
  {
    if versions == [] {
      SquashKeepsInk([]);
    } else {
      CloseKeepsOthers(s);
      FlushKeepsOthers(QuoteClosed(s));
      assert reading(s, Last(versions) + 1, n);
      LastFinished(reading, said, s, Flushed(QuoteClosed(s)).releases, versions, n);
    }
  }

  lemma {:induction false} ReadsVersion(reading: Reading, said: Saying, s: State, versions: seq<nat>,
        lines: seq<Line>, n: nat)
    requires n < |lines| && lines[n].Version?
    requires Carries(reading, said, lines) && AllRead(reading, said, s, versions, n)
    ensures AllRead(reading, said, LineRead(s, lines[n]), versions + [n], n + 1)
  {
    var closed := Flushed(QuoteClosed(s)).releases;
    ClosesAll(reading, said, s, versions, lines, n);
    assert Init(LineRead(s, lines[n]).releases) == closed;
    NextStarted(reading, said, closed, LineRead(s, lines[n]), versions, n);
  }

  lemma {:induction false} ReadsOther(reading: Reading, said: Saying, s: State, versions: seq<nat>,
        lines: seq<Line>, n: nat)
    requires n < |lines| && !lines[n].Version?
    requires Carries(reading, said, lines) && AllRead(reading, said, s, versions, n)
    ensures AllRead(reading, said, LineRead(s, lines[n]), versions, n + 1)
  {
    if versions != [] {
      LineKeepsOthers(s, lines[n]);
      assert reading(s, Last(versions) + 1, n);
      ReadOn(reading, said, s, LineRead(s, lines[n]), versions, n);
    }
  }

  lemma {:induction false} ReadsNext(reading: Reading, said: Saying, s: State, versions: seq<nat>,
        lines: seq<Line>, n: nat)
    requires n < |lines|
    requires Carries(reading, said, lines) && AllRead(reading, said, s, versions, n)
    ensures AllRead(reading, said, LineRead(s, lines[n]),
                    versions + (if lines[n].Version? then [n] else []), n + 1)
  {
    if lines[n].Version? {
      ReadsVersion(reading, said, s, versions, lines, n);
    } else {
      ReadsOther(reading, said, s, versions, lines, n);
      assert versions + [] == versions;
    }
  }

  /** The parser and the headings' places after the first n lines. */
  function Reached(lines: seq<Line>, n: nat): (State, seq<nat>)
    requires n <= |lines|
  {
    (After(lines, n), Versions(lines, n))
  }

  /** One line takes the parser and the headings' places from here to there. */
  predicate IsNext(s: State, versions: seq<nat>, lines: seq<Line>, n: nat, t: State, next: seq<nat>)
    requires n < |lines|
  {
    t == LineRead(s, lines[n]) && next == versions + (if lines[n].Version? then [n] else [])
  }

  lemma {:induction false} OneMoreReached(lines: seq<Line>, n: nat, s: State, versions: seq<nat>, t: State,
        next: seq<nat>)
    requires n < |lines| && (s, versions) == Reached(lines, n) && (t, next) == Reached(lines, n + 1)
    ensures IsNext(s, versions, lines, n, t, next)
  {
  }

  lemma {:induction false} ReadsTo(reading: Reading, said: Saying, s: State, versions: seq<nat>,
        lines: seq<Line>, n: nat, t: State, next: seq<nat>)
    requires n < |lines| && IsNext(s, versions, lines, n, t, next)
    requires Carries(reading, said, lines) && AllRead(reading, said, s, versions, n)
    ensures AllRead(reading, said, t, next, n + 1)
  {
    ReadsNext(reading, said, s, versions, lines, n);
  }

  lemma {:induction false} ReadsAll(reading: Reading, said: Saying, lines: seq<Line>, n: nat, t: State,
        next: seq<nat>)
    requires n <= |lines| && Carries(reading, said, lines) && (t, next) == Reached(lines, n)
    ensures AllRead(reading, said, t, next, n)
  {
    if n > 0 {
      var m: nat := n - 1;
      var (s, versions) := Reached(lines, m);
      ReadsAll(reading, said, lines, m, s, versions);
      OneMoreReached(lines, m, s, versions, t, next);
      ReadsTo(reading, said, s, versions, lines, m, t, next);
    }
  }

  /** What is carried along holds of every release of the document, between its heading and the next one. */
  lemma {:induction false} AllAreSaid(reading: Reading, said: Saying, lines: seq<Line>)
    requires Carries(reading, said, lines)
    ensures AllSaid(said, Parsed(lines), Versions(lines, |lines|), |lines|)
  {
    var (s, versions) := Reached(lines, |lines|);
    ReadsAll(reading, said, lines, |lines|, s, versions);
    ClosesAll(reading, said, s, versions, lines, |lines|);
  }

  lemma {:induction false} OneOfAll(said: Saying, releases: seq<Release>, versions: seq<nat>, n: nat, r: nat)
    requires AllSaid(said, releases, versions, n) && r < |releases|
    ensures |releases| == |versions| && versions[r] < EndOf(versions, r, n) <= n
    ensures said(releases[r], versions[r] + 1, EndOf(versions, r, n))
  {
    assert SaidAt(said, releases[r], versions, n, r);
  }

  ghost predicate Reads(s: State, lines: seq<Line>, from: nat, n: nat) {
    from <= n <= |lines| && s.releases != [] && ReadsOn(s, lines, from, n)
  }

  ghost predicate Says(r: Release, lines: seq<Line>, from: nat, to: nat) {
    from <= to <= |lines| && SaysItsLines(r, lines, from, to)
  }

  lemma {:induction false} ReadsCloses(s: State, lines: seq<Line>, from: nat, n: nat)
    requires Reads(s, lines, from, n)
    ensures ClosedRelease(s).Some? && Says(ClosedRelease(s).value, lines, from, n)
  {
    ReleaseCloses(s, lines, from, n);
  }

  lemma {:induction false} ReadsLine(s: State, lines: seq<Line>, from: nat, n: nat)
    requires Reads(s, lines, from, n) && n < |lines| && !lines[n].Version?
    ensures Reads(LineRead(s, lines[n]), lines, from, n + 1)
  {
    LineReadsOn(s, lines, from, n);
  }

  lemma {:induction false} ReadsHeading(s: State, lines: seq<Line>, n: nat)
    requires n < |lines| && lines[n].Version?
    ensures Reads(LineRead(s, lines[n]), lines, n + 1, n + 1)
  {
    ReleaseStarts(s, lines[n].version, lines[n].date, lines, n + 1);
  }

  ghost function ReadingOf(lines: seq<Line>): Reading {
    (s: State, from: nat, n: nat) => Reads(s, lines, from, n)
  }

  ghost function SayingOf(lines: seq<Line>): Saying {
    (r: Release, from: nat, to: nat) => Says(r, lines, from, to)
  }

  lemma {:induction false} LinesCarry(lines: seq<Line>)
    ensures Carries(ReadingOf(lines), SayingOf(lines), lines)
  {
    forall s: State, from: nat, n: nat | Reads(s, lines, from, n)
      ensures ClosedRelease(s).Some? && Says(ClosedRelease(s).value, lines, from, n)
      ensures n < |lines| && !lines[n].Version? ==> Reads(LineRead(s, lines[n]), lines, from, n + 1)
    {
      ReadsCloses(s, lines, from, n);
      if n < |lines| && !lines[n].Version? {
        ReadsLine(s, lines, from, n);
      }
    }
    forall s: State, n: nat | n < |lines| && lines[n].Version?
      ensures Reads(LineRead(s, lines[n]), lines, n + 1, n + 1)
    {
      ReadsHeading(s, lines, n);
    }
  }

  lemma {:induction false} SayingMeans(r: Release, lines: seq<Line>, from: nat, to: nat)
    requires SayingOf(lines)(r, from, to)
    ensures from <= to <= |lines| && SaysItsLines(r, lines, from, to)
  {
  }

  /** The release behind heading r, and where its lines start and end. */
  ghost predicate IsReleaseAt(lines: seq<Line>, r: nat, release: Release, from: nat, to: nat) {
    var versions := Versions(lines, |lines|);
    && r < |Parsed(lines)| == |versions| && release == Parsed(lines)[r]
    && from == versions[r] + 1 && to == EndOf(versions, r, |lines|)
  }

  lemma {:induction false} ReleaseIsSaid(said: Saying, lines: seq<Line>, r: nat, release: Release, from: nat, to: nat)
    requires AllSaid(said, Parsed(lines), Versions(lines, |lines|), |lines|) && IsReleaseAt(lines, r, release, from, to)
    ensures said(release, from, to)
  {
    OneOfAll(said, Parsed(lines), Versions(lines, |lines|), |lines|, r);
  }

  /**
   * In every release of a document the tagline is the words of the quote that
   * opens its section, if one does, and each item is the words of some whole
   * consecutive lines of that section.
   */
  lemma {:induction false} ReleaseSaysItsLines(lines: seq<Line>, r: nat, release: Release, from: nat, to: nat)
    requires IsReleaseAt(lines, r, release, from, to)
    ensures from <= to <= |lines| && SaysItsLines(release, lines, from, to)
  {
    var reading, said := ReadingOf(lines), SayingOf(lines);
    LinesCarry(lines);
    AllAreSaid(reading, said, lines);
    ReleaseIsSaid(said, lines, r, release, from, to);
    SayingMeans(release, lines, from, to);
  }

  /** Every release of a document is one of those. */
  lemma {:induction false} EveryReleaseIsAt(lines: seq<Line>, r: nat) returns (from: nat, to: nat)
    requires r < |Parsed(lines)|
    ensures IsReleaseAt(lines, r, Parsed(lines)[r], from, to)
  {
    ReleaseReadsItsLines(lines, r);
    var versions := Versions(lines, |lines|);
    from, to := versions[r] + 1, EndOf(versions, r, |lines|);
  }
}
