/**
 * The changelog page reads the release notes line by line, folding wrapped
 * lines into items. The parser is proved against an outline that only looks at
 * what kind of line each one is: no item, no tagline, no open group.
 */
module Changelog {
  import opened JsText
  import opened ChangelogLines

  datatype Group = Group(title: string, items: seq<string>)
  datatype Release = Release(version: string, date: string, tagline: string, groups: seq<Group>)

  // ---------------------------------------------------------------------
  // The outline
  // ---------------------------------------------------------------------

  /**
   * A group as its lines give it: the ink under its heading, in order, and
   * where in it a new item begins.
   */
  datatype Part = Part(title: string, ink: string, breaks: set<nat>)

  /** Its first part is what comes before any heading of its own. */
  datatype Section = Section(version: string, date: string, parts: seq<Part>)

  function NewPart(title: string): Part {
    Part(title, [], {})
  }

  function Inked(part: Part, line: Line, breaks: bool): Part {
    Part(part.title, part.ink + InkOf(line), if breaks then part.breaks + {|part.ink|} else part.breaks)
  }

  function InkedSection(section: Section, line: Line, breaks: bool): Section
    requires section.parts != []
  {
    if line.Heading? then WithPart(section, line.title)
    else section.(parts := Init(section.parts) + [Inked(Last(section.parts), line, breaks)])
  }

  predicate WellFormed(outline: seq<Section>) {
    forall i :: 0 <= i < |outline| ==> outline[i].parts != []
  }

  function Extended(outline: seq<Section>, line: Line, breaks: bool): (next: seq<Section>)
    requires WellFormed(outline)
    ensures WellFormed(next)
  {
    if line.Version? then outline + [Section(line.version, line.date, [NewPart("Notes")])]
    else if outline == [] then []
    else Init(outline) + [InkedSection(Last(outline), line, breaks)]
  }

  function Kinds(lines: seq<string>): seq<Line> {
    seq(|lines|, i requires 0 <= i < |lines| => Classify(lines[i]))
  }

  predicate BlankBefore(lines: seq<Line>, n: nat)
    requires n <= |lines|
  {
    n > 0 && lines[n - 1].Blank?
  }

  /** The lines before the n-th end in an open bullet: nothing but its own wrapped or indented lines since. */
  predicate BulletOpen(lines: seq<Line>, n: nat)
    requires n <= |lines|
  {
    n > 0 && match lines[n - 1]
             case Bullet(_) => true
             case Blank => BulletOpen(lines, n - 1)
             case Text(_, indented) => BulletOpen(lines, n - 1) && (BlankBefore(lines, n - 1) ==> indented)
             case _ => false
  }

  /** They end in a quote. */
  predicate QuoteOpen(lines: seq<Line>, n: nat)
    requires n <= |lines|
  {
    n > 0 && (lines[n - 1].Quote? || (lines[n - 1].Blank? && QuoteOpen(lines, n - 1)))
  }

  /**
   * An item ends at a rule, at a bullet, at a quote, and at a line after a
   * blank one, unless that is indented and goes on with a bullet.
   */
  predicate Breaks(line: Line, blank: bool, bullet: bool, quote: bool) {
    match line
    case Rule => true
    case Bullet(_) => true
    case Quote(_) => !quote
    case Text(_, indented) => blank && !(bullet && indented)
    case _ => false
  }

  predicate BreaksAt(lines: seq<Line>, n: nat)
    requires n < |lines|
  {
    Breaks(lines[n], BlankBefore(lines, n), BulletOpen(lines, n), QuoteOpen(lines, n))
  }

  /** The outline of the first n lines. */
  function Outline(lines: seq<Line>, n: nat): (outline: seq<Section>)
    requires n <= |lines|
    ensures WellFormed(outline)
  {
    if n == 0 then []
    else Extended(Outline(lines, n - 1), lines[n - 1], BreaksAt(lines, n - 1))
  }

  // ---------------------------------------------------------------------
  // The parser
  // ---------------------------------------------------------------------

  /** The release and the group being read are the last ones of their lists. */
  datatype State = State(
    releases: seq<Release>, item: seq<string>, itemIsBullet: bool, afterBlank: bool, quote: seq<string>)

  function AddItem(groups: seq<Group>, text: string): seq<Group> {
    if groups == [] then [Group("Notes", [text])]
    else Init(groups) + [Group(Last(groups).title, Last(groups).items + [text])]
  }

  function WithItem(r: Release, text: string): Release {
    r.(groups := AddItem(r.groups, text))
  }

  function Flushed(s: State): State {
    var text := Squashed(s.item);
    s.(item := [], itemIsBullet := false,
       releases := if s.releases == [] || text == "" then s.releases
                   else Init(s.releases) + [WithItem(Last(s.releases), text)])
  }

  function QuoteClosed(s: State): State {
    var text := Squashed(s.quote);
    var t := s.(quote := []);
    if s.releases == [] || text == "" then t
    else
      var r := Last(s.releases);
      if r.tagline == "" && r.groups == [] then t.(releases := Init(s.releases) + [r.(tagline := text)])
      else t.(item := s.item + [text])
  }

  function VersionRead(s: State, version: string, date: string): State {
    var t := Flushed(QuoteClosed(s));
    t.(releases := t.releases + [Release(version, date, "", [])], afterBlank := false)
  }

  function QuoteRead(s: State, quoted: string): State {
    var t := Flushed(s);
    t.(quote := t.quote + [quoted], afterBlank := false)
  }

  function LineRead(s: State, line: Line): State {
    if line.Version? then VersionRead(s, line.version, line.date)
    else if s.releases == [] then s
    else if line.Blank? then s.(afterBlank := true)
    else if line.Quote? then QuoteRead(s, line.quoted)
    else ContentRead(QuoteClosed(s.(afterBlank := false)), line, s.afterBlank)
  }

  function ContentRead(s: State, line: Line, blank: bool): State
    requires s.releases != []
  {
    match line
    case Heading(title) =>
      var t := Flushed(s);
      var r := Last(t.releases);
      t.(releases := Init(t.releases) + [WithGroup(r, title)])
    case Rule => Flushed(s)
    case Bullet(text) => Flushed(s).(item := [text], itemIsBullet := true)
    case Text(words, indented) => TextRead(s, words, indented, blank)
    case _ => s
  }

  function TextRead(s: State, words: string, indented: bool, blank: bool): State {
    var t := if blank && !(s.itemIsBullet && indented) then Flushed(s) else s;
    t.(item := t.item + [words])
  }

  // ---------------------------------------------------------------------
  // One group against its part of the outline
  // ---------------------------------------------------------------------

  /** Where the items begin and end, counted in ink, after a head of h characters. */
  function Cuts(h: nat, items: seq<string>): set<nat> {
    if items == [] then {h} else Cuts(h, Init(items)) + {h + |Inks(items)|}
  }

  /** Where they begin. */
  function Starts(h: nat, items: seq<string>): set<nat> {
    if items == [] then {} else Cuts(h, Init(items))
  }

  predicate AllTexts(items: seq<string>) {
    forall i :: 0 <= i < |items| ==> items[i] != "" && Tidy(items[i])
  }

  /**
   * The head and the items hold exactly the ink of the part, in order; an item
   * begins behind the head and wherever the part breaks, and nowhere else.
   */
  predicate Laid(head: string, items: seq<string>, part: Part) {
    && Ink(head) + Inks(items) == part.ink
    && AllTexts(items)
    && part.breaks <= {0} + Cuts(|Ink(head)|, items)
    && Starts(|Ink(head)|, items) <= part.breaks + {|Ink(head)|}
  }

  /** The same while some ink is still in the open item or quote. */
  predicate Pending(head: string, items: seq<string>, pending: string, part: Part) {
    && Ink(head) + Inks(items) + pending == part.ink
    && AllTexts(items)
    && part.breaks <= {0} + Cuts(|Ink(head)|, items)
    && Cuts(|Ink(head)|, items) <= part.breaks + {|Ink(head)|}
  }

  function WithText(items: seq<string>, text: string): seq<string> {
    if text == "" then items else items + [text]
  }

  lemma {:induction false} OneMoreItem(h: nat, items: seq<string>, text: string)
    ensures Inks(items + [text]) == Inks(items) + Ink(text)
    ensures Starts(h, items + [text]) == Cuts(h, items) <= Cuts(h, items + [text])
  {
    assert Init(items + [text]) == items;
  }

  lemma {:induction false} EndIsCut(h: nat, items: seq<string>)
    ensures h + |Inks(items)| in Cuts(h, items)
    ensures Cuts(h, items) == Starts(h, items) + {h + |Inks(items)|}
  {
  }

  lemma {:induction false} Regroup(a: string, b: string, c: string)
    ensures a + (b + c) == a + b + c
  {
  }

  lemma {:induction false} PartFlushed(head: string, items: seq<string>, item: seq<string>, part: Part)
    requires Pending(head, items, Inks(item), part)
    ensures Laid(head, WithText(items, Squashed(item)), part)
  {
    SquashKeepsInk(item);
    if Squashed(item) == "" {
      EndIsCut(|Ink(head)|, items);
      assert Ink(head) + Inks(items) + [] == Ink(head) + Inks(items);
    } else {
      PartGrown(head, items, Squashed(item), part);
    }
  }

  lemma {:induction false} TextsGrow(items: seq<string>, text: string)
    requires AllTexts(items) && text != "" && Tidy(text)
    ensures AllTexts(items + [text])
  {
  }

  lemma {:induction false} PartGrown(head: string, items: seq<string>, text: string, part: Part)
    requires Pending(head, items, Ink(text), part) && text != "" && Tidy(text)
    ensures Laid(head, items + [text], part)
  {
    var more := items + [text];
    OneMoreItem(|Ink(head)|, items, text);
    TextsGrow(items, text);
    Regroup(Ink(head), Inks(items), Ink(text));
    IsLaid(head, more, part);
  }

  lemma {:induction false} IsLaid(head: string, items: seq<string>, part: Part)
    requires Ink(head) + Inks(items) == part.ink && AllTexts(items)
    requires part.breaks <= {0} + Cuts(|Ink(head)|, items)
    requires Starts(|Ink(head)|, items) <= part.breaks + {|Ink(head)|}
    ensures Laid(head, items, part)
  {
  }

  lemma {:induction false} PartBegun(head: string, items: seq<string>, part: Part, line: Line)
    requires Laid(head, items, part)
    ensures Pending(head, items, InkOf(line), Inked(part, line, true))
  {
    EndIsCut(|Ink(head)|, items);
    assert |part.ink| == |Ink(head)| + |Inks(items)|;
  }

  lemma {:induction false} PartContinued(head: string, items: seq<string>, pending: string, part: Part, line: Line)
    requires Pending(head, items, pending, part)
    ensures Pending(head, items, pending + InkOf(line), Inked(part, line, false))
  {
    Regroup(Ink(head) + Inks(items), pending, InkOf(line));
  }

  // ---------------------------------------------------------------------
  // One release against its section
  // ---------------------------------------------------------------------

  /** A release has a group for each part of its section, but for the first one if that left no item. */
  predicate Counts(r: Release, m: nat) {
    |r.groups| == m || |r.groups| + 1 == m
  }

  function TitleAt(r: Release, m: nat, i: nat): string
    requires Counts(r, m) && i < m
  {
    if |r.groups| == m then r.groups[i].title else if i == 0 then "Notes" else r.groups[i - 1].title
  }

  function ItemsAt(r: Release, m: nat, i: nat): seq<string>
    requires Counts(r, m) && i < m
  {
    if |r.groups| == m then r.groups[i].items else if i == 0 then [] else r.groups[i - 1].items
  }

  /** The tagline comes before everything else of its release. */
  function HeadAt(r: Release, i: nat): string {
    if i == 0 then r.tagline else ""
  }

  predicate LaidAt(r: Release, section: Section, i: nat)
    requires i < |section.parts| && Counts(r, |section.parts|)
  {
    && TitleAt(r, |section.parts|, i) == section.parts[i].title
    && Laid(HeadAt(r, i), ItemsAt(r, |section.parts|, i), section.parts[i])
  }

  predicate SameHeading(r: Release, section: Section) {
    r.version == section.version && r.date == section.date && section.parts != [] && Counts(r, |section.parts|)
  }

  /** The release holds exactly its section: every group's ink under its own title, in order. */
  predicate Shown(r: Release, section: Section) {
    && SameHeading(r, section)
    && forall i :: 0 <= i < |section.parts| ==> LaidAt(r, section, i)
  }

  /** A part of a release being read: the last one may have ink that is still pending. */
  predicate StandsAt(r: Release, pending: string, section: Section, i: nat)
    requires i < |section.parts| && Counts(r, |section.parts|)
  {
    if i + 1 < |section.parts| then LaidAt(r, section, i)
    else
      && TitleAt(r, |section.parts|, i) == section.parts[i].title
      && Pending(HeadAt(r, i), ItemsAt(r, |section.parts|, i), pending, section.parts[i])
  }

  predicate Open(r: Release, pending: string, section: Section) {
    && SameHeading(r, section)
    && forall i :: 0 <= i < |section.parts| ==> StandsAt(r, pending, section, i)
  }

  function WithTextIn(r: Release, text: string): Release {
    if text == "" then r else WithItem(r, text)
  }

  lemma {:induction false} ItemAdded(r: Release, m: nat, text: string)
    requires m > 0 && Counts(r, m)
    ensures var t := WithItem(r, text);
      && Counts(t, m)
      && ItemsAt(t, m, m - 1) == ItemsAt(r, m, m - 1) + [text]
      && (forall i :: 0 <= i < m - 1 ==> ItemsAt(t, m, i) == ItemsAt(r, m, i))
      && (forall i :: 0 <= i < m ==> TitleAt(t, m, i) == TitleAt(r, m, i))
  {
  }

  lemma {:induction false} LaidStays(r: Release, t: Release, section: Section, i: nat)
    requires i < |section.parts| && Counts(r, |section.parts|) && Counts(t, |section.parts|) && LaidAt(r, section, i)
    requires HeadAt(t, i) == HeadAt(r, i) && TitleAt(t, |section.parts|, i) == TitleAt(r, |section.parts|, i)
    requires ItemsAt(t, |section.parts|, i) == ItemsAt(r, |section.parts|, i)
    ensures LaidAt(t, section, i)
  {
  }

  lemma {:induction false} LastLaidWithItem(r: Release, t: Release, text: string, section: Section, i: nat)
    requires i + 1 == |section.parts| && Counts(r, i + 1) && Counts(t, i + 1) && t.tagline == r.tagline
    requires ItemsAt(t, i + 1, i) == ItemsAt(r, i + 1, i) + [text] && TitleAt(t, i + 1, i) == TitleAt(r, i + 1, i)
    requires StandsAt(r, Ink(text), section, i) && text != "" && Tidy(text)
    ensures LaidAt(t, section, i)
  {
    PartGrown(HeadAt(r, i), ItemsAt(r, i + 1, i), text, section.parts[i]);
  }

  /** What is open may be an item's text: it goes to the end of the last part. */
  lemma {:induction false} ReleaseGrown(r: Release, text: string, section: Section)
    requires Open(r, Ink(text), section) && text != "" && Tidy(text)
    ensures Shown(WithItem(r, text), section)
  {
    var m, t := |section.parts|, WithItem(r, text);
    ItemAdded(r, m, text);
    forall i | 0 <= i < m ensures LaidAt(t, section, i) {
      assert StandsAt(r, Ink(text), section, i);
      if i + 1 < m {
        LaidStays(r, t, section, i);
      } else {
        LastLaidWithItem(r, t, text, section, i);
      }
    }
  }

  lemma {:induction false} NothingPendingIsLaid(r: Release, section: Section, i: nat)
    requires i < |section.parts| && Counts(r, |section.parts|) && StandsAt(r, [], section, i)
    ensures LaidAt(r, section, i)
  {
    if i + 1 == |section.parts| {
      assert Inks([]) == [] && Ink("") == [];
      PartFlushed(HeadAt(r, i), ItemsAt(r, i + 1, i), [], section.parts[i]);
    }
  }

  lemma {:induction false} ReleaseDone(r: Release, section: Section)
    requires Open(r, [], section)
    ensures Shown(r, section)
  {
    forall i | 0 <= i < |section.parts| ensures LaidAt(r, section, i) {
      NothingPendingIsLaid(r, section, i);
    }
  }

  lemma {:induction false} ReleaseFlushed(r: Release, item: seq<string>, section: Section)
    requires Open(r, Inks(item), section)
    ensures Shown(WithTextIn(r, Squashed(item)), section)
  {
    SquashKeepsInk(item);
    if Squashed(item) == "" {
      ReleaseDone(r, section);
    } else {
      ReleaseGrown(r, Squashed(item), section);
    }
  }

  lemma {:induction false} PartsBut(section: Section, line: Line, breaks: bool)
    requires section.parts != [] && !line.Heading?
    ensures var next := InkedSection(section, line, breaks).parts;
      && |next| == |section.parts|
      && (forall i :: 0 <= i < |next| - 1 ==> next[i] == section.parts[i])
      && Last(next) == Inked(Last(section.parts), line, breaks)
  {
  }

  lemma {:induction false} LastBegun(r: Release, section: Section, next: Section, line: Line, i: nat)
    requires i + 1 == |section.parts| == |next.parts| && Counts(r, i + 1) && LaidAt(r, section, i)
    requires next.parts[i] == Inked(section.parts[i], line, true)
    ensures StandsAt(r, InkOf(line), next, i)
  {
    PartBegun(HeadAt(r, i), ItemsAt(r, i + 1, i), section.parts[i], line);
  }

  lemma {:induction false} ReleaseBegun(r: Release, section: Section, line: Line)
    requires Shown(r, section) && !line.Heading?
    ensures Open(r, InkOf(line), InkedSection(section, line, true))
  {
    var m, next := |section.parts|, InkedSection(section, line, true);
    PartsBut(section, line, true);
    forall i | 0 <= i < m ensures StandsAt(r, InkOf(line), next, i) {
      assert LaidAt(r, section, i);
      if i + 1 == m {
        LastBegun(r, section, next, line, i);
      }
    }
  }

  lemma {:induction false} LastContinued(r: Release, pending: string, section: Section, next: Section,
        line: Line, i: nat)
    requires i + 1 == |section.parts| == |next.parts| && Counts(r, i + 1) && StandsAt(r, pending, section, i)
    requires next.parts[i] == Inked(section.parts[i], line, false)
    ensures StandsAt(r, pending + InkOf(line), next, i)
  {
    PartContinued(HeadAt(r, i), ItemsAt(r, i + 1, i), pending, section.parts[i], line);
  }

  lemma {:induction false} ReleaseContinued(r: Release, pending: string, section: Section, line: Line)
    requires Open(r, pending, section) && !line.Heading?
    ensures Open(r, pending + InkOf(line), InkedSection(section, line, false))
  {
    var m, next := |section.parts|, InkedSection(section, line, false);
    PartsBut(section, line, false);
    forall i | 0 <= i < m ensures StandsAt(r, pending + InkOf(line), next, i) {
      assert StandsAt(r, pending, section, i);
      if i + 1 == m {
        LastContinued(r, pending, section, next, line, i);
      }
    }
  }

  function WithGroup(r: Release, title: string): Release {
    r.(groups := r.groups + [Group(title, [])])
  }

  function WithPart(section: Section, title: string): Section {
    section.(parts := section.parts + [NewPart(title)])
  }

  lemma {:induction false} EarlierLaidWithGroup(r: Release, section: Section, title: string, i: nat)
    requires SameHeading(r, section) && i < |section.parts| && LaidAt(r, section, i)
    ensures Counts(WithGroup(r, title), |section.parts| + 1) && LaidAt(WithGroup(r, title), WithPart(section, title), i)
  {
    var m, t := |section.parts|, WithGroup(r, title);
    assert ItemsAt(t, m + 1, i) == ItemsAt(r, m, i) && TitleAt(t, m + 1, i) == TitleAt(r, m, i);
  }

  lemma {:induction false} NewGroupStands(r: Release, section: Section, title: string)
    requires SameHeading(r, section)
    ensures Counts(WithGroup(r, title), |section.parts| + 1)
    ensures StandsAt(WithGroup(r, title), [], WithPart(section, title), |section.parts|)
  {
    var m, t := |section.parts|, WithGroup(r, title);
    assert ItemsAt(t, m + 1, m) == [] && TitleAt(t, m + 1, m) == title;
    assert Pending("", [], [], NewPart(title));
  }

  lemma {:induction false} ReleaseGrouped(r: Release, section: Section, title: string)
    requires Shown(r, section)
    ensures Open(WithGroup(r, title), [], WithPart(section, title))
  {
    var m := |section.parts|;
    NewGroupStands(r, section, title);
    forall i | 0 <= i <= m ensures StandsAt(WithGroup(r, title), [], WithPart(section, title), i) {
      if i < m {
        assert LaidAt(r, section, i);
        EarlierLaidWithGroup(r, section, title, i);
      }
    }
  }

  lemma {:induction false} ReleaseTagged(r: Release, quote: seq<string>, section: Section)
    requires Open(r, Inks(quote), section) && r.tagline == "" && r.groups == []
    ensures Open(r.(tagline := Squashed(quote)), [], section)
  {
    SquashKeepsInk(quote);
    assert |section.parts| == 1 && StandsAt(r, Inks(quote), section, 0);
    assert Ink(Squashed(quote)) + [] + [] == section.parts[0].ink;
    assert StandsAt(r.(tagline := Squashed(quote)), [], section, 0);
  }

  // ---------------------------------------------------------------------
  // The parser against the outline
  // ---------------------------------------------------------------------

  /** All releases but the one being read. */
  predicate EarlierShown(releases: seq<Release>, outline: seq<Section>) {
    && |releases| == |outline|
    && forall i :: 0 <= i < |outline| - 1 ==> Shown(releases[i], outline[i])
  }

  predicate AllShown(releases: seq<Release>, outline: seq<Section>) {
    && |releases| == |outline|
    && forall i :: 0 <= i < |outline| ==> Shown(releases[i], outline[i])
  }

  /** What stands between the parser and the outline is the open item or the open quote, never both. */
  predicate Tracks(s: State, outline: seq<Section>) {
    match s
    case State(releases, item, _, _, quote) =>
      && EarlierShown(releases, outline)
      && (item == [] || quote == [])
      && (if outline == [] then item == [] && quote == []
          else Open(Last(releases), Inks(item) + Inks(quote), Last(outline)))
  }

  lemma {:induction false} LastShown(releases: seq<Release>, outline: seq<Section>, r: Release)
    requires EarlierShown(releases, outline) && outline != []
    requires Shown(r, Last(outline))
    ensures AllShown(Init(releases) + [r], outline)
  {
  }

  lemma {:induction false} NothingPending(a: string)
    ensures a + [] == a && [] + a == a
  {
  }

  lemma {:induction false} FlushSettles(s: State, outline: seq<Section>)
    requires Tracks(s, outline) && s.quote == []
    ensures AllShown(Flushed(s).releases, outline)
  {
    if outline == [] {
      SquashKeepsInk([]);
    } else {
      NothingPending(Inks(s.item));
      ReleaseFlushed(Last(s.releases), s.item, Last(outline));
      LastShown(s.releases, outline, WithTextIn(Last(s.releases), Squashed(s.item)));
      Replaced(s.releases);
    }
  }

  lemma {:induction false} Replaced<T>(a: seq<T>)
    requires a != []
    ensures Init(a) + [Last(a)] == a
  {
  }

  /** With the other releases as they were, only the last one matters. */
  lemma {:induction false} LastOpen(s: State, t: State, outline: seq<Section>)
    requires EarlierShown(s.releases, outline) && outline != []
    requires t.releases != [] && Init(t.releases) == Init(s.releases) && t.quote == []
    requires Open(Last(t.releases), Inks(t.item), Last(outline))
    ensures Tracks(t, outline)
  {
    NothingPending(Inks(t.item));
    forall i | 0 <= i < |outline| - 1 ensures Shown(t.releases[i], outline[i]) {
      assert t.releases[i] == Init(t.releases)[i] == Init(s.releases)[i];
    }
  }

  /** The closed quote keeps what is open of the current release. */
  lemma {:induction false} QuoteStaysOpen(s: State, section: Section)
    requires s.releases != [] && (s.item == [] || s.quote == [])
    requires Open(Last(s.releases), Inks(s.item) + Inks(s.quote), section)
    ensures var t := QuoteClosed(s);
      && t.releases != [] && Init(t.releases) == Init(s.releases) && t.quote == []
      && Open(Last(t.releases), Inks(t.item), section)
  {
    SquashKeepsInk(s.quote);
    NothingPending(Inks(s.item));
    NothingPending(Inks(s.quote));
    var text, r := Squashed(s.quote), Last(s.releases);
    if text != "" && r.tagline == "" && r.groups == [] {
      ReleaseTagged(r, s.quote, section);
    } else if text != "" {
      QuoteBecomesText(text);
      assert s.item + [text] == [text];
    }
  }

  lemma {:induction false} QuoteCloses(s: State, outline: seq<Section>)
    requires Tracks(s, outline)
    ensures Tracks(QuoteClosed(s), outline) && QuoteClosed(s).quote == []
  {
    if outline != [] {
      QuoteStaysOpen(s, Last(outline));
      LastOpen(s, QuoteClosed(s), outline);
    } else {
      SquashKeepsInk([]);
    }
  }

  lemma {:induction false} QuoteBecomesText(text: string)
    ensures Inks([text]) == Ink(text) && Inks([]) == []
  {
    assert Init([text]) == [];
    NothingPending(Ink(text));
  }

  /** A new last section goes with a new state of the last release. */
  lemma {:induction false} Reopened(before: seq<Release>, t: State, outline: seq<Section>, section: Section)
    requires EarlierShown(before, outline) && outline != []
    requires t.releases != [] && Init(t.releases) == Init(before)
    requires t.item == [] || t.quote == []
    requires Open(Last(t.releases), Inks(t.item) + Inks(t.quote), section)
    ensures Tracks(t, Init(outline) + [section])
  {
    var next := Init(outline) + [section];
    forall i | 0 <= i < |next| - 1 ensures Shown(t.releases[i], next[i]) {
      assert t.releases[i] == Init(t.releases)[i] == Init(before)[i];
    }
  }

  lemma {:induction false} ReleaseOpens(version: string, date: string)
    ensures Open(Release(version, date, "", []), [], Section(version, date, [NewPart("Notes")]))
  {
    assert Pending("", [], [], NewPart("Notes"));
    assert StandsAt(Release(version, date, "", []), [], Section(version, date, [NewPart("Notes")]), 0);
  }

  lemma {:induction false} ReleaseAdded(before: seq<Release>, t: State, outline: seq<Section>, section: Section)
    requires AllShown(before, outline)
    requires t.releases != [] && Init(t.releases) == before && t.item == [] && t.quote == []
    requires Open(Last(t.releases), [], section)
    ensures Tracks(t, outline + [section])
  {
    assert Inks(t.item) + Inks(t.quote) == [];
    forall i | 0 <= i < |outline| ensures Shown(t.releases[i], outline[i]) {
      assert t.releases[i] == Init(t.releases)[i];
    }
  }

  lemma {:induction false} VersionTracks(s: State, outline: seq<Section>, line: Line, breaks: bool)
    requires Tracks(s, outline) && WellFormed(outline) && line.Version?
    ensures Tracks(VersionRead(s, line.version, line.date), Extended(outline, line, breaks))
  {
    QuoteCloses(s, outline);
    FlushSettles(QuoteClosed(s), outline);
    ReleaseOpens(line.version, line.date);
    ReleaseAdded(Flushed(QuoteClosed(s)).releases, VersionRead(s, line.version, line.date), outline,
                 Section(line.version, line.date, [NewPart("Notes")]));
  }

  /** Without a flush the line goes on with what is open. */
  lemma {:induction false} ContinuedTracks(s: State, t: State, outline: seq<Section>, line: Line)
    requires Tracks(s, outline) && outline != [] && WellFormed(outline) && !line.Heading? && !line.Version?
    requires t.releases == s.releases && (t.item == [] || t.quote == [])
    requires Inks(t.item) + Inks(t.quote) == Inks(s.item) + Inks(s.quote) + InkOf(line)
    ensures Tracks(t, Extended(outline, line, false))
  {
    ReleaseContinued(Last(s.releases), Inks(s.item) + Inks(s.quote), Last(outline), line);
    Reopened(s.releases, t, outline, InkedSection(Last(outline), line, false));
  }

  lemma {:induction false} BlankTracks(s: State, outline: seq<Section>)
    requires Tracks(s, outline) && outline != [] && WellFormed(outline)
    ensures Tracks(s.(afterBlank := true), Extended(outline, Blank, false))
  {
    NothingPending(Inks(s.item) + Inks(s.quote));
    ContinuedTracks(s, s.(afterBlank := true), outline, Blank);
  }

  lemma {:induction false} OneMorePart(parts: seq<string>, part: string)
    ensures Inks(parts + [part]) == Inks(parts) + Ink(part)
    ensures Inks([part]) == Ink(part)
  {
    assert Init(parts + [part]) == parts;
    QuoteBecomesText(part);
  }

  /** After a flush the line may begin an item or a quote. */
  lemma {:induction false} FlushedTracks(s: State, t: State, outline: seq<Section>, line: Line)
    requires Tracks(s, outline) && s.quote == [] && outline != [] && WellFormed(outline)
    requires !line.Heading? && !line.Version?
    requires t.releases == Flushed(s).releases && (t.item == [] || t.quote == [])
    requires Inks(t.item) + Inks(t.quote) == InkOf(line)
    ensures Tracks(t, Extended(outline, line, true))
  {
    FlushSettles(s, outline);
    ReleaseBegun(Last(t.releases), Last(outline), line);
    Reopened(t.releases, t, outline, InkedSection(Last(outline), line, true));
  }

  lemma {:induction false} QuoteStarts(s: State, outline: seq<Section>, line: Line)
    requires Tracks(s, outline) && outline != [] && WellFormed(outline) && line.Quote? && s.quote == []
    ensures Tracks(QuoteRead(s, line.quoted), Extended(outline, line, true))
  {
    var t := QuoteRead(s, line.quoted);
    QuoteBecomesText(line.quoted);
    assert t.quote == [line.quoted];
    NothingPending(Inks(t.quote));
    FlushedTracks(s, t, outline, line);
  }

  lemma {:induction false} QuoteGrows(s: State, quoted: string)
    requires s.item == []
    ensures var t := QuoteRead(s, quoted);
      && t.releases == s.releases && t.item == []
      && Inks(t.item) + Inks(t.quote) == Inks(s.item) + Inks(s.quote) + Ink(quoted)
  {
    SquashKeepsInk([]);
    OneMorePart(s.quote, quoted);
    NothingPending(Inks(s.quote + [quoted]));
    NothingPending(Inks(s.quote));
  }

  lemma {:induction false} QuoteGoesOn(s: State, outline: seq<Section>, line: Line)
    requires Tracks(s, outline) && outline != [] && WellFormed(outline) && line.Quote? && s.quote != []
    ensures Tracks(QuoteRead(s, line.quoted), Extended(outline, line, false))
  {
    QuoteGrows(s, line.quoted);
    ContinuedTracks(s, QuoteRead(s, line.quoted), outline, line);
  }

  lemma {:induction false} HeadingTracks(s: State, outline: seq<Section>, line: Line, blank: bool, breaks: bool)
    requires Tracks(s, outline) && s.quote == [] && outline != [] && WellFormed(outline) && line.Heading?
    ensures Tracks(ContentRead(s, line, blank), Extended(outline, line, breaks))
  {
    FlushSettles(s, outline);
    var t := Flushed(s);
    GroupTracks(t.releases, ContentRead(s, line, blank), outline, line.title);
  }

  lemma {:induction false} GroupTracks(before: seq<Release>, t: State, outline: seq<Section>, title: string)
    requires AllShown(before, outline) && outline != [] && t.item == [] && t.quote == []
    requires t.releases == Init(before) + [WithGroup(Last(before), title)]
    ensures Tracks(t, Init(outline) + [WithPart(Last(outline), title)])
  {
    ReleaseGrouped(Last(before), Last(outline), title);
    assert Inks(t.item) + Inks(t.quote) == [];
    Reopened(before, t, outline, WithPart(Last(outline), title));
  }

  lemma {:induction false} TextBegins(s: State, outline: seq<Section>, line: Line)
    requires Tracks(s, outline) && s.quote == [] && outline != [] && WellFormed(outline) && line.Text?
    ensures Tracks(Flushed(s).(item := [line.words]), Extended(outline, line, true))
  {
    var t := Flushed(s).(item := [line.words]);
    QuoteBecomesText(line.words);
    NothingPending(Inks(t.item));
    FlushedTracks(s, t, outline, line);
  }

  lemma {:induction false} TextGoesOn(s: State, outline: seq<Section>, line: Line)
    requires Tracks(s, outline) && s.quote == [] && outline != [] && WellFormed(outline) && line.Text?
    ensures Tracks(s.(item := s.item + [line.words]), Extended(outline, line, false))
  {
    var t := s.(item := s.item + [line.words]);
    OneMorePart(s.item, line.words);
    NothingPending(Inks(s.item));
    NothingPending(Inks(t.item));
    ContinuedTracks(s, t, outline, line);
  }

  lemma {:induction false} TextTracks(s: State, outline: seq<Section>, line: Line, blank: bool)
    requires Tracks(s, outline) && s.quote == [] && outline != [] && WellFormed(outline) && line.Text?
    ensures Tracks(TextRead(s, line.words, line.indented, blank),
                   Extended(outline, line, Breaks(line, blank, s.itemIsBullet, false)))
  {
    if blank && !(s.itemIsBullet && line.indented) {
      TextBegins(s, outline, line);
      assert [] + [line.words] == [line.words];
    } else {
      TextGoesOn(s, outline, line);
    }
  }

  lemma {:induction false} ContentTracks(s: State, outline: seq<Section>, line: Line, blank: bool)
    requires Tracks(s, outline) && s.quote == [] && outline != [] && WellFormed(outline)
    requires line.Heading? || line.Rule? || line.Bullet? || line.Text?
    ensures Tracks(ContentRead(s, line, blank), Extended(outline, line, Breaks(line, blank, s.itemIsBullet, false)))
  {
    match line
    case Heading(_) => HeadingTracks(s, outline, line, blank, false);
    case Rule => BreakTracks(s, outline, line, blank);
    case Bullet(_) => BreakTracks(s, outline, line, blank);
    case Text(_, _) => TextTracks(s, outline, line, blank);
  }

  lemma {:induction false} BreakTracks(s: State, outline: seq<Section>, line: Line, blank: bool)
    requires Tracks(s, outline) && s.quote == [] && outline != [] && WellFormed(outline)
    requires line.Rule? || line.Bullet?
    ensures Tracks(ContentRead(s, line, blank), Extended(outline, line, true))
  {
    var t := ContentRead(s, line, blank);
    QuoteBecomesText(if line.Rule? then "" else line.text);
    NothingPending(Inks(t.item));
    FlushedTracks(s, t, outline, line);
  }

  /** Where the parser stands is what its own flags say. */
  predicate BreaksHere(s: State, line: Line) {
    Breaks(line, s.afterBlank, s.itemIsBullet, s.quote != [])
  }

  lemma {:induction false} QuoteTracks(s: State, outline: seq<Section>, line: Line)
    requires Tracks(s, outline) && outline != [] && WellFormed(outline) && line.Quote?
    ensures Tracks(QuoteRead(s, line.quoted), Extended(outline, line, s.quote == []))
  {
    if s.quote == [] {
      QuoteStarts(s, outline, line);
    } else {
      QuoteGoesOn(s, outline, line);
    }
  }

  lemma {:induction false} CloseKeepsFlag(s: State)
    ensures QuoteClosed(s).itemIsBullet == s.itemIsBullet
  {
  }

  lemma {:induction false} PastQuoteTracks(s: State, outline: seq<Section>, line: Line, t: State, breaks: bool)
    requires Tracks(s, outline) && outline != [] && WellFormed(outline)
    requires line.Heading? || line.Rule? || line.Bullet? || line.Text?
    requires QuoteClosed(s.(afterBlank := false)).releases != []
    requires t == ContentRead(QuoteClosed(s.(afterBlank := false)), line, s.afterBlank)
    requires breaks == Breaks(line, s.afterBlank, s.itemIsBullet, false)
    ensures Tracks(t, Extended(outline, line, breaks))
  {
    var u := s.(afterBlank := false);
    QuoteCloses(u, outline);
    CloseKeepsFlag(u);
    ContentTracks(QuoteClosed(u), outline, line, s.afterBlank);
  }

  /** Every line leaves parser and outline in step. */
  lemma {:induction false} LineTracks(s: State, outline: seq<Section>, line: Line, breaks: bool)
    requires Tracks(s, outline) && WellFormed(outline) && (outline != [] ==> breaks == BreaksHere(s, line))
    ensures Tracks(LineRead(s, line), Extended(outline, line, breaks))
  {
    if line.Version? {
      VersionTracks(s, outline, line, breaks);
    } else if outline != [] {
      if line.Blank? {
        BlankTracks(s, outline);
      } else if line.Quote? {
        QuoteTracks(s, outline, line);
      } else {
        PastQuoteTracks(s, outline, line, LineRead(s, line), Breaks(line, s.afterBlank, s.itemIsBullet, false));
      }
    }
  }

  // ---------------------------------------------------------------------
  // Whole documents
  // ---------------------------------------------------------------------

  function Empty(): State {
    State([], [], false, false, [])
  }

  function After(lines: seq<Line>, n: nat): State
    requires n <= |lines|
  {
    if n == 0 then Empty() else LineRead(After(lines, n - 1), lines[n - 1])
  }

  /** All releases of a document, the empty ones too. */
  function Parsed(lines: seq<Line>): seq<Release> {
    Flushed(QuoteClosed(After(lines, |lines|))).releases
  }

  /** The parser's flags say how the lines before end. */
  predicate Remembers(s: State, blank: bool, bullet: bool, quote: bool) {
    s.afterBlank == blank && s.itemIsBullet == bullet && (s.quote != []) == quote
  }

  lemma {:induction false} ContentIsRemembered(s: State, line: Line, blank: bool)
    requires s.releases != [] && s.quote == [] && !s.afterBlank
    requires line.Heading? || line.Rule? || line.Bullet? || line.Text?
    ensures Remembers(
      ContentRead(s, line, blank), false,
      line.Bullet? || (line.Text? && s.itemIsBullet && !Breaks(line, blank, s.itemIsBullet, false)), false)
  {
  }

  lemma {:induction false} LineIsRemembered(s: State, line: Line)
    requires s.releases != [] && !line.Version?
    ensures Remembers(LineRead(s, line), line.Blank?,
                      line.Bullet? || (s.itemIsBullet && (line.Blank? || (line.Text? && !BreaksHere(s, line)))),
                      line.Quote? || (line.Blank? && s.quote != []))
  {
    if !line.Blank? && !line.Quote? {
      ContentIsRemembered(QuoteClosed(s.(afterBlank := false)), line, s.afterBlank);
    }
  }

  lemma {:induction false} VersionIsRemembered(s: State, line: Line)
    requires line.Version?
    ensures Remembers(LineRead(s, line), false, false, false)
  {
  }

  predicate InStep(s: State, outline: seq<Section>, blank: bool, bullet: bool, quote: bool) {
    Tracks(s, outline) && WellFormed(outline) && (outline != [] ==> Remembers(s, blank, bullet, quote))
  }

  /** The loop over the first n lines leaves parser and outline in step. */
  lemma {:induction false} AfterKeepsStep(lines: seq<Line>, n: nat)
    requires n <= |lines|
    ensures InStep(After(lines, n), Outline(lines, n), BlankBefore(lines, n), BulletOpen(lines, n), QuoteOpen(lines, n))
  {
    if n > 0 {
      var s, line := After(lines, n - 1), lines[n - 1];
      AfterKeepsStep(lines, n - 1);
      LineTracks(s, Outline(lines, n - 1), line, BreaksAt(lines, n - 1));
      if line.Version? {
        VersionIsRemembered(s, line);
      } else if s.releases != [] {
        LineIsRemembered(s, line);
      }
    }
  }

  lemma {:induction false} EndSettles(s: State, outline: seq<Section>)
    requires Tracks(s, outline)
    ensures AllShown(Flushed(QuoteClosed(s)).releases, outline)
  {
    QuoteCloses(s, outline);
    FlushSettles(QuoteClosed(s), outline);
  }

  /**
   * Whatever the document, every release holds exactly its section: under each
   * heading the ink of its lines, nothing lost, repeated, reordered or moved to
   * another group, and its items cut where the lines say.
   */
  lemma {:induction false} NothingIsLost(lines: seq<Line>)
    ensures AllShown(Parsed(lines), Outline(lines, |lines|))
  {
    AfterKeepsStep(lines, |lines|);
    EndSettles(After(lines, |lines|), Outline(lines, |lines|));
  }

  /** Items begin inside their ink, the first one behind the head. */
  lemma {:induction false} StartsAreInside(h: nat, items: seq<string>)
    requires AllTexts(items)
    ensures forall x :: x in Starts(h, items) ==> h <= x < h + |Inks(items)|
    ensures items != [] ==> h in Starts(h, items)
  {
    if items != [] {
      StartsAreInside(h, Init(items));
      EndIsCut(h, Init(items));
      TidyShowsInk(Last(items));
    }
  }

  lemma {:induction false} StartsAreBreaks(head: string, a: seq<string>, b: seq<string>, part: Part)
    requires Laid(head, a, part) && Laid(head, b, part)
    ensures Starts(|Ink(head)|, a) <= Starts(|Ink(head)|, b)
  {
    var h := |Ink(head)|;
    StartsAreInside(h, a);
    StartsAreInside(h, b);
    EndIsCut(h, b);
    ItemsShow(a);
    ItemsShow(b);
    assert |part.ink| == h + |Inks(a)| == h + |Inks(b)|;
  }

  /** The ink and where items begin in it are all there is to know of their ink. */
  lemma {:induction false} StartsDetermine(h: nat, a: seq<string>, b: seq<string>)
    requires AllTexts(a) && AllTexts(b) && Inks(a) == Inks(b) && Starts(h, a) == Starts(h, b)
    ensures |a| == |b| && forall i :: 0 <= i < |a| ==> Ink(a[i]) == Ink(b[i])
  {
    ItemsShow(a);
    ItemsShow(b);
    if a != [] {
      LastStart(h, a);
      LastStart(h, b);
      var m := |Inks(Init(a))|;
      assert m == |Inks(Init(b))|;
      assert Inks(Init(a)) == Inks(a)[..m] && Inks(Init(b)) == Inks(b)[..m];
      assert Ink(Last(a)) == Inks(a)[m..] && Ink(Last(b)) == Inks(b)[m..];
      StartsDetermine(h, Init(a), Init(b));
    }
  }

  lemma {:induction false} LastStart(h: nat, items: seq<string>)
    requires AllTexts(items) && items != []
    ensures var last := h + |Inks(Init(items))|;
      && last in Starts(h, items) && (forall x :: x in Starts(h, items) ==> x <= last)
      && Starts(h, Init(items)) == Starts(h, items) - {last}
  {
    StartsAreInside(h, Init(items));
    EndIsCut(h, Init(items));
  }

  /** A head and a part leave no choice: how many items there are, and what each of them shows. */
  lemma {:induction false} ItemsAreDetermined(head: string, a: seq<string>, b: seq<string>, part: Part)
    requires Laid(head, a, part) && Laid(head, b, part)
    ensures |a| == |b| && forall i :: 0 <= i < |a| ==> Ink(a[i]) == Ink(b[i])
  {
    StartsAreBreaks(head, a, b, part);
    StartsAreBreaks(head, b, a, part);
    assert Inks(a) == part.ink[|Ink(head)|..] == Inks(b);
    StartsDetermine(|Ink(head)|, a, b);
  }

  function GroupsInk(groups: seq<Group>, n: nat): string
    requires n <= |groups|
  {
    if n == 0 then [] else GroupsInk(groups, n - 1) + Inks(groups[n - 1].items)
  }

  function PartsInk(parts: seq<Part>, n: nat): string
    requires n <= |parts|
  {
    if n == 0 then [] else PartsInk(parts, n - 1) + parts[n - 1].ink
  }

  /** How many of the release's groups belong to the first n parts. */
  function GroupsOf(r: Release, m: nat, n: nat): nat
    requires Counts(r, m) && 0 < n <= m
  {
    if |r.groups| == m then n else n - 1
  }

  lemma {:induction false} InkOfFirst(r: Release, section: Section)
    requires Shown(r, section)
    ensures Ink(r.tagline) + GroupsInk(r.groups, GroupsOf(r, |section.parts|, 1)) == PartsInk(section.parts, 1)
  {
    assert LaidAt(r, section, 0) && Inks([]) == [];
    NothingPending(section.parts[0].ink);
    NothingPending(Ink(r.tagline));
    if |r.groups| == |section.parts| {
      NothingPending(Inks(r.groups[0].items));
    }
  }

  lemma {:induction false} InkOfOneMore(r: Release, section: Section, n: nat)
    requires Shown(r, section) && 0 < n < |section.parts|
    ensures var k := GroupsOf(r, |section.parts|, n);
      Inks(r.groups[k].items) == section.parts[n].ink
  {
    assert LaidAt(r, section, n) && Ink("") == [];
    var k := GroupsOf(r, |section.parts|, n);
    NothingPending(Inks(r.groups[k].items));
  }

  lemma {:induction false} InkUpTo(r: Release, section: Section, n: nat)
    requires Shown(r, section) && 0 < n <= |section.parts|
    ensures Ink(r.tagline) + GroupsInk(r.groups, GroupsOf(r, |section.parts|, n)) == PartsInk(section.parts, n)
  {
    if n == 1 {
      InkOfFirst(r, section);
    } else {
      var k := GroupsOf(r, |section.parts|, n);
      InkUpTo(r, section, n - 1);
      InkOfOneMore(r, section, n - 1);
      Regroup(Ink(r.tagline), GroupsInk(r.groups, k - 1), Inks(r.groups[k - 1].items));
    }
  }

  /** Tagline and items in order show the ink of the release's lines in document order. */
  lemma {:induction false} ReadsInDocumentOrder(r: Release, section: Section)
    requires Shown(r, section)
    ensures Ink(r.tagline) + GroupsInk(r.groups, |r.groups|) == PartsInk(section.parts, |section.parts|)
  {
    InkUpTo(r, section, |section.parts|);
  }

  /** The ink of the lines from one index to another. */
  function LinesInk(lines: seq<Line>, from: nat, to: nat): string
    requires from <= to <= |lines|
  {
    if from == to then [] else LinesInk(lines, from, to - 1) + InkOf(lines[to - 1])
  }

  /** Where the version headings among the first n lines are. */
  function Versions(lines: seq<Line>, n: nat): seq<nat>
    requires n <= |lines|
  {
    if n == 0 then [] else Versions(lines, n - 1) + (if lines[n - 1].Version? then [n - 1] else [])
  }

  /** Where the lines behind heading r end: at the next heading, or after n lines. */
  function EndOf(versions: seq<nat>, r: nat, n: nat): nat {
    if r + 1 < |versions| then versions[r + 1] else n
  }

  lemma {:induction false} PartsInkLooksNoFurther(a: seq<Part>, b: seq<Part>, n: nat)
    requires n <= |a| && n <= |b| && forall i :: 0 <= i < n ==> a[i] == b[i]
    ensures PartsInk(a, n) == PartsInk(b, n)
  {
    if n > 0 {
      PartsInkLooksNoFurther(a, b, n - 1);
    }
  }

  lemma {:induction false} InkAddedToLast(parts: seq<Part>, next: seq<Part>, ink: string)
    requires parts != [] && |next| == |parts|
    requires forall i :: 0 <= i < |parts| - 1 ==> next[i] == parts[i]
    requires Last(next).ink == Last(parts).ink + ink
    ensures PartsInk(next, |next|) == PartsInk(parts, |parts|) + ink
  {
    var m := |parts|;
    PartsInkLooksNoFurther(parts, next, m - 1);
    Regroup(PartsInk(parts, m - 1), parts[m - 1].ink, ink);
  }

  lemma {:induction false} HeadingAddsNoInk(section: Section, title: string)
    ensures var next := WithPart(section, title).parts;
      PartsInk(next, |next|) == PartsInk(section.parts, |section.parts|) + []
  {
    PartsInkLooksNoFurther(section.parts, WithPart(section, title).parts, |section.parts|);
  }

  /** A line adds its ink at the end of its section. */
  lemma {:induction false} LineAddsItsInk(section: Section, line: Line, breaks: bool)
    requires section.parts != [] && !line.Version?
    ensures var next := InkedSection(section, line, breaks).parts;
      PartsInk(next, |next|) == PartsInk(section.parts, |section.parts|) + InkOf(line)
  {
    if line.Heading? {
      HeadingAddsNoInk(section, line.title);
    } else {
      PartsBut(section, line, breaks);
      InkAddedToLast(section.parts, InkedSection(section, line, breaks).parts, InkOf(line));
    }
  }

  /** The section is the lines behind the version heading at one index and before another. */
  predicate IsLines(section: Section, lines: seq<Line>, at: nat, to: nat) {
    match section
    case Section(version, date, parts) =>
      && at < to <= |lines| && lines[at].Version?
      && version == lines[at].version && date == lines[at].date
      && PartsInk(parts, |parts|) == LinesInk(lines, at + 1, to)
  }

  /** The last section is the lines up to index n, and those before it are the lines up to its heading. */
  predicate AllLines(outline: seq<Section>, versions: seq<nat>, lines: seq<Line>, n: nat) {
    && |outline| == |versions|
    && (outline != [] ==>
          && IsLines(Last(outline), lines, Last(versions), n)
          && AllLines(Init(outline), Init(versions), lines, Last(versions)))
  }

  lemma {:induction false} LinesGoOn(section: Section, lines: seq<Line>, at: nat, to: nat, breaks: bool)
    requires section.parts != [] && IsLines(section, lines, at, to) && to < |lines| && !lines[to].Version?
    ensures IsLines(InkedSection(section, lines[to], breaks), lines, at, to + 1)
  {
    LineAddsItsInk(section, lines[to], breaks);
  }

  lemma {:induction false} LinesStart(lines: seq<Line>, at: nat)
    requires at < |lines| && lines[at].Version?
    ensures IsLines(Section(lines[at].version, lines[at].date, [NewPart("Notes")]), lines, at, at + 1)
  {
    assert PartsInk([NewPart("Notes")], 1) == [];
  }

  /** One more line keeps outline and headings together. */
  lemma {:induction false} LinesExtend(outline: seq<Section>, versions: seq<nat>, lines: seq<Line>, n: nat,
        breaks: bool)
    requires n < |lines| && WellFormed(outline) && AllLines(outline, versions, lines, n)
    ensures AllLines(Extended(outline, lines[n], breaks),
                     versions + (if lines[n].Version? then [n] else []), lines, n + 1)
  {
    var line := lines[n];
    if line.Version? {
      LinesStart(lines, n);
      var section := Section(line.version, line.date, [NewPart("Notes")]);
      assert Init(outline + [section]) == outline && Init(versions + [n]) == versions;
    } else {
      assert versions + [] == versions;
      if outline != [] {
        LinesGoOn(Last(outline), lines, Last(versions), n, breaks);
        assert Init(Extended(outline, line, breaks)) == Init(outline);
      }
    }
  }

  lemma {:induction false} OneMoreOutlined(lines: seq<Line>, n: nat) returns (breaks: bool)
    requires n < |lines|
    ensures Outline(lines, n + 1) == Extended(Outline(lines, n), lines[n], breaks)
    ensures Versions(lines, n + 1) == Versions(lines, n) + (if lines[n].Version? then [n] else [])
  {
    breaks := BreaksAt(lines, n);
  }

  /** The outline's sections are the lines between one version heading and the next. */
  lemma {:induction false} SectionsAreLines(lines: seq<Line>, n: nat)
    requires n <= |lines|
    ensures AllLines(Outline(lines, n), Versions(lines, n), lines, n)
  {
    if n > 0 {
      SectionsAreLines(lines, n - 1);
      var breaks := OneMoreOutlined(lines, n - 1);
      LinesExtend(Outline(lines, n - 1), Versions(lines, n - 1), lines, n - 1, breaks);
    }
  }

  /** The release has the heading at one index and shows exactly the ink of the lines before another. */
  predicate ReadsLines(release: Release, lines: seq<Line>, at: nat, to: nat) {
    && at < to <= |lines| && lines[at].Version?
    && release.version == lines[at].version && release.date == lines[at].date
    && Ink(release.tagline) + GroupsInk(release.groups, |release.groups|) == LinesInk(lines, at + 1, to)
  }

  lemma {:induction false} ShownReadsLines(release: Release, section: Section, lines: seq<Line>, at: nat, to: nat)
    requires Shown(release, section) && IsLines(section, lines, at, to)
    ensures ReadsLines(release, lines, at, to)
  {
    ReadsInDocumentOrder(release, section);
  }

  lemma {:induction false} SectionIsItsLines(outline: seq<Section>, versions: seq<nat>, lines: seq<Line>, n: nat,
        r: nat)
    requires AllLines(outline, versions, lines, n) && r < |outline|
    ensures IsLines(outline[r], lines, versions[r], EndOf(versions, r, n))
  {
    if r < |outline| - 1 {
      SectionIsItsLines(Init(outline), Init(versions), lines, Last(versions), r);
    }
  }

  /**
   * Each release of a document shows, tagline first and item by item, exactly
   * the ink of the lines between its version heading and the next one.
   */
  lemma {:induction false} ReleaseReadsItsLines(lines: seq<Line>, r: nat)
    requires r < |Parsed(lines)|
    ensures var versions := Versions(lines, |lines|);
      && |Parsed(lines)| == |versions|
      && ReadsLines(Parsed(lines)[r], lines, versions[r], EndOf(versions, r, |lines|))
  {
    NothingIsLost(lines);
    var outline, versions := Outline(lines, |lines|), Versions(lines, |lines|);
    SectionsAreLines(lines, |lines|);
    SectionIsItsLines(outline, versions, lines, |lines|, r);
    ShownReadsLines(Parsed(lines)[r], outline[r], lines, versions[r], EndOf(versions, r, |lines|));
  }

  /** What the raw lines from one index to another are to show. */
  ghost function TextShows(text: seq<string>, from: nat, to: nat): string
    requires from <= to <= |text|
  {
    if from == to then [] else TextShows(text, from, to - 1) + Shows(text[to - 1])
  }

  /** Where the release headings among the first n raw lines are. */
  ghost function Headings(text: seq<string>, n: nat): seq<nat>
    requires n <= |text|
  {
    if n == 0 then [] else Headings(text, n - 1) + (if HeadsRelease(text[n - 1]) then [n - 1] else [])
  }

  lemma {:induction false} HeadingsAreVersions(text: seq<string>, n: nat)
    requires n <= |text|
    ensures Versions(Kinds(text), n) == Headings(text, n)
  {
    if n > 0 {
      HeadingsAreVersions(text, n - 1);
      VersionIff(text[n - 1]);
    }
  }

  ghost predicate ShowsAlike(line: Line, raw: string) {
    InkOf(line) == Shows(raw)
  }

  lemma {:induction false} LinesShowText(lines: seq<Line>, text: seq<string>, from: nat, to: nat)
    requires from <= to <= |text| == |lines|
    requires forall i :: 0 <= i < |text| ==> ShowsAlike(lines[i], text[i])
    ensures LinesInk(lines, from, to) == TextShows(text, from, to)
  {
    if from < to {
      LinesShowText(lines, text, from, to - 1);
      assert ShowsAlike(lines[to - 1], text[to - 1]);
    }
  }

  lemma {:induction false} TextIsItsLines(text: seq<string>, from: nat, to: nat)
    requires from <= to <= |text|
    ensures LinesInk(Kinds(text), from, to) == TextShows(text, from, to)
  {
    var lines := Kinds(text);
    forall i | 0 <= i < |text| ensures ShowsAlike(lines[i], text[i]) {
      OnlyMarkersGo(text[i]);
    }
    LinesShowText(lines, text, from, to);
  }

  /** The line is the release's heading. */
  ghost predicate IsHeadingOf(line: string, release: Release) {
    exists rest ::
      line == Heads(release.version, rest) && ']' !in release.version && release.date == DateOf(rest)
  }

  /** The release is headed by the raw line at one index and shows what the raw lines before another show. */
  ghost predicate ReadsText(release: Release, text: seq<string>, at: nat, to: nat) {
    && at < to <= |text| && IsHeadingOf(text[at], release)
    && Ink(release.tagline) + GroupsInk(release.groups, |release.groups|) == TextShows(text, at + 1, to)
  }

  lemma {:induction false} HeadingIsItsRest(line: string, release: Release)
    requires Classify(line) == Version(release.version, release.date)
    ensures IsHeadingOf(line, release)
  {
    VersionIff(line);
    var version := release.version;
    var rest :| line == Heads(version, rest) && ']' !in version;
    assert version != "" by {
      assert line[4..] == version + [']'] + rest;
      UpToStops(version, ']', rest);
    }
    HeadingIsVersion(version, rest);
  }

  lemma {:induction false} LinesReadText(release: Release, text: seq<string>, at: nat, to: nat)
    requires ReadsLines(release, Kinds(text), at, to)
    ensures ReadsText(release, text, at, to)
  {
    TextIsItsLines(text, at + 1, to);
    HeadingIsItsRest(text[at], release);
  }

  /** Each release of a text shows exactly what is visible of the raw lines up to the next release heading. */
  lemma {:induction false} ReleaseReadsItsText(text: seq<string>, r: nat)
    requires r < |Parsed(Kinds(text))|
    ensures var at := Headings(text, |text|);
      && |Parsed(Kinds(text))| == |at|
      && ReadsText(Parsed(Kinds(text))[r], text, at[r], EndOf(at, r, |text|))
  {
    var at := Headings(text, |text|);
    ReleaseReadsItsLines(Kinds(text), r);
    HeadingsAreVersions(text, |text|);
    LinesReadText(Parsed(Kinds(text))[r], text, at[r], EndOf(at, r, |text|));
  }

  predicate HasItems(r: Release) {
    exists i :: 0 <= i < |r.groups| && r.groups[i].items != []
  }

  /** A release is dropped exactly when its lines show nothing but a tagline. */
  lemma {:induction false} DroppedIffOnlyTagline(r: Release, section: Section)
    requires Shown(r, section)
    ensures !HasItems(r) <==>
            forall i :: 0 <= i < |section.parts| ==> section.parts[i].ink == Ink(HeadAt(r, i))
  {
    var m := |section.parts|;
    forall i | 0 <= i < m
      ensures section.parts[i].ink == Ink(HeadAt(r, i)) <==> ItemsAt(r, m, i) == []
    {
      assert LaidAt(r, section, i);
      ItemsShow(ItemsAt(r, m, i));
      NothingPending(Ink(HeadAt(r, i)));
    }
    if HasItems(r) {
      var i :| 0 <= i < |r.groups| && r.groups[i].items != [];
      var k := if |r.groups| == m then i else i + 1;
      assert ItemsAt(r, m, k) == r.groups[i].items;
    }
  }

  lemma {:induction false} ItemsShow(items: seq<string>)
    requires AllTexts(items)
    ensures Inks(items) == [] <==> items == []
  {
    if items != [] {
      TidyShowsInk(Last(items));
    }
  }

  predicate Increasing(at: seq<nat>) {
    forall i, j :: 0 <= i < j < |at| ==> at[i] < at[j]
  }

  /** The kept releases are those of the list that have an item, once each and in its order. */
  ghost predicate Picks(kept: seq<Release>, at: seq<nat>, all: seq<Release>) {
    && |kept| == |at| && Increasing(at)
    && (forall i :: 0 <= i < |at| ==> at[i] < |all| && kept[i] == all[at[i]])
    && (forall j :: 0 <= j < |all| ==> (HasItems(all[j]) <==> j in at))
  }

  lemma {:induction false} PicksGrow(kept: seq<Release>, at: seq<nat>, all: seq<Release>, r: Release)
    requires Picks(kept, at, all)
    ensures HasItems(r) ==> Picks(kept + [r], at + [|all|], all + [r])
    ensures !HasItems(r) ==> Picks(kept, at, all + [r])
  {
    if HasItems(r) {
      var next, more := at + [|all|], all + [r];
      forall j | 0 <= j < |more| ensures HasItems(more[j]) <==> j in next {
        assert j < |all| ==> more[j] == all[j];
      }
    }
  }

  class Parser {
    var releases: seq<Release>
    var item: seq<string>
    var itemIsBullet: bool
    var afterBlank: bool
    var quote: seq<string>

    ghost function Abstract(): State
      reads this
    {
      State(releases, item, itemIsBullet, afterBlank, quote)
    }

    constructor ()
      ensures Abstract() == Empty()
    {
      releases, item, itemIsBullet, afterBlank, quote := [], [], false, false, [];
    }

    method Flush()
      modifies this
      ensures Abstract() == Flushed(old(Abstract()))
    {
      var text := Squash(item);
      item := [];
      itemIsBullet := false;
      if releases == [] || text == "" {
        return;
      }
      var r := Last(releases);
      var groups := r.groups;
      if groups == [] {
        groups := groups + [Group("Notes", [])];
      }
      var group := Last(groups);
      groups := Init(groups) + [Group(group.title, group.items + [text])];
      assert groups == AddItem(r.groups, text) by {
        assert r.groups == [] ==> group.items + [text] == [text];
      }
      releases := Init(releases) + [r.(groups := groups)];
    }

    method CloseQuote()
      modifies this
      ensures Abstract() == QuoteClosed(old(Abstract()))
    {
      var text := Squash(quote);
      quote := [];
      if releases == [] || text == "" {
        return;
      }
      var r := Last(releases);
      if r.tagline == "" && r.groups == [] {
        releases := Init(releases) + [r.(tagline := text)];
      } else {
        item := item + [text];
      }
    }

    /** One turn of the line loop. */
    method ReadLine(kind: Line)
      modifies this
      ensures Abstract() == LineRead(old(Abstract()), kind)
    {
      if kind.Version? {
        ReadVersion(kind.version, kind.date);
        return;
      }
      if releases == [] {
        return;
      }
      if kind.Blank? {
        afterBlank := true;
        return;
      }
      var blank := afterBlank;
      afterBlank := false;
      if kind.Quote? {
        ReadQuote(kind.quoted);
        return;
      }
      CloseQuote();
      ReadContent(kind, blank);
    }

    method ReadQuote(quoted: string)
      modifies this
      ensures Abstract() == QuoteRead(old(Abstract()), quoted)
    {
      Flush();
      quote := quote + [quoted];
      afterBlank := false;
    }

    method ReadVersion(version: string, date: string)
      modifies this
      ensures Abstract() == VersionRead(old(Abstract()), version, date)
    {
      CloseQuote();
      Flush();
      releases := releases + [Release(version, date, "", [])];
      afterBlank := false;
    }

    /** ... once it is known to be content. */
    method ReadContent(kind: Line, blank: bool)
      requires releases != []
      modifies this
      ensures Abstract() == ContentRead(old(Abstract()), kind, blank)
    {
      match kind {
        case Heading(title) =>
          Flush();
          var r := Last(releases);
          releases := Init(releases) + [r.(groups := r.groups + [Group(title, [])])];
        case Rule =>
          Flush();
        case Bullet(text) =>
          Flush();
          item := [text];
          itemIsBullet := true;
        case Text(words, indented) =>
          if blank && !(itemIsBullet && indented) {
            Flush();
          }
          item := item + [words];
        case _ =>
      }
    }
  }

  /**
   * The page's releases: those of the document that have an item, in its order.
   * Each shows what is visible of its own raw lines.
   */
  method ParseChangelog(md: string) returns (kept: seq<Release>)
    ensures var text := SplitLines(md);
      var all, at := Parsed(Kinds(text)), Headings(text, |text|);
      && AllShown(all, Outline(Kinds(text), |text|))
      && |all| == |at|
      && (forall r :: 0 <= r < |all| ==> ReadsText(all[r], text, at[r], EndOf(at, r, |text|)))
      && exists picked :: Picks(kept, picked, all)
  {
    ghost var text := SplitLines(md);
    var lines := Kinds(SplitLines(md));
    var all := ParseLines(lines);
    kept := KeepWithItems(all);
    NothingIsLost(lines);
    AllReadTheirText(text);
  }

  lemma {:induction false} AllReadTheirText(text: seq<string>)
    ensures var all, at := Parsed(Kinds(text)), Headings(text, |text|);
      && |all| == |at|
      && forall r :: 0 <= r < |all| ==> ReadsText(all[r], text, at[r], EndOf(at, r, |text|))
  {
    NothingIsLost(Kinds(text));
    SectionsAreLines(Kinds(text), |text|);
    HeadingsAreVersions(text, |text|);
    var all, at := Parsed(Kinds(text)), Headings(text, |text|);
    forall r | 0 <= r < |all| ensures ReadsText(all[r], text, at[r], EndOf(at, r, |text|)) {
      ReleaseReadsItsText(text, r);
    }
  }

  method KeepWithItems(all: seq<Release>) returns (kept: seq<Release>)
    ensures exists picked :: Picks(kept, picked, all)
  {
    kept := [];
    ghost var picked: seq<nat> := [];
    for i := 0 to |all|
      invariant Picks(kept, picked, all[..i])
    {
      PicksGrow(kept, picked, all[..i], all[i]);
      assert all[..i] + [all[i]] == all[..i + 1];
      if HasItems(all[i]) {
        kept := kept + [all[i]];
        picked := picked + [i];
      }
    }
    assert all[..|all|] == all;
  }

  lemma {:induction false} OneMoreRead(lines: seq<Line>, n: nat)
    requires n < |lines|
    ensures After(lines, n + 1) == LineRead(After(lines, n), lines[n])
  {
  }

  method ParseLines(lines: seq<Line>) returns (all: seq<Release>)
    ensures all == Parsed(lines)
  {
    var parser := new Parser();
    for i := 0 to |lines|
      invariant parser.Abstract() == After(lines, i)
    {
      OneMoreRead(lines, i);
      parser.ReadLine(lines[i]);
    }
    parser.CloseQuote();
    parser.Flush();
    all := parser.releases;
  }
}
