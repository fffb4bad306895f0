/**
 * The changelog page's reading of a single line, what kind it is and what it
 * says, and the joining of wrapped lines.
 */
module ChangelogLines {
  import opened JsText

  // ---------------------------------------------------------------------
  // Kinds of lines
  // ---------------------------------------------------------------------

  datatype Line =
    | Version(version: string, date: string)
    | Blank
    | Quote(quoted: string)
    | Heading(title: string)
    | Rule
    | Bullet(text: string)
    | Text(words: string, indented: bool)

  /** `\S+` at the front */
  function SolidFront(s: string): string {
    if s == [] || IsSpace(s[0]) then [] else [s[0]] + SolidFront(s[1..])
  }

  function UpTo(s: string, c: char): string {
    if s == [] || s[0] == c then [] else [s[0]] + UpTo(s[1..], c)
  }

  lemma {:induction false} UpToFits(s: string, c: char)
    ensures |UpTo(s, c)| <= |s|
  {
    if s != [] && s[0] != c {
      UpToFits(s[1..], c);
    }
  }

  /** `(?:\s*-\s*(\S+))?` */
  function DateOf(rest: string): string {
    var dash := TrimStart(rest);
    if dash == [] || dash[0] != '-' then [] else SolidFront(TrimStart(dash[1..]))
  }

  function Classify(line: string): Line {
    if IsVersion(line) then
      var version := UpTo(line[4..], ']');
      UpToFits(line[4..], ']');
      Version(version, DateOf(line[4 + |version|..][1..]))
    else if AllSpace(line) then Blank
    else if line[0] == '>' then Quote(if |line| > 1 && IsSpace(line[1]) then line[2..] else line[1..])
    else if "### " <= line then Heading(Trim(line[4..]))
    else if "---" <= line && AllSpace(line[3..]) then Rule
    else if "- " <= line || "* " <= line then Bullet(line[2..])
    else Text(Trim(line), IsSpace(line[0]))
  }

  /** `^## \[([^\]]+)\]` */
  predicate IsVersion(line: string) {
    && "## [" <= line
    && var version := UpTo(line[4..], ']');
       UpToFits(line[4..], ']');
       version != [] && 4 + |version| < |line|
  }

  predicate Solid(s: string) {
    forall i :: 0 <= i < |s| ==> !IsSpace(s[i])
  }

  lemma {:induction false} UpToStops(v: string, c: char, rest: string)
    requires c !in v
    ensures UpTo(v + [c] + rest, c) == v
  {
    var s := v + [c] + rest;
    if v != [] {
      assert s[0] == v[0] && s[1..] == v[1..] + [c] + rest;
      UpToStops(v[1..], c, rest);
    }
  }

  lemma {:induction false} UpToIsPrefix(s: string, c: char)
    ensures |UpTo(s, c)| <= |s| && c !in UpTo(s, c)
    ensures s == UpTo(s, c) + s[|UpTo(s, c)|..]
    ensures |UpTo(s, c)| < |s| ==> s[|UpTo(s, c)|] == c
  {
    if s != [] && s[0] != c {
      UpToIsPrefix(s[1..], c);
      assert s == [s[0]] + s[1..];
    }
  }

  lemma {:induction false} SolidStops(word: string, tail: string)
    requires Solid(word) && (tail == "" || IsSpace(tail[0]))
    ensures SolidFront(word + tail) == word
  {
    if word == [] {
      assert word + tail == tail;
    } else {
      assert (word + tail)[1..] == word[1..] + tail;
      SolidStops(word[1..], tail);
    }
  }

  /** What follows the version gives its date: a dash and a word, with any white space before either. */
  lemma {:induction false} DateIsRead(gap: string, space: string, date: string, tail: string)
    requires AllSpace(gap) && AllSpace(space) && date != "" && Solid(date) && (tail == "" || IsSpace(tail[0]))
    ensures DateOf(gap + "-" + space + date + tail) == date
  {
    var dashed := "-" + (space + (date + tail));
    assert gap + "-" + space + date + tail == gap + dashed;
    TrimStartStops(gap, dashed);
    assert dashed[1..] == space + (date + tail);
    TrimStartStops(space, date + tail);
    SolidStops(date, tail);
  }

  /** Without a dash, or without a word behind it, there is no date. */
  lemma {:induction false} NoDateIsRead(gap: string, rest: string)
    requires AllSpace(gap)
    requires rest == "" || (!IsSpace(rest[0]) && rest[0] != '-') || (rest[0] == '-' && AllSpace(rest[1..]))
    ensures DateOf(gap + rest) == ""
  {
    TrimStartStops(gap, rest);
    if rest != "" && rest[0] == '-' {
      TrimStartStops(rest[1..], "");
      assert rest[1..] + "" == rest[1..];
    }
  }

  function Heads(version: string, rest: string): string {
    "## [" + version + "]" + rest
  }

  lemma {:induction false} HeadingIsVersion(version: string, rest: string)
    requires version != "" && ']' !in version
    ensures Classify(Heads(version, rest)) == Version(version, DateOf(rest))
  {
    var line := Heads(version, rest);
    assert line[4..] == version + [']'] + rest;
    UpToStops(version, ']', rest);
    assert line[4 + |version|..][1..] == rest;
  }

  /** A release heading gives its version and its date, however they are spaced and whatever follows. */
  lemma {:induction false} ReleaseHeadingIsRead(version: string, gap: string, space: string, date: string, tail: string)
    requires version != "" && ']' !in version && AllSpace(gap) && AllSpace(space)
    requires date != "" && Solid(date) && (tail == "" || IsSpace(tail[0]))
    ensures Classify(Heads(version, gap + "-" + space + date + tail)) == Version(version, date)
  {
    HeadingIsVersion(version, gap + "-" + space + date + tail);
    DateIsRead(gap, space, date, tail);
  }

  lemma {:induction false} UndatedHeadingIsRead(version: string, gap: string, rest: string)
    requires version != "" && ']' !in version && AllSpace(gap)
    requires rest == "" || (!IsSpace(rest[0]) && rest[0] != '-') || (rest[0] == '-' && AllSpace(rest[1..]))
    ensures Classify(Heads(version, gap + rest)) == Version(version, "")
  {
    HeadingIsVersion(version, gap + rest);
    NoDateIsRead(gap, rest);
  }

  ghost predicate HeadsRelease(line: string) {
    exists version, rest :: line == Heads(version, rest) && version != "" && ']' !in version
  }

  lemma {:induction false} VersionIff(line: string)
    ensures Classify(line).Version? <==> HeadsRelease(line)
    ensures Classify(line).Version? ==>
      exists rest :: line == Heads(Classify(line).version, rest) && ']' !in Classify(line).version
  {
    if Classify(line).Version? {
      var version := UpTo(line[4..], ']');
      UpToIsPrefix(line[4..], ']');
      var rest := line[4 + |version|..][1..];
      assert line[4 + |version|] == line[4..][|version|] == ']';
      assert line == Heads(version, rest);
    }
    if HeadsRelease(line) {
      var version, rest :| line == Heads(version, rest) && version != "" && ']' !in version;
      HeadingIsVersion(version, rest);
    }
  }

  /** The marker at a line's front says what the line is, whatever text follows it. */
  lemma {:induction false} MarkersAreRead(t: string)
    ensures Classify("- " + t) == Classify("* " + t) == Bullet(t)
    ensures Classify("### " + t) == Heading(Trim(t))
    ensures Classify(">" + t) == Quote(if t != "" && IsSpace(t[0]) then t[1..] else t)
    ensures AllSpace(t) ==> Classify("---" + t) == Rule && Classify(t) == Blank
  {
    BulletIsRead("- ", t);
    BulletIsRead("* ", t);
    HeadingIsRead(t);
    if AllSpace(t) {
      RuleIsRead(t);
    }
    QuoteIsRead(t);
  }

  lemma {:induction false} QuoteIsRead(t: string)
    ensures Classify(">" + t) == Quote(if t != "" && IsSpace(t[0]) then t[1..] else t)
  {
    var line := ">" + t;
    assert line[0] == '>' && line[1..] == t;
    assert t != "" ==> line[1] == t[0] && line[2..] == t[1..];
  }

  lemma {:induction false} BulletIsRead(marker: string, t: string)
    requires marker == "- " || marker == "* "
    ensures Classify(marker + t) == Bullet(t)
  {
    var line := marker + t;
    assert line[0] == marker[0] && line[1] == ' ' && line[2..] == t && marker <= line;
  }

  lemma {:induction false} HeadingIsRead(t: string)
    ensures Classify("### " + t) == Heading(Trim(t))
  {
    var line := "### " + t;
    assert line[0] == '#' && line[2] == '#' && line[4..] == t && "### " <= line;
  }

  lemma {:induction false} RuleIsRead(t: string)
    requires AllSpace(t)
    ensures Classify("---" + t) == Rule && Classify(t) == Blank
  {
    var line := "---" + t;
    assert line[0] == '-' && line[1] == '-' && line[3..] == t && "---" <= line;
    assert t != "" ==> t[0] != '#';
  }

  predicate IsMarked(line: string) {
    ">" <= line || "### " <= line || "- " <= line || "* " <= line || ("---" <= line && Ink(line) == "---")
  }

  lemma {:induction false} InkIffSolid(s: string)
    ensures Ink(s) == [] <==> AllSpace(s)
  {
    if s != [] {
      InkIffSolid(s[1..]);
      assert AllSpace(s) <==> IsSpace(s[0]) && AllSpace(s[1..]);
    }
  }

  lemma {:induction false} InkPast(c: char, line: string)
    requires line != "" && line[0] == c && !IsSpace(c)
    ensures Ink(line) == [c] + Ink(line[1..])
  {
  }

  /** Three characters of ink at the front. */
  lemma {:induction false} InkPastThree(c: char, line: string)
    requires |line| >= 3 && line[0] == line[1] == line[2] == c && !IsSpace(c)
    ensures Ink(line) == [c, c, c] + Ink(line[3..])
  {
    assert line[1..][1..] == line[2..] && line[2..][1..] == line[3..];
    InkPast(c, line);
    InkPast(c, line[1..]);
    InkPast(c, line[2..]);
    assert [c] + ([c] + ([c] + Ink(line[3..]))) == [c, c, c] + Ink(line[3..]);
  }

  lemma {:induction false} InkOfRule(line: string)
    requires "---" <= line
    ensures Ink(line) == "---" <==> AllSpace(line[3..])
  {
    InkPastThree('-', line);
    InkIffSolid(line[3..]);
    assert Ink(line) == "---" + Ink(line[3..]);
  }

  /**
   * A line is of a kind exactly when it shows that kind's marker, and what it
   * shows besides the marker is the kind's text.
   */
  lemma {:induction false} KindIff(line: string)
    ensures match Classify(line)
            case Version(_, _) => HeadsRelease(line)
            case Blank => Ink(line) == []
            case Quote(_) => ">" <= line
            case Heading(title) => "### " <= line && Ink(line) == "###" + Ink(title)
            case Rule => "---" <= line && Ink(line) == "---"
            case Bullet(text) => line == "- " + text || line == "* " + text
            case Text(words, indented) =>
              && Ink(line) != [] && !HeadsRelease(line) && !IsMarked(line)
              && words == Trim(line) && Ink(words) == Ink(line) && indented == IsSpace(line[0])
  {
    match Classify(line)
    case Version(_, _) => VersionIff(line);
    case Blank => InkIffSolid(line);
    case Heading(_) => InkOfHeading(line);
    case Rule => InkOfRule(line);
    case Text(_, _) => TextIsPlain(line);
    case _ =>
  }

  lemma {:induction false} TextIsPlain(line: string)
    requires Classify(line).Text?
    ensures Ink(line) != [] && !HeadsRelease(line) && !IsMarked(line)
    ensures Classify(line) == Text(Trim(line), IsSpace(line[0])) && Ink(Trim(line)) == Ink(line)
  {
    VersionIff(line);
    InkIffSolid(line);
    if "---" <= line {
      InkOfRule(line);
    }
    InkOfTrim(line);
  }

  lemma {:induction false} InkOfHeading(line: string)
    requires "### " <= line
    ensures Ink(line) == "###" + Ink(Trim(line[4..]))
  {
    InkPastThree('#', line);
    assert line[3] == ' ' && line[3..][1..] == line[4..];
    InkOfTrim(line[4..]);
  }

  /** What a line adds to the text of its release. */
  function InkOf(line: Line): string {
    match line
    case Quote(quoted) => Ink(quoted)
    case Bullet(text) => Ink(text)
    case Text(words, _) => Ink(words)
    case _ => []
  }

  /** What a reader is to see of a raw line: its ink, but for its marker and for what heads a release or group. */
  ghost function Shows(line: string): string {
    if HeadsRelease(line) || "### " <= line || Ink(line) == [] then []
    else if ">" <= line || "- " <= line || "* " <= line then Ink(line)[1..]
    else if "---" <= line && Ink(line) == "---" then []
    else Ink(line)
  }

  lemma {:induction false} InkOfQuote(line: string)
    requires Classify(line).Quote?
    ensures Ink(line) == [line[0]] + Ink(Classify(line).quoted)
  {
    if |line| > 1 && IsSpace(line[1]) {
      assert line[1..][1..] == line[2..];
    }
  }

  lemma {:induction false} InkOfBullet(line: string)
    requires Classify(line).Bullet?
    ensures Ink(line) == [line[0]] + Ink(Classify(line).text)
  {
    assert line[1..][1..] == line[2..];
  }

  /** A line loses nothing but its marker to its kind. */
  lemma {:induction false} OnlyMarkersGo(line: string)
    ensures InkOf(Classify(line)) == Shows(line)
  {
    KindIff(line);
    match Classify(line)
    case Quote(quoted) => InkOfQuote(line);
    case Bullet(text) => InkOfBullet(line);
    case _ =>
  }

  // ---------------------------------------------------------------------
  // Joining wrapped lines
  // ---------------------------------------------------------------------

  /** A word split by the wrap at a hyphen closes up again; other lines are joined by a blank. */
  function Joint(out: string, p: string): string {
    if out == "" then p
    else if out[|out| - 1] == '-' && p != "" && 'a' <= p[0] <= 'z' then out + p
    else out + " " + p
  }

  function Joined(parts: seq<string>): string {
    if parts == [] then "" else Joint(Joined(Init(parts)), Last(parts))
  }

  /** `s.replace(/\s+/g, " ")`, inside a run of white space or not. */
  function Collapse(s: string, inRun: bool): string {
    if s == [] then []
    else if IsSpace(s[0]) then (if inRun then [] else [' ']) + Collapse(s[1..], true)
    else [s[0]] + Collapse(s[1..], false)
  }

  function Squashed(parts: seq<string>): string {
    Trim(Collapse(Joined(parts), false))
  }

  /** What a reader sees of a text: everything but white space. */
  function Ink(s: string): string {
    if s == [] then [] else (if IsSpace(s[0]) then [] else [s[0]]) + Ink(s[1..])
  }

  function Inks(parts: seq<string>): string {
    if parts == [] then [] else Inks(Init(parts)) + Ink(Last(parts))
  }

  /** No white space at the ends, and only single blanks inside. */
  predicate Tidy(s: string) {
    && SingleBlanks(s)
    && (s == [] || (!IsSpace(s[0]) && !IsSpace(s[|s| - 1])))
  }

  predicate SingleBlanks(s: string) {
    forall i :: 0 <= i < |s| && IsSpace(s[i]) ==> s[i] == ' ' && (i > 0 ==> !IsSpace(s[i - 1]))
  }

  lemma {:induction false} InkConcat(a: string, b: string)
    ensures Ink(a + b) == Ink(a) + Ink(b)
  {
    if a == [] {
      assert a + b == b;
    } else {
      assert (a + b)[1..] == a[1..] + b;
      InkConcat(a[1..], b);
    }
  }

  lemma {:induction false} InkOfTrimStart(s: string)
    ensures Ink(TrimStart(s)) == Ink(s)
  {
    if s != [] && IsSpace(s[0]) {
      InkOfTrimStart(s[1..]);
    }
  }

  lemma {:induction false} InkOfTrimEnd(s: string)
    ensures Ink(TrimEnd(s)) == Ink(s)
  {
    if s != [] && IsSpace(s[|s| - 1]) {
      InkOfTrimEnd(s[..|s| - 1]);
      InkConcat(s[..|s| - 1], [s[|s| - 1]]);
      assert s[..|s| - 1] + [s[|s| - 1]] == s;
    }
  }

  lemma {:induction false} InkOfTrim(s: string)
    ensures Ink(Trim(s)) == Ink(s)
  {
    InkOfTrimStart(s);
    InkOfTrimEnd(TrimStart(s));
  }

  lemma {:induction false} InkOfCollapse(s: string, inRun: bool)
    ensures Ink(Collapse(s, inRun)) == Ink(s)
  {
    if s != [] {
      var rest := Collapse(s[1..], IsSpace(s[0]));
      InkOfCollapse(s[1..], IsSpace(s[0]));
      InkConcat([' '], rest);
      InkConcat([s[0]], rest);
      InkConcat([], rest);
    }
  }

  lemma {:induction false} InkOfJoint(out: string, p: string)
    ensures Ink(Joint(out, p)) == Ink(out) + Ink(p)
  {
    InkConcat(out, p);
    InkConcat(out + " ", p);
    InkConcat(out, " ");
  }

  lemma {:induction false} InkOfJoined(parts: seq<string>)
    ensures Ink(Joined(parts)) == Inks(parts)
  {
    if parts != [] {
      InkOfJoined(Init(parts));
      InkOfJoint(Joined(Init(parts)), Last(parts));
    }
  }

  lemma {:induction false} CollapseIsSingle(s: string, inRun: bool)
    ensures SingleBlanks(Collapse(s, inRun))
    ensures inRun && Collapse(s, inRun) != [] ==> !IsSpace(Collapse(s, inRun)[0])
  {
    if s != [] {
      CollapseIsSingle(s[1..], IsSpace(s[0]));
    }
  }

  lemma {:induction false} TrimStartIsSingle(s: string)
    requires SingleBlanks(s)
    ensures SingleBlanks(TrimStart(s))
  {
    if s != [] && IsSpace(s[0]) {
      TrimStartIsSingle(s[1..]);
    }
  }

  lemma {:induction false} TrimIsTidy(s: string)
    requires SingleBlanks(s)
    ensures Tidy(Trim(s))
  {
    TrimStartIsSingle(s);
    PrefixIsSingle(TrimStart(s), TrimEnd(TrimStart(s)));
  }

  lemma {:induction false} PrefixIsSingle(s: string, t: string)
    requires SingleBlanks(s) && t <= s
    ensures SingleBlanks(t)
  {
  }

  lemma {:induction false} TidyShowsInk(s: string)
    requires Tidy(s)
    ensures s == "" <==> Ink(s) == []
  {
  }

  /** Joining loses nothing a reader sees, and leaves no stray white space. */
  lemma {:induction false} SquashKeepsInk(parts: seq<string>)
    ensures Ink(Squashed(parts)) == Inks(parts)
    ensures Tidy(Squashed(parts))
    ensures Squashed(parts) == "" <==> Inks(parts) == []
  {
    var collapsed := Collapse(Joined(parts), false);
    InkOfJoined(parts);
    InkOfCollapse(Joined(parts), false);
    InkOfTrim(collapsed);
    CollapseIsSingle(Joined(parts), false);
    TrimIsTidy(collapsed);
    TidyShowsInk(Squashed(parts));
  }

  /** The words of a text: its runs of ink. */
  function Words(s: string): seq<string>
    decreases |s|
  {
    SolidFits(s);
    if s == [] then []
    else if IsSpace(s[0]) then Words(s[1..])
    else [SolidFront(s)] + Words(s[|SolidFront(s)|..])
  }

  lemma {:induction false} SolidFits(s: string)
    ensures |SolidFront(s)| <= |s| && Solid(SolidFront(s))
    ensures SolidFront(s) + s[|SolidFront(s)|..] == s
    ensures |SolidFront(s)| < |s| ==> IsSpace(s[|SolidFront(s)|])
  {
    if s != [] && !IsSpace(s[0]) {
      SolidFits(s[1..]);
      assert [s[0]] + s[1..] == s;
    }
  }

  /** The last word of one list and the first of another become one. */
  function Glued(a: seq<string>, b: seq<string>): seq<string> {
    if a == [] || b == [] then a + b else Init(a) + [Last(a) + b[0]] + b[1..]
  }

  predicate EndsInHyphen(s: string) {
    s != "" && Last(s) == '-'
  }

  predicate StartsLower(s: string) {
    s != "" && 'a' <= s[0] <= 'z'
  }

  /** Wrapped lines read word by word; only a hyphen before a lower-case letter closes two words up. */
  function WordsRead(parts: seq<string>): seq<string> {
    if parts == [] then []
    else if |parts| > 1 && EndsInHyphen(parts[|parts| - 2]) && StartsLower(Last(parts))
    then Glued(WordsRead(Init(parts)), Words(Last(parts)))
    else WordsRead(Init(parts)) + Words(Last(parts))
  }

  lemma {:induction false} WordFirst(word: string, rest: string)
    requires word != "" && Solid(word) && (rest == "" || IsSpace(rest[0]))
    ensures Words(word + rest) == [word] + Words(rest)
  {
    SolidStops(word, rest);
    assert (word + rest)[|word|..] == rest;
  }

  lemma {:induction false} WordsApart(a: string, c: char, b: string)
    requires IsSpace(c)
    ensures Words(a + [c] + b) == Words(a) + Words(b)
    decreases |a|
  {
    var s := a + [c] + b;
    if a == [] {
      assert s[1..] == b;
    } else if IsSpace(a[0]) {
      assert s[1..] == a[1..] + [c] + b;
      WordsApart(a[1..], c, b);
    } else {
      SolidFits(a);
      var word, rest := SolidFront(a), a[|SolidFront(a)|..];
      WordsApart(rest, c, b);
      FirstWordApart(word, rest, c, b);
    }
  }

  lemma {:induction false} FirstWordApart(word: string, rest: string, c: char, b: string)
    requires word != "" && Solid(word) && (rest == "" || IsSpace(rest[0])) && IsSpace(c)
    requires Words(rest + [c] + b) == Words(rest) + Words(b)
    ensures Words(word + rest + [c] + b) == Words(word + rest) + Words(b)
  {
    assert word + rest + [c] + b == word + (rest + [c] + b);
    WordFirst(word, rest + [c] + b);
    WordFirst(word, rest);
  }

  lemma {:induction false} WordsClosedUp(a: string, b: string)
    requires a != "" && !IsSpace(Last(a)) && b != "" && !IsSpace(b[0])
    ensures Words(a) != [] && Words(b) != []
    ensures Words(a + b) == Glued(Words(a), Words(b))
    decreases |a|
  {
    if IsSpace(a[0]) {
      assert (a + b)[1..] == a[1..] + b;
      WordsClosedUp(a[1..], b);
    } else {
      SolidFits(a);
      var word, rest := SolidFront(a), a[|SolidFront(a)|..];
      if rest == [] {
        SolidWordGrows(a, b);
      } else {
        WordsClosedUp(rest, b);
        FirstWordStays(word, rest, b);
      }
    }
  }

  lemma {:induction false} FirstWordStays(word: string, rest: string, b: string)
    requires word != "" && Solid(word) && rest != "" && IsSpace(rest[0])
    requires Words(rest) != [] && Words(b) != [] && Words(rest + b) == Glued(Words(rest), Words(b))
    ensures Words(word + rest) != [] && Words(word + rest + b) == Glued(Words(word + rest), Words(b))
  {
    assert word + rest + b == word + (rest + b);
    WordFirst(word, rest + b);
    WordFirst(word, rest);
    assert Init([word] + Words(rest)) == [word] + Init(Words(rest));
  }

  lemma {:induction false} SolidWordGrows(a: string, b: string)
    requires a != "" && Solid(a) && b != "" && !IsSpace(b[0])
    ensures Words(a) == [a] && Words(b) != []
    ensures Words(a + b) == Glued([a], Words(b))
  {
    SolidFits(b);
    var word, rest := SolidFront(b), b[|SolidFront(b)|..];
    WordFirst(word, rest);
    WordFirst(a, "");
    assert a + "" == a;
    assert a + b == (a + word) + rest;
    WordFirst(a + word, rest);
  }

  lemma {:induction false} WordsOfTrim(s: string)
    ensures Words(Trim(s)) == Words(s)
  {
    WordsOfTrimStart(s);
    WordsOfTrimEnd(TrimStart(s));
  }

  lemma {:induction false} WordsOfTrimStart(s: string)
    ensures Words(TrimStart(s)) == Words(s)
  {
    if s != [] && IsSpace(s[0]) {
      WordsOfTrimStart(s[1..]);
    }
  }

  lemma {:induction false} WordsOfTrimEnd(s: string)
    ensures Words(TrimEnd(s)) == Words(s)
  {
    if s != [] && IsSpace(Last(s)) {
      WordsOfTrimEnd(Init(s));
      assert Init(s) + [Last(s)] + [] == s;
      WordsApart(Init(s), Last(s), []);
    }
  }

  lemma {:induction false} CollapseKeepsSolid(word: string, rest: string)
    requires Solid(word)
    ensures Collapse(word + rest, false) == word + Collapse(rest, false)
  {
    if word == [] {
      assert word + rest == rest;
    } else {
      assert (word + rest)[1..] == word[1..] + rest;
      CollapseKeepsSolid(word[1..], rest);
    }
  }

  lemma {:induction false} WordsOfCollapse(s: string, inRun: bool)
    ensures Words(Collapse(s, inRun)) == Words(s)
    decreases |s|
  {
    if s != [] && IsSpace(s[0]) {
      var rest := Collapse(s[1..], true);
      WordsOfCollapse(s[1..], true);
      assert ([' '] + rest)[1..] == rest && [] + rest == rest;
    } else if s != [] {
      SolidFits(s);
      var word, rest := SolidFront(s), s[|SolidFront(s)|..];
      WordsOfCollapse(rest, false);
      CollapseKeepsSolid(word, rest);
      WordFirst(word, Collapse(rest, false));
      assert Collapse(s, inRun) == Collapse(s, false);
    }
  }

  lemma {:induction false} WordsOfJoint(out: string, p: string)
    ensures Words(Joint(out, p)) ==
      if EndsInHyphen(out) && StartsLower(p) then Glued(Words(out), Words(p)) else Words(out) + Words(p)
  {
    if EndsInHyphen(out) && StartsLower(p) {
      WordsClosedUp(out, p);
    } else {
      WordsApart(out, ' ', p);
    }
  }

  lemma {:induction false} JointEnds(out: string, p: string)
    ensures EndsInHyphen(Joint(out, p)) <==> EndsInHyphen(p)
  {
  }

  lemma {:induction false} WordsOfJoined(parts: seq<string>)
    ensures Words(Joined(parts)) == WordsRead(parts)
    ensures EndsInHyphen(Joined(parts)) <==> parts != [] && EndsInHyphen(Last(parts))
  {
    if parts != [] {
      WordsOfJoined(Init(parts));
      WordsOfJoint(Joined(Init(parts)), Last(parts));
      JointEnds(Joined(Init(parts)), Last(parts));
    }
  }

  /** Joining keeps the words of the lines apart, but for one that the wrap split at a hyphen. */
  lemma {:induction false} SquashKeepsWords(parts: seq<string>)
    ensures Words(Squashed(parts)) == WordsRead(parts)
  {
    WordsOfTrim(Collapse(Joined(parts), false));
    WordsOfCollapse(Joined(parts), false);
    WordsOfJoined(parts);
  }

  function Spaced(words: seq<string>): string {
    if words == [] then "" else if |words| == 1 then words[0] else words[0] + " " + Spaced(words[1..])
  }

  lemma {:induction false} TidyPastWord(word: string, rest: string)
    requires Tidy(word + rest) && word != "" && rest != "" && IsSpace(rest[0])
    ensures rest == " " + rest[1..] && rest[1..] != "" && Tidy(rest[1..])
  {
    var s := word + rest;
    var i := |word|;
    assert s[i] == rest[0] && IsSpace(s[i]);
    assert !IsSpace(s[|s| - 1]) && s[|s| - 1] == rest[|rest| - 1];
    assert |rest| > 1 && s[i + 1] == rest[1];
    forall k | 0 <= k < |rest[1..]| && IsSpace(rest[1..][k])
      ensures rest[1..][k] == ' ' && (k > 0 ==> !IsSpace(rest[1..][k - 1]))
    {
      assert rest[1..][k] == s[i + 1 + k];
      assert k > 0 ==> rest[1..][k - 1] == s[i + k];
    }
  }

  lemma {:induction false} TidyIsItsWords(s: string)
    requires Tidy(s)
    ensures s == Spaced(Words(s))
    decreases |s|
  {
    if s != [] {
      SolidFits(s);
      var word, rest := SolidFront(s), s[|SolidFront(s)|..];
      WordFirst(word, rest);
      if rest != [] {
        TidyPastWord(word, rest);
        TidyIsItsWords(rest[1..]);
        assert Words(rest) == Words(rest[1..]) != [];
      }
    }
  }

  /** The joined text is the words of its lines, one blank between any two. */
  lemma {:induction false} SquashIsItsWords(parts: seq<string>)
    ensures Squashed(parts) == Spaced(WordsRead(parts))
  {
    SquashKeepsInk(parts);
    SquashKeepsWords(parts);
    TidyIsItsWords(Squashed(parts));
  }

  method Squash(parts: seq<string>) returns (text: string)
    ensures text == Squashed(parts)
    ensures Ink(text) == Inks(parts) && text == Spaced(WordsRead(parts))
  {
    var out := "";
    for i := 0 to |parts|
      invariant out == Joined(parts[..i])
    {
      var p := parts[i];
      assert Init(parts[..i + 1]) == parts[..i];
      if out == "" {
        out := p;
      } else if out[|out| - 1] == '-' && p != "" && 'a' <= p[0] <= 'z' {
        out := out + p;
      } else {
        out := out + " " + p;
      }
    }
    assert parts[..|parts|] == parts;
    text := Trim(Collapse(out, false));
    SquashKeepsInk(parts);
    SquashIsItsWords(parts);
  }
}
