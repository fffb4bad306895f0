/**
 * The node agent's durable nonce cache: the in-memory map, the append log,
 * its compaction, and reloading after a crash.
 */
module NonceCache {
  import opened JsText
  import opened Optional

  const MAX_SEEN_NONCES := 20_000
  const NONCE_COMPACT_EVERY := 5_000
  const MAX_SKEW_MS := 5 * 60 * 1000
  const WINDOW := 2 * MAX_SKEW_MS

  datatype Entry = Entry(nonce: string, expiry: nat)

  /** RE_NONCE: 1 to 128 of `A-Za-z0-9_-`. */
  predicate IsNonce(s: string) {
    1 <= |s| <= 128 && forall i :: 0 <= i < |s| ==> IsNonceChar(s[i])
  }

  predicate IsNonceChar(c: char) {
    'A' <= c <= 'Z' || 'a' <= c <= 'z' || '0' <= c <= '9' || c == '_' || c == '-'
  }

  // ---------------------------------------------------------------------
  // The file's text
  // ---------------------------------------------------------------------

  function Text(e: Entry): string {
    e.nonce + " " + Decimal(e.expiry)
  }

  function Render(es: seq<Entry>): string {
    if es == [] then "" else Text(es[0]) + "\n" + Render(es[1..])
  }

  /** One line of the file, or nothing when it is not `nonce expiry`. */
  function ParseLine(line: string): Option<Entry> {
    var fields := SplitOn(Trim(line), ' ');
    if IsNonce(fields[0]) && |fields| > 1 && fields[1] != [] && IsDigits(fields[1])
    then Some(Entry(fields[0], DigitsValue(fields[1])))
    else None
  }

  function ParseLines(lines: seq<string>): seq<Entry> {
    if lines == [] then []
    else
      match ParseLine(lines[0])
      case None => ParseLines(lines[1..])
      case Some(e) => [e] + ParseLines(lines[1..])
  }

  function Entries(file: string): seq<Entry> {
    ParseLines(SplitLines(file))
  }

  predicate AllNonces(es: seq<Entry>) {
    forall i :: 0 <= i < |es| ==> IsNonce(es[i].nonce)
  }

  lemma {:induction false} NoSpaceInside(s: string)
    requires forall i :: 0 <= i < |s| ==> IsNonceChar(s[i])
    ensures forall i :: 0 <= i < |s| ==> !IsSpace(s[i])
  {
  }

  lemma {:induction false} LineRoundTrip(e: Entry)
    requires IsNonce(e.nonce)
    ensures ParseLine(Text(e)) == Some(e)
    ensures '\n' !in Text(e) && '\r' !in Text(e)
  {
    var digits := Decimal(e.expiry);
    NoSpaceInside(e.nonce);
    NoSpaceInside(digits);
    TrimIdentity(Text(e));
    SplitOnce(e.nonce, ' ', digits);
    SplitOnNothing(digits, ' ');
    DecimalRoundTrip(e.expiry);
  }

  /** The text format loses nothing: what was rendered is what is read back. */
  lemma {:induction false} FileRoundTrip(es: seq<Entry>)
    requires AllNonces(es)
    ensures Entries(Render(es)) == es
  {
    if es == [] {
      assert SplitLines("") == [""];
      assert ParseLine("").None?;
    } else {
      LineRoundTrip(es[0]);
      SplitOffLine(Text(es[0]), Render(es[1..]));
      FileRoundTrip(es[1..]);
    }
  }

  /** Appending one line is appending one entry. */
  lemma {:induction false} RenderAppend(es: seq<Entry>, e: Entry)
    ensures Render(es + [e]) == Render(es) + (Text(e) + "\n")
  {
    if es == [] {
      assert es + [e] == [e];
      assert [e][1..] == [];
    } else {
      assert (es + [e])[1..] == es[1..] + [e];
      RenderAppend(es[1..], e);
    }
  }

  // ---------------------------------------------------------------------
  // The in-memory map, in insertion order
  // ---------------------------------------------------------------------

  predicate Has(seen: seq<Entry>, nonce: string) {
    exists i :: 0 <= i < |seen| && seen[i].nonce == nonce
  }

  predicate Distinct(seen: seq<Entry>) {
    forall i, j :: 0 <= i < j < |seen| ==> seen[i].nonce != seen[j].nonce
  }

  /** `map.set(nonce, expiry)`: a known key keeps its place. */
  function Put(seen: seq<Entry>, e: Entry): seq<Entry> {
    if seen == [] then [e]
    else if seen[0].nonce == e.nonce then [e] + seen[1..]
    else [seen[0]] + Put(seen[1..], e)
  }

  /** The entries that have not expired at `now`. */
  function Live(es: seq<Entry>, now: nat): (live: seq<Entry>)
    ensures |live| <= |es|
  {
    if es == [] then []
    else
      var front := Live(es[..|es| - 1], now);
      if es[|es| - 1].expiry > now then front + [es[|es| - 1]] else front
  }

  lemma {:induction false} LiveMeaning(es: seq<Entry>, now: nat)
    ensures forall e :: e in Live(es, now) <==> e in es && e.expiry > now
  {
    if es != [] {
      LiveMeaning(es[..|es| - 1], now);
      assert es == es[..|es| - 1] + [es[|es| - 1]];
    }
  }

  lemma {:induction false} LiveKeepsDistinct(es: seq<Entry>, now: nat)
    requires Distinct(es)
    ensures Distinct(Live(es, now))
  {
    if es != [] {
      LiveKeepsDistinct(es[..|es| - 1], now);
      LiveMeaning(es[..|es| - 1], now);
      var front := Live(es[..|es| - 1], now);
      forall i | 0 <= i < |front| ensures front[i].nonce != es[|es| - 1].nonce {
        assert front[i] in es[..|es| - 1];
      }
    }
  }

  /** One line of the file put into the map, unless it is dead or the map is full. */
  function Restored(into: seq<Entry>, line: string, now: nat): seq<Entry> {
    match ParseLine(line)
    case Some(e) => if e.expiry > now && |into| < MAX_SEEN_NONCES then Put(into, e) else into
    case None => into
  }

  function RestoreAll(into: seq<Entry>, lines: seq<string>, now: nat): seq<Entry>
    decreases lines
  {
    if lines == [] then into else RestoreAll(Restored(into, lines[0], now), lines[1..], now)
  }

  /** How one write to the disk ends; the last case writes and then fails (or the process dies). */
  datatype Disk = Works | Fails | WritesThenFails

  function Written(file: string, content: string, disk: Disk): string {
    if disk == Fails then file else content
  }

  // ---------------------------------------------------------------------
  // Requests and restarts
  // ---------------------------------------------------------------------

  /** `up` says whether the agent accepted to start; a map of a dead process answers nothing. */
  datatype State = State(file: string, seen: seq<Entry>, appended: nat, up: bool)

  datatype Verdict = Executes | NonceRequired | Replayed | Busy | Unavailable | Down

  function Requested(s: State, nonce: string, now: nat, disk: Disk): (State, Verdict) {
    if !s.up then (s, Down)
    else if !IsNonce(nonce) then (s, NonceRequired)
    else
      var live := Live(s.seen, now);
      if Has(live, nonce) then (s.(seen := live), Replayed)
      else if |live| >= MAX_SEEN_NONCES then (s.(seen := live), Busy)
      else
        var e := Entry(nonce, now + WINDOW);
        var seen := live + [e];
        var compact := s.appended + 1 >= NONCE_COMPACT_EVERY;
        var content := if compact then Render(seen) else s.file + (Text(e) + "\n");
        (State(Written(s.file, content, disk), seen, if compact then 0 else s.appended + 1, true),
         if disk == Works then Executes else Unavailable)
  }

  /** A start: reload the live entries, rewrite the file with just those, refuse to start if that fails. */
  function Restarted(s: State, now: nat, disk: Disk): State {
    var seen := RestoreAll([], SplitLines(s.file), now);
    if disk == Fails then s.(up := false)
    else State(Render(seen), seen, 0, disk == Works)
  }

  /** The agent, updating its map and its file in place. */
  class Agent {
    var file: string
    var seen: seq<Entry>
    var appendedSinceCompact: nat
    var up: bool

    ghost function Abstract(): State
      reads this
    {
      State(file, seen, appendedSinceCompact, up)
    }

    constructor (file: string)
      ensures Abstract() == State(file, [], 0, false)
    {
      this.file := file;
      seen := [];
      appendedSinceCompact := 0;
      up := false;
    }

    method LoadSeenNonces(now: nat, disk: Disk)
      modifies this
      ensures Abstract() == Restarted(old(Abstract()), now, disk)
    {
      var into: seq<Entry> := [];
      var lines := SplitLines(file);
      var i := 0;
      while i < |lines|
        invariant 0 <= i <= |lines|
        invariant RestoreAll(into, lines[i..], now) == RestoreAll([], lines, now)
      {
        assert lines[i..][1..] == lines[i + 1..];
        var parsed := ParseLine(lines[i]);
        if parsed.Some? && parsed.value.expiry > now && |into| < MAX_SEEN_NONCES {
          into := Put(into, parsed.value);
        }
        i := i + 1;
      }
      if disk == Fails {
        up := false;
        return;
      }
      file, seen, appendedSinceCompact, up := Render(into), into, 0, disk == Works;
    }

    method Admit(nonce: string, now: nat, disk: Disk) returns (verdict: Verdict)
      modifies this
      ensures (Abstract(), verdict) == Requested(old(Abstract()), nonce, now, disk)
    {
      if !up {
        return Down;
      }
      if !IsNonce(nonce) {
        return NonceRequired;
      }
      Purge(now);
      if Has(seen, nonce) {
        return Replayed;
      }
      if |seen| >= MAX_SEEN_NONCES {
        return Busy;
      }
      var e := Entry(nonce, now + WINDOW);
      seen := seen + [e];
      appendedSinceCompact := appendedSinceCompact + 1;
      if appendedSinceCompact >= NONCE_COMPACT_EVERY {
        appendedSinceCompact := 0;
        file := Written(file, Render(seen), disk);
      } else {
        file := Written(file, file + (Text(e) + "\n"), disk);
      }
      return if disk == Works then Executes else Unavailable;
    }

    /** Walk the map once and delete the expired entries; the others keep their order. */
    method Purge(now: nat)
      modifies this`seen
      ensures seen == Live(old(seen), now)
    {
      var kept: seq<Entry> := [];
      for i := 0 to |seen|
        invariant kept == Live(seen[..i], now)
      {
        assert seen[..i + 1][..i] == seen[..i];
        if seen[i].expiry > now {
          kept := kept + [seen[i]];
        }
      }
      assert seen[..|seen|] == seen;
      seen := kept;
    }
  }

  // ---------------------------------------------------------------------
  // Reloading: the cap never drops a live entry
  // ---------------------------------------------------------------------

  function RestoredEntry(into: seq<Entry>, e: Entry, now: nat): seq<Entry> {
    if e.expiry > now && |into| < MAX_SEEN_NONCES then Put(into, e) else into
  }

  function RestoreEntries(into: seq<Entry>, es: seq<Entry>, now: nat): seq<Entry>
    decreases es
  {
    if es == [] then into else RestoreEntries(RestoredEntry(into, es[0], now), es[1..], now)
  }

  /** Reading back a rendered file is reading back its entries. */
  lemma {:induction false} RestoreReadsEntries(into: seq<Entry>, es: seq<Entry>, now: nat)
    requires AllNonces(es)
    ensures RestoreAll(into, SplitLines(Render(es)), now) == RestoreEntries(into, es, now)
    decreases es
  {
    if es == [] {
      assert SplitLines("") == [""];
      assert ParseLine("").None?;
      assert RestoreAll(into, [""], now) == RestoreAll(Restored(into, "", now), [], now);
    } else {
      LineRoundTrip(es[0]);
      SplitOffLine(Text(es[0]), Render(es[1..]));
      var lines := SplitLines(Render(es));
      assert lines[1..] == SplitLines(Render(es[1..]));
      RestoreReadsEntries(RestoredEntry(into, es[0], now), es[1..], now);
    }
  }

  function Nonces(es: seq<Entry>): set<string> {
    set e | e in es :: e.nonce
  }

  lemma {:induction false} DistinctCount(es: seq<Entry>)
    requires Distinct(es)
    ensures |Nonces(es)| == |es|
  {
    if es == [] {
      assert Nonces(es) == {};
    } else {
      var last := es[|es| - 1];
      var front := es[..|es| - 1];
      DistinctCount(front);
      assert last.nonce !in Nonces(front);
      assert es == front + [last];
      assert Nonces(es) == Nonces(front) + {last.nonce};
    }
  }

  lemma {:induction false} SubsetCount(small: set<string>, big: set<string>)
    requires small <= big
    ensures |small| <= |big|
  {
    if small != {} {
      var x :| x in small;
      SubsetCount(small - {x}, big - {x});
    }
  }

  /** Distinct entries taken from a map, one of the map's missing: there is room for it. */
  lemma {:induction false} RoomForMissing(into: seq<Entry>, seen: seq<Entry>, e: Entry)
    requires Distinct(into) && Distinct(seen) && e in seen && !Has(into, e.nonce)
    requires forall x :: x in into ==> x in seen
    ensures |into| < |seen|
  {
    DistinctCount(into);
    DistinctCount(seen);
    assert e.nonce !in Nonces(into);
    assert Nonces(into) + {e.nonce} <= Nonces(seen);
    SubsetCount(Nonces(into) + {e.nonce}, Nonces(seen));
  }

  lemma {:induction false} SameNonceSameEntry(seen: seq<Entry>, a: Entry, b: Entry)
    requires Distinct(seen) && a in seen && b in seen && a.nonce == b.nonce
    ensures a == b
  {
  }

  lemma {:induction false} PutMeaning(into: seq<Entry>, e: Entry)
    ensures !Has(into, e.nonce) ==> Put(into, e) == into + [e]
    ensures Distinct(into) && e in into ==> Put(into, e) == into
  {
    if into != [] {
      PutMeaning(into[1..], e);
      assert into == [into[0]] + into[1..];
      if into[0].nonce != e.nonce {
        assert Has(into[1..], e.nonce) ==> Has(into, e.nonce);
      } else {
        assert into[0].nonce == e.nonce && Has(into, e.nonce);
      }
    }
  }

  lemma {:induction false} RestoreStep(into: seq<Entry>, e: Entry, seen: seq<Entry>, now: nat)
    requires Distinct(seen) && |seen| <= MAX_SEEN_NONCES
    requires Distinct(into) && forall x :: x in into ==> x in seen && x.expiry > now
    requires e.expiry > now ==> e in seen
    ensures RestoredEntry(into, e, now) == if e.expiry > now && e !in into then into + [e] else into
    ensures Distinct(RestoredEntry(into, e, now))
  {
    PutMeaning(into, e);
    if e.expiry > now {
      if Has(into, e.nonce) {
        var i :| 0 <= i < |into| && into[i].nonce == e.nonce;
        SameNonceSameEntry(seen, into[i], e);
      } else {
        RoomForMissing(into, seen, e);
      }
    }
  }

  /**
   * Restoring entries whose live ones all stand in a map within the cap:
   * every live entry is restored, in a map without duplicates.
   */
  lemma {:induction false} RestoreKeepsLive(into: seq<Entry>, es: seq<Entry>, seen: seq<Entry>, now: nat)
    requires Distinct(seen) && |seen| <= MAX_SEEN_NONCES
    requires Distinct(into) && forall e :: e in into ==> e in seen && e.expiry > now
    requires forall e :: e in es && e.expiry > now ==> e in seen
    ensures var r := RestoreEntries(into, es, now);
      && Distinct(r)
      && (forall e :: e in r ==> e in seen && e.expiry > now)
      && (forall e :: e in into ==> e in r)
      && (forall e :: e in es && e.expiry > now ==> e in r)
    decreases es
  {
    if es != [] {
      RestoreStep(into, es[0], seen, now);
      assert es == [es[0]] + es[1..];
      RestoreKeepsLive(RestoredEntry(into, es[0], now), es[1..], seen, now);
    }
  }

  // ---------------------------------------------------------------------
  // Every run
  // ---------------------------------------------------------------------

  datatype Event = Request(nonce: string, now: nat, disk: Disk) | Restart(now: nat, disk: Disk)

  datatype Execution = Execution(nonce: string, at: nat)

  function Next(s: State, log: seq<Execution>, event: Event): (State, seq<Execution>) {
    match event
    case Restart(now, disk) => (Restarted(s, now, disk), log)
    case Request(nonce, now, disk) =>
      var (next, verdict) := Requested(s, nonce, now, disk);
      (next, if verdict == Executes then log + [Execution(nonce, now)] else log)
  }

  /** A run from a fresh node, whose agent has not started yet. */
  function Run(events: seq<Event>): (State, seq<Execution>) {
    if events == [] then (State("", [], 0, false), [])
    else
      var (s, log) := Run(events[..|events| - 1]);
      Next(s, log, events[|events| - 1])
  }

  predicate ClockRuns(events: seq<Event>) {
    forall i, j :: 0 <= i < j < |events| ==> events[i].now <= events[j].now
  }

  function Clock(events: seq<Event>): nat {
    if events == [] then 0 else events[|events| - 1].now
  }

  /** `es` are the file's entries; the live ones stand in the map, which is within its bound. */
  ghost predicate Sound(s: State, es: seq<Entry>, now: nat) {
    && AllNonces(es) && s.file == Render(es)
    && AllNonces(s.seen) && Distinct(s.seen) && |s.seen| <= MAX_SEEN_NONCES
    && forall e :: e in es && e.expiry > now ==> e in s.seen
  }

  /** No more entries in the file than a full map and what was appended since. */
  predicate IsSmall(s: State, es: seq<Entry>) {
    s.appended < NONCE_COMPACT_EVERY && |es| <= MAX_SEEN_NONCES + s.appended
  }

  /** Write-ahead: whatever ran within the window is in the file. */
  ghost predicate WrittenAhead(log: seq<Execution>, es: seq<Entry>, now: nat) {
    forall x :: x in log && x.at + WINDOW > now ==> Entry(x.nonce, x.at + WINDOW) in es
  }

  lemma {:induction false} AppendNonce(es: seq<Entry>, e: Entry)
    requires AllNonces(es) && IsNonce(e.nonce)
    ensures AllNonces(es + [e])
  {
  }

  lemma {:induction false} LiveKeepsNonces(es: seq<Entry>, now: nat)
    requires AllNonces(es)
    ensures AllNonces(Live(es, now))
  {
    LiveMeaning(es, now);
    var live := Live(es, now);
    forall i | 0 <= i < |live| ensures IsNonce(live[i].nonce) {
      assert live[i] in es;
    }
  }

  /** The map after a request that is let through, and the two files it may leave. */
  lemma {:induction false} AdmittedSound(seen: seq<Entry>, es: seq<Entry>, e: Entry, now: nat)
    requires AllNonces(es) && AllNonces(seen) && Distinct(seen) && IsNonce(e.nonce)
    requires forall x :: x in es && x.expiry > now ==> x in seen
    requires !Has(Live(seen, now), e.nonce)
    ensures var map' := Live(seen, now) + [e];
      && AllNonces(map') && Distinct(map') && AllNonces(es + [e])
      && (forall x :: x in es + [e] && x.expiry > now ==> x in map')
    ensures forall x :: x in es && x.expiry > now ==> x in Live(seen, now) && x.nonce != e.nonce
  {
    var live := Live(seen, now);
    LiveMeaning(seen, now);
    LiveKeepsDistinct(seen, now);
    LiveKeepsNonces(seen, now);
    AppendNonce(live, e);
    AppendNonce(es, e);
  }

  /** A map that only lost entries to time keeps what the file needs. */
  lemma {:induction false} RefusedSound(seen: seq<Entry>, es: seq<Entry>, now: nat)
    requires AllNonces(seen) && Distinct(seen)
    requires forall x :: x in es && x.expiry > now ==> x in seen
    ensures AllNonces(Live(seen, now)) && Distinct(Live(seen, now))
    ensures forall x :: x in es && x.expiry > now ==> x in Live(seen, now)
  {
    LiveMeaning(seen, now);
    LiveKeepsDistinct(seen, now);
    LiveKeepsNonces(seen, now);
  }

  lemma {:induction false} RequestKeepsSound(s: State, es: seq<Entry>, clock: nat, nonce: string, now: nat, disk: Disk)
      returns (es': seq<Entry>)
    requires Sound(s, es, clock) && clock <= now
    ensures Sound(Requested(s, nonce, now, disk).0, es', now)
    ensures forall e :: e in es && e.expiry > now ==> e in es'
    ensures disk == Works && IsSmall(s, es) ==> IsSmall(Requested(s, nonce, now, disk).0, es')
    ensures Requested(s, nonce, now, disk).1 == Executes ==>
      Entry(nonce, now + WINDOW) in es' && forall e :: e in es && e.expiry > now ==> e.nonce != nonce
  {
    es' := es;
    var live := Live(s.seen, now);
    RefusedSound(s.seen, es, now);
    if s.up && IsNonce(nonce) && !Has(live, nonce) && |live| < MAX_SEEN_NONCES {
      var e := Entry(nonce, now + WINDOW);
      AdmittedSound(s.seen, es, e, now);
      if disk != Fails {
        RenderAppend(es, e);
        es' := if s.appended + 1 >= NONCE_COMPACT_EVERY then live + [e] else es + [e];
      }
    }
  }

  lemma {:induction false} RestartKeepsSound(s: State, es: seq<Entry>, clock: nat, now: nat, disk: Disk)
      returns (es': seq<Entry>)
    requires Sound(s, es, clock) && clock <= now
    ensures Sound(Restarted(s, now, disk), es', now)
    ensures disk == Works ==> IsSmall(Restarted(s, now, disk), es')
    ensures forall e :: e in es && e.expiry > now ==> e in es'
  {
    es' := es;
    if disk != Fails {
      RestoreReadsEntries([], es, now);
      RestoreKeepsLive([], es, s.seen, now);
      es' := RestoreEntries([], es, now);
      forall i | 0 <= i < |es'| ensures IsNonce(es'[i].nonce) {
        assert es'[i] in s.seen;
      }
      DistinctCount(es');
      DistinctCount(s.seen);
      assert Nonces(es') <= Nonces(s.seen);
      SubsetCount(Nonces(es'), Nonces(s.seen));
    }
  }

  ghost predicate Spaced(log: seq<Execution>) {
    forall i, j :: 0 <= i < j < |log| && log[i].nonce == log[j].nonce ==> log[j].at - log[i].at >= WINDOW
  }

  /** One more execution, its nonce absent from the live entries, keeps the log spaced. */
  lemma {:induction false} LogGrows(log: seq<Execution>, es: seq<Entry>, nonce: string, now: nat)
    requires Spaced(log) && WrittenAhead(log, es, now)
    requires forall e :: e in es && e.expiry > now ==> e.nonce != nonce
    ensures Spaced(log + [Execution(nonce, now)])
  {
    forall x | x in log && x.nonce == nonce ensures x.at + WINDOW <= now {
      var e := Entry(x.nonce, x.at + WINDOW);
      assert e in es ==> e.expiry <= now;
    }
  }

  lemma {:induction false} StaysAhead(log: seq<Execution>, es: seq<Entry>, clock: nat, es': seq<Entry>, now: nat)
    requires WrittenAhead(log, es, clock) && clock <= now
    requires forall e :: e in es && e.expiry > now ==> e in es'
    ensures WrittenAhead(log, es', now)
  {
    forall x | x in log && x.at + WINDOW > now ensures Entry(x.nonce, x.at + WINDOW) in es' {
      assert Entry(x.nonce, x.at + WINDOW) in es;
    }
  }

  lemma {:induction false} EventKeepsSound(s: State, log: seq<Execution>, es: seq<Entry>, clock: nat, event: Event)
      returns (es': seq<Entry>)
    requires Sound(s, es, clock) && WrittenAhead(log, es, clock) && Spaced(log) && clock <= event.now
    ensures var (s', log') := Next(s, log, event);
      Sound(s', es', event.now) && WrittenAhead(log', es', event.now) && Spaced(log')
  {
    match event {
      case Restart(now, disk) =>
        es' := RestartKeepsSound(s, es, clock, now, disk);
        StaysAhead(log, es, clock, es', now);
      case Request(nonce, now, disk) =>
        es' := RequestKeepsSound(s, es, clock, nonce, now, disk);
        StaysAhead(log, es, clock, es', now);
        if Requested(s, nonce, now, disk).1 == Executes {
          LogGrows(log, es, nonce, now);
        }
    }
  }

  lemma {:induction false} RunIsSound(events: seq<Event>) returns (es: seq<Entry>)
    requires ClockRuns(events)
    ensures Sound(Run(events).0, es, Clock(events))
    ensures WrittenAhead(Run(events).1, es, Clock(events))
    ensures Spaced(Run(events).1)
  {
    if events == [] {
      es := [];
    } else {
      var front := events[..|events| - 1];
      es := RunIsSound(front);
      es := EventKeepsSound(Run(front).0, Run(front).1, es, Clock(front), events[|events| - 1]);
    }
  }

  /** No run of requests, failed writes, compactions, crashes and restarts executes a nonce twice within the window. */
  lemma {:induction false} NoReplay(events: seq<Event>, i: nat, j: nat)
    requires ClockRuns(events)
    requires i < j < |Run(events).1| && Run(events).1[i].nonce == Run(events).1[j].nonce
    ensures Run(events).1[j].at - Run(events).1[i].at >= WINDOW
  {
    var es := RunIsSound(events);
  }

  /** Every entry of the map stems from a request for its nonce, a window before it expires. */
  ghost predicate Stems(events: seq<Event>, e: Entry) {
    exists k ::
      0 <= k < |events| && events[k].Request? && events[k].nonce == e.nonce && events[k].now + WINDOW == e.expiry
  }

  lemma {:induction false} MapStems(events: seq<Event>)
    requires ClockRuns(events)
    ensures forall e :: e in Run(events).0.seen ==> Stems(events, e)
  {
    if events != [] {
      var front := events[..|events| - 1];
      MapStems(front);
      var (s, log) := Run(front);
      var last := events[|events| - 1];
      forall e | e in Run(events).0.seen ensures Stems(events, e) {
        LiveMeaning(s.seen, last.now);
        if last.Restart? && last.disk != Fails {
          var es := RunIsSound(front);
          RestoreReadsEntries([], es, last.now);
          RestoreKeepsLive([], es, s.seen, last.now);
        }
        if e in s.seen {
          var k :| 0 <= k < |front| && front[k].Request? && front[k].nonce == e.nonce
            && front[k].now + WINDOW == e.expiry;
          assert events[k] == front[k];
        } else {
          assert events[|events| - 1] == last && last.Request?;
        }
      }
    }
  }

  /** Conversely, only a nonce that did arrive within the window is refused as a replay. */
  lemma {:induction false} RefusalIsDeserved(events: seq<Event>, nonce: string, now: nat, disk: Disk)
    requires ClockRuns(events) && Clock(events) <= now
    requires Requested(Run(events).0, nonce, now, disk).1 == Replayed
    ensures exists k ::
      0 <= k < |events| && events[k].Request? && events[k].nonce == nonce && now - events[k].now < WINDOW
  {
    MapStems(events);
    var seen := Run(events).0.seen;
    LiveMeaning(seen, now);
    var live := Live(seen, now);
    var i :| 0 <= i < |live| && live[i].nonce == nonce;
    assert live[i] in seen && Stems(events, live[i]);
  }

  // ---------------------------------------------------------------------
  // What a request is answered, by what came before it
  // ---------------------------------------------------------------------

  /** Did the last start of the agent succeed? */
  predicate IsUp(events: seq<Event>) {
    events != [] &&
      (if events[|events| - 1].Restart? then events[|events| - 1].disk == Works else IsUp(events[..|events| - 1]))
  }

  /** The nonces of all requests less than a window ago. */
  function RecentNonces(events: seq<Event>, now: nat): set<string> {
    set k | 0 <= k < |events| && events[k].Request? && now < events[k].now + WINDOW :: events[k].nonce
  }

  lemma {:induction false} UpAfterGoodStart(events: seq<Event>)
    ensures Run(events).0.up == IsUp(events)
  {
    if events != [] {
      UpAfterGoodStart(events[..|events| - 1]);
    }
  }

  /** The live entries of the map are nonces that came less than a window ago, each once. */
  lemma {:induction false} LiveAreRecent(events: seq<Event>, now: nat)
    requires ClockRuns(events) && Clock(events) <= now
    ensures var live := Live(Run(events).0.seen, now);
      && Distinct(live) && Nonces(live) <= RecentNonces(events, now) && |live| <= |RecentNonces(events, now)|
  {
    var es := RunIsSound(events);
    var seen := Run(events).0.seen;
    var live := Live(seen, now);
    MapStems(events);
    LiveMeaning(seen, now);
    LiveKeepsDistinct(seen, now);
    forall x | x in Nonces(live) ensures x in RecentNonces(events, now) {
      var e :| e in live && e.nonce == x;
      assert Stems(events, e);
    }
    DistinctCount(live);
    SubsetCount(Nonces(live), RecentNonces(events, now));
  }

  /** A request is put off as too many only if 20,000 different nonces came within the window. */
  lemma {:induction false} BusyIsDeserved(events: seq<Event>, nonce: string, now: nat, disk: Disk)
    requires ClockRuns(events) && Clock(events) <= now
    requires Requested(Run(events).0, nonce, now, disk).1 == Busy
    ensures |RecentNonces(events, now)| >= MAX_SEEN_NONCES
  {
    LiveAreRecent(events, now);
  }

  /**
   * A well-formed request to an agent that started runs, if its nonce did not
   * come within the window, fewer than 20,000 others did, and the disk works;
   * if the disk does not, it is refused as unavailable.
   */
  lemma {:induction false} FreshRequestRuns(events: seq<Event>, nonce: string, now: nat, disk: Disk)
    requires ClockRuns(events) && Clock(events) <= now
    requires IsUp(events) && IsNonce(nonce)
    requires nonce !in RecentNonces(events, now) && |RecentNonces(events, now)| < MAX_SEEN_NONCES
    ensures Requested(Run(events).0, nonce, now, disk).1 == if disk == Works then Executes else Unavailable
  {
    UpAfterGoodStart(events);
    LiveAreRecent(events, now);
    var live := Live(Run(events).0.seen, now);
    HasIsNonce(live, nonce);
  }

  lemma {:induction false} HasIsNonce(es: seq<Entry>, nonce: string)
    ensures Has(es, nonce) <==> nonce in Nonces(es)
  {
    if Has(es, nonce) {
      var i :| 0 <= i < |es| && es[i].nonce == nonce;
      assert es[i] in es;
    }
  }

  lemma {:induction false} LiveIsRefused(s: State, e: Entry, now: nat, disk: Disk)
    requires s.up && e in s.seen && now < e.expiry && IsNonce(e.nonce)
    ensures Requested(s, e.nonce, now, disk).1 == Replayed
  {
    LiveMeaning(s.seen, now);
    var i :| 0 <= i < |s.seen| && s.seen[i] == e;
    assert e in Live(s.seen, now);
  }

  /** A nonce that ran within the window is refused as a replay, whatever happened since. */
  lemma {:induction false} ReplayIsRefused(events: seq<Event>, k: nat, now: nat, disk: Disk)
    requires ClockRuns(events) && Clock(events) <= now && IsUp(events)
    requires k < |Run(events).1| && now < Run(events).1[k].at + WINDOW
    ensures IsNonce(Run(events).1[k].nonce)
    ensures Requested(Run(events).0, Run(events).1[k].nonce, now, disk).1 == Replayed
  {
    var es := RunIsSound(events);
    UpAfterGoodStart(events);
    var (s, x) := (Run(events).0, Run(events).1[k]);
    var e := Entry(x.nonce, x.at + WINDOW);
    assert x in Run(events).1 && e in es && e in s.seen;
    LiveIsRefused(s, e, now, disk);
  }

  /** Only an agent that started answers, and only a well-formed nonce is considered. */
  lemma {:induction false} DownOrMalformed(events: seq<Event>, nonce: string, now: nat, disk: Disk)
    ensures var verdict := Requested(Run(events).0, nonce, now, disk).1;
      && (verdict == Down <==> !IsUp(events))
      && (verdict == NonceRequired <==> IsUp(events) && !IsNonce(nonce))
      && (verdict == Executes ==> disk == Works)
  {
    UpAfterGoodStart(events);
  }

  /** The file of a run whose writes all succeed: the compactions keep it near the size of the map. */
  lemma {:induction false} FileStaysSmall(events: seq<Event>) returns (es: seq<Entry>)
    requires ClockRuns(events) && forall k :: 0 <= k < |events| ==> events[k].disk == Works
    ensures Sound(Run(events).0, es, Clock(events))
    ensures Run(events).0.file == Render(es) && |es| < MAX_SEEN_NONCES + NONCE_COMPACT_EVERY
    ensures IsSmall(Run(events).0, es)
  {
    if events == [] {
      es := [];
    } else {
      var front, last := events[..|events| - 1], events[|events| - 1];
      es := FileStaysSmall(front);
      var before := Run(front).0;
      match last {
        case Restart(now, disk) => es := RestartKeepsSound(before, es, Clock(front), now, disk);
        case Request(nonce, now, disk) => es := RequestKeepsSound(before, es, Clock(front), nonce, now, disk);
      }
    }
  }
}
