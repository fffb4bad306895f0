/**
 * The wake catcher's demand lines: throttled per token and in total, over a
 * token table of bounded size that forgets in order of insertion.
 */
module DemandLogger {
  import opened Optional

  const LOG_EVERY_MS := 1000
  const MAX_TRACKED := 1024
  const MAX_LINES_PER_SECOND := 20

  // ---------------------------------------------------------------------
  // A JavaScript `Map`: entries in the order their keys were first set
  // ---------------------------------------------------------------------

  datatype Entry = Entry(token: nat, at: nat)

  function Get(entries: seq<Entry>, token: nat): Option<nat> {
    if entries == [] then None
    else if entries[0].token == token then Some(entries[0].at)
    else Get(entries[1..], token)
  }

  /** A key already there keeps its place. */
  function Put(entries: seq<Entry>, token: nat, at: nat): seq<Entry> {
    if entries == [] then [Entry(token, at)]
    else if entries[0].token == token then [Entry(token, at)] + entries[1..]
    else [entries[0]] + Put(entries[1..], token, at)
  }

  lemma {:induction false} PutThenGet(entries: seq<Entry>, token: nat, at: nat, other: nat)
    ensures Get(Put(entries, token, at), other) == if other == token then Some(at) else Get(entries, other)
    ensures |Put(entries, token, at)| == |entries| + (if Get(entries, token).None? then 1 else 0)
  {
    if entries != [] && entries[0].token != token {
      PutThenGet(entries[1..], token, at, other);
      assert Put(entries, token, at)[1..] == Put(entries[1..], token, at);
    } else if entries != [] {
      assert Put(entries, token, at)[1..] == entries[1..];
    }
  }

  // ---------------------------------------------------------------------
  // One request
  // ---------------------------------------------------------------------

  datatype State = State(last: seq<Entry>, second: int, lines: nat)

  function Start(): State {
    State([], -1, 0)
  }

  predicate TooSoon(s: State, token: nat, at: nat) {
    Get(s.last, token).Some? && at - Get(s.last, token).value < LOG_EVERY_MS
  }

  function LinesThisSecond(s: State, at: nat): nat {
    if at / 1000 == s.second then s.lines else 0
  }

  predicate Writes(s: State, token: nat, at: nat) {
    !TooSoon(s, token, at) && LinesThisSecond(s, at) < MAX_LINES_PER_SECOND
  }

  /** The table with room for one more, unless the token is there already. */
  function Evicted(last: seq<Entry>, token: nat): seq<Entry> {
    if |last| >= MAX_TRACKED && Get(last, token).None? then last[1..] else last
  }

  function Step(s: State, token: nat, at: nat): State {
    if TooSoon(s, token, at) then s
    else
      var lines := LinesThisSecond(s, at);
      if lines >= MAX_LINES_PER_SECOND then State(s.last, at / 1000, lines)
      else State(Put(Evicted(s.last, token), token, at), at / 1000, lines + 1)
  }

  class Logger {
    var last: seq<Entry>
    var second: int
    var lines: nat

    ghost function Abstract(): State
      reads this
    {
      State(last, second, lines)
    }

    constructor ()
      ensures Abstract() == Start()
    {
      last, second, lines := [], -1, 0;
    }

    method Demand(token: nat, at: nat) returns (written: bool)
      modifies this
      ensures written == Writes(old(Abstract()), token, at)
      ensures Abstract() == Step(old(Abstract()), token, at)
    {
      var previous := Get(last, token);
      if previous.Some? && at - previous.value < LOG_EVERY_MS {
        return false;
      }
      if at / 1000 != second {
        second := at / 1000;
        lines := 0;
      }
      if lines >= MAX_LINES_PER_SECOND {
        return false;
      }
      lines := lines + 1;
      if |last| >= MAX_TRACKED && previous.None? {
        last := last[1..];
      }
      last := Put(last, token, at);
      return true;
    }
  }

  // ---------------------------------------------------------------------
  // Runs
  // ---------------------------------------------------------------------

  /** The requests so far, the latest outermost. */
  datatype Run = Idle | Then(before: Run, token: nat, at: nat)

  function After(run: Run): State {
    match run
    case Idle => Start()
    case Then(before, token, at) => Step(After(before), token, at)
  }

  /** Did the latest request leave a line? */
  predicate Wrote(run: Run)
    requires run.Then?
  {
    Writes(After(run.before), run.token, run.at)
  }

  predicate ClockForward(run: Run) {
    run.Then? ==>
      ClockForward(run.before) && (run.before.Then? ==> run.before.at <= run.at)
  }

  /** Lines left from a moment on and before another. */
  function LinesIn(run: Run, from: nat, to: nat): nat {
    match run
    case Idle => 0
    case Then(before, _, at) => LinesIn(before, from, to) + (if Wrote(run) && from <= at < to then 1 else 0)
  }

  function TokensLogged(run: Run): set<nat> {
    match run
    case Idle => {}
    case Then(before, token, _) => TokensLogged(before) + (if Wrote(run) then {token} else {})
  }

  function LastLine(run: Run, token: nat): Option<nat> {
    match run
    case Idle => None
    case Then(before, t, at) => if Wrote(run) && t == token then Some(at) else LastLine(before, token)
  }

  /** Every line of a token comes at least a second after the token's line before it. */
  predicate Spaced(run: Run) {
    run.Then? ==>
      && Spaced(run.before)
      && (Wrote(run) && LastLine(run.before, run.token).Some? ==>
            run.at - LastLine(run.before, run.token).value >= LOG_EVERY_MS)
  }

  /** The lines of one second of the clock. */
  function LinesInSecond(run: Run, k: nat): nat {
    LinesIn(run, 1000 * k, 1000 * k + 1000)
  }

  /** What the counter knows: how many lines the current second has, and that later ones have none. */
  lemma {:induction false} CounterCounts(run: Run, k: nat)
    requires ClockForward(run)
    ensures var s := After(run);
      && -1 <= s.second && s.lines <= MAX_LINES_PER_SECOND
      && (run.Then? ==> s.second <= run.at / 1000)
      && (k > s.second ==> LinesInSecond(run, k) == 0)
      && (k == s.second ==> LinesInSecond(run, k) == s.lines)
  {
    if run.Then? {
      CounterCounts(run.before, k);
      assert 1000 * k <= run.at < 1000 * k + 1000 <==> run.at / 1000 == k;
    }
  }

  /** Never more than 20 lines in a second of the clock ... */
  lemma {:induction false} AtMostTwentyPerSecond(run: Run, k: nat)
    requires ClockForward(run)
    ensures LinesInSecond(run, k) <= MAX_LINES_PER_SECOND
  {
    if run.Then? {
      AtMostTwentyPerSecond(run.before, k);
      CounterCounts(run.before, k);
      assert 1000 * k <= run.at < 1000 * k + 1000 <==> run.at / 1000 == k;
    }
  }

  lemma {:induction false} WindowInTwoSeconds(run: Run, from: nat)
    ensures LinesIn(run, from, from + 1000) <= LinesInSecond(run, from / 1000) + LinesInSecond(run, from / 1000 + 1)
  {
    if run.Then? {
      WindowInTwoSeconds(run.before, from);
    }
  }

  /** ... hence never more than 40 in any second at all. */
  lemma {:induction false} AtMostFortyInAnyWindow(run: Run, from: nat)
    requires ClockForward(run)
    ensures LinesIn(run, from, from + 1000) <= 2 * MAX_LINES_PER_SECOND
  {
    WindowInTwoSeconds(run, from);
    AtMostTwentyPerSecond(run, from / 1000);
    AtMostTwentyPerSecond(run, from / 1000 + 1);
  }

  /** The table stays bounded, whatever the clock does. */
  lemma {:induction false} TableIsBounded(run: Run)
    ensures |After(run).last| <= MAX_TRACKED
  {
    if run.Then? {
      TableIsBounded(run.before);
      PutThenGet(Evicted(After(run.before).last, run.token), run.token, run.at, run.token);
    }
  }

  lemma {:induction false} LoggedHaveLines(run: Run, token: nat)
    ensures token in TokensLogged(run) <==> LastLine(run, token).Some?
  {
    if run.Then? {
      LoggedHaveLines(run.before, token);
    }
  }

  lemma {:induction false} LoggedOnlyGrow(run: Run)
    requires run.Then?
    ensures |TokensLogged(run.before)| <= |TokensLogged(run)|
    ensures Wrote(run) && run.token !in TokensLogged(run.before) ==>
              |TokensLogged(run)| == |TokensLogged(run.before)| + 1
    ensures Wrote(run) && run.token in TokensLogged(run.before) ==> TokensLogged(run) == TokensLogged(run.before)
  {
  }

  /** Until it has had to forget, the table is the last line of every token. */
  lemma {:induction false} TableRemembersAll(run: Run, token: nat)
    requires |TokensLogged(run)| <= MAX_TRACKED
    ensures |After(run).last| == |TokensLogged(run)|
    ensures Get(After(run).last, token) == LastLine(run, token)
  {
    if run.Then? {
      LoggedOnlyGrow(run);
      TableRemembersAll(run.before, token);
      if Wrote(run) {
        TableRemembersAll(run.before, run.token);
        LoggedHaveLines(run.before, run.token);
        PutThenGet(After(run.before).last, run.token, run.at, token);
      }
    }
  }

  /** While at most 1024 tokens have left lines, the lines of each are a second apart. */
  lemma {:induction false} SpacedWhileRemembered(run: Run)
    requires |TokensLogged(run)| <= MAX_TRACKED
    ensures Spaced(run)
  {
    if run.Then? {
      LoggedOnlyGrow(run);
      SpacedWhileRemembered(run.before);
      TableRemembersAll(run.before, run.token);
    }
  }

  predicate Distinct(entries: seq<Entry>) {
    entries != [] ==> Get(entries[1..], entries[0].token).None? && Distinct(entries[1..])
  }

  lemma {:induction false} PutKeepsDistinct(entries: seq<Entry>, token: nat, at: nat)
    requires Distinct(entries)
    ensures Distinct(Put(entries, token, at))
  {
    if entries != [] {
      var next := Put(entries, token, at);
      if entries[0].token == token {
        assert next[1..] == entries[1..];
      } else {
        assert next[1..] == Put(entries[1..], token, at);
        PutKeepsDistinct(entries[1..], token, at);
        PutThenGet(entries[1..], token, at, entries[0].token);
      }
    }
  }

  /** An entry never lies: it is the last line of its token. */
  lemma {:induction false} TableIsTrue(run: Run, token: nat)
    ensures var last := After(run).last;
      Distinct(last) && (Get(last, token).Some? ==> Get(last, token) == LastLine(run, token))
  {
    if run.Then? {
      TableIsTrue(run.before, token);
      if Wrote(run) {
        var kept := Evicted(After(run.before).last, run.token);
        PutKeepsDistinct(kept, run.token, run.at);
        PutThenGet(kept, run.token, run.at, token);
      }
    }
  }

  /** A request is denied its line only for a line of its token just before, or for twenty lines in its second. */
  lemma {:induction false} DenialIsDeserved(run: Run)
    requires ClockForward(run) && run.Then? && !Wrote(run)
    ensures var previous := LastLine(run.before, run.token);
      || (previous.Some? && run.at - previous.value < LOG_EVERY_MS)
      || LinesInSecond(run.before, run.at / 1000) == MAX_LINES_PER_SECOND
  {
    TableIsTrue(run.before, run.token);
    CounterCounts(run.before, run.at / 1000);
  }

  /** ... and while no token has had to be forgotten, exactly then. */
  lemma {:induction false} LineIffDue(run: Run)
    requires ClockForward(run) && run.Then? && |TokensLogged(run.before)| <= MAX_TRACKED
    ensures var previous := LastLine(run.before, run.token);
      Wrote(run) <==>
        && (previous.None? || run.at - previous.value >= LOG_EVERY_MS)
        && LinesInSecond(run.before, run.at / 1000) < MAX_LINES_PER_SECOND
  {
    TableRemembersAll(run.before, run.token);
    CounterCounts(run.before, run.at / 1000);
  }

  // ---------------------------------------------------------------------
  // One token too many
  // ---------------------------------------------------------------------

  /** Tokens 0 to n - 1, one each second. */
  function Fill(n: nat): Run {
    if n == 0 then Idle else Then(Fill(n - 1), n - 1, 1000 * (n - 1))
  }

  function Below(n: nat): set<nat> {
    if n == 0 then {} else Below(n - 1) + {n - 1}
  }

  lemma {:induction false} BelowCounts(n: nat, i: nat)
    ensures |Below(n)| == n && (i in Below(n) <==> i < n)
  {
    if n > 0 {
      BelowCounts(n - 1, i);
      BelowCounts(n - 1, n - 1);
    }
  }

  function Filled(n: nat): seq<Entry> {
    seq(n, (i: nat) => Entry(i, 1000 * i))
  }

  lemma {:induction false} NewGoesLast(entries: seq<Entry>, token: nat, at: nat)
    requires forall i :: 0 <= i < |entries| ==> entries[i].token != token
    ensures Get(entries, token) == None && Put(entries, token, at) == entries + [Entry(token, at)]
  {
    if entries != [] {
      NewGoesLast(entries[1..], token, at);
      assert entries == [entries[0]] + entries[1..];
    }
  }

  lemma {:induction false} FillsOneMore(n: nat)
    requires n < MAX_TRACKED
    ensures var s := State(Filled(n), n - 1, if n == 0 then 0 else 1);
      Writes(s, n, 1000 * n) && Step(s, n, 1000 * n) == State(Filled(n + 1), n, 1)
  {
    NewGoesLast(Filled(n), n, 1000 * n);
    assert Filled(n) + [Entry(n, 1000 * n)] == Filled(n + 1);
    assert 1000 * n / 1000 == n;
  }

  lemma {:induction false} FillFills(n: nat)
    requires n <= MAX_TRACKED
    ensures ClockForward(Fill(n)) && TokensLogged(Fill(n)) == Below(n)
    ensures After(Fill(n)) == State(Filled(n), n - 1, if n == 0 then 0 else 1)
  {
    if n > 0 {
      FillFills(n - 1);
      FillsOneMore(n - 1);
    }
  }

  const OVERFLOW_AT: nat := 1000 * MAX_TRACKED

  /**
   * Token 0 again, which keeps its place as the oldest; a token more, which
   * pushes it out; and token 0 once more in the same millisecond.
   */
  function Crowded(full: Run): Run {
    Then(Then(Then(full, 0, OVERFLOW_AT), MAX_TRACKED, OVERFLOW_AT), 0, OVERFLOW_AT)
  }

  /** Written again in another second, the oldest token stays the oldest. */
  lemma {:induction false} OldestAgain(rest: seq<Entry>)
    requires |rest| == MAX_TRACKED - 1
    ensures var s := State([Entry(0, 0)] + rest, MAX_TRACKED - 1, 1);
      && Writes(s, 0, OVERFLOW_AT)
      && Step(s, 0, OVERFLOW_AT) == State([Entry(0, OVERFLOW_AT)] + rest, MAX_TRACKED, 1)
  {
    assert ([Entry(0, 0)] + rest)[1..] == rest;
    assert OVERFLOW_AT / 1000 == MAX_TRACKED;
  }

  /** A new token pushes it out ... */
  lemma {:induction false} OldestPushedOut(rest: seq<Entry>)
    requires |rest| == MAX_TRACKED - 1
    requires forall i :: 0 <= i < |rest| ==> 0 < rest[i].token < MAX_TRACKED
    ensures var s := State([Entry(0, OVERFLOW_AT)] + rest, MAX_TRACKED, 1);
      && Writes(s, MAX_TRACKED, OVERFLOW_AT)
      && Step(s, MAX_TRACKED, OVERFLOW_AT) == State(rest + [Entry(MAX_TRACKED, OVERFLOW_AT)], MAX_TRACKED, 2)
  {
    var last := [Entry(0, OVERFLOW_AT)] + rest;
    NewGoesLast(last, MAX_TRACKED, OVERFLOW_AT);
    NewGoesLast(rest, MAX_TRACKED, OVERFLOW_AT);
    assert last[1..] == rest;
  }

  /** ... so that it counts as never seen. */
  lemma {:induction false} OldestUnknown(rest: seq<Entry>)
    requires forall i :: 0 <= i < |rest| ==> 0 < rest[i].token < MAX_TRACKED
    ensures Writes(State(rest + [Entry(MAX_TRACKED, OVERFLOW_AT)], MAX_TRACKED, 2), 0, OVERFLOW_AT)
  {
    NewGoesLast(rest + [Entry(MAX_TRACKED, OVERFLOW_AT)], 0, OVERFLOW_AT);
  }

  lemma {:induction false} CrowdedWrites(full: Run, rest: seq<Entry>)
    requires After(full) == State([Entry(0, 0)] + rest, MAX_TRACKED - 1, 1) && |rest| == MAX_TRACKED - 1
    requires forall i :: 0 <= i < |rest| ==> 0 < rest[i].token < MAX_TRACKED
    ensures Wrote(Crowded(full)) && Wrote(Crowded(full).before) && Wrote(Crowded(full).before.before)
  {
    OldestAgain(rest);
    OldestPushedOut(rest);
    OldestUnknown(rest);
  }

  lemma {:induction false} CrowdedBreaks(full: Run, n: nat)
    requires n == MAX_TRACKED && ClockForward(full) && full.Then? && full.at <= OVERFLOW_AT
    requires After(full) == State(Filled(n), n - 1, 1) && TokensLogged(full) == Below(n)
    ensures ClockForward(Crowded(full)) && !Spaced(Crowded(full)) && |TokensLogged(Crowded(full))| == n + 1
  {
    var rest := Filled(n)[1..];
    assert Filled(n) == [Entry(0, 0)] + rest;
    CrowdedWrites(full, rest);
    CrowdedTokens(full, n);
  }

  lemma {:induction false} CrowdedTokens(full: Run, n: nat)
    requires n == MAX_TRACKED && TokensLogged(full) == Below(n)
    requires Wrote(Crowded(full)) && Wrote(Crowded(full).before) && Wrote(Crowded(full).before.before)
    ensures |TokensLogged(Crowded(full))| == n + 1 && !Spaced(Crowded(full))
  {
    var pushed := Crowded(full).before;
    BelowCounts(n, 0);
    BelowCounts(n, n);
    assert TokensLogged(pushed.before) == Below(n);
    assert TokensLogged(Crowded(full)) == Below(n) + {n};
    assert LastLine(pushed, 0) == Some(OVERFLOW_AT);
  }

  ghost predicate SpacedUpTo(n: nat) {
    forall run: Run :: ClockForward(run) && |TokensLogged(run)| <= n ==> Spaced(run)
  }

  /** The promise of a line a second per token holds for just as many tokens as the table has room for. */
  lemma {:induction false} SpacingHoldsIff(n: nat)
    ensures SpacedUpTo(n) <==> n <= MAX_TRACKED
  {
    if n <= MAX_TRACKED {
      forall run: Run | ClockForward(run) && |TokensLogged(run)| <= n ensures Spaced(run) {
        SpacedWhileRemembered(run);
      }
    } else {
      var full: nat :| full == MAX_TRACKED;
      FillFills(full);
      CrowdedBreaks(Fill(full), full);
    }
  }
}
