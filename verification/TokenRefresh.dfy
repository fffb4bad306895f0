/**
 * The CLI's single-flight token refresh: callers that meet a 401 share one
 * exchange of the saved refresh token, and the server rotates tokens.
 */
module TokenRefresh {
  import opened Optional

  /** A refresh token; the server numbers the ones it issues. */
  type Token = nat

  /**
   * One call of `refreshSession`. It runs until it has its result; its promise
   * settles when the `finally` callback has cleared the in-flight variable.
   */
  datatype Phase = Running | Returned(ok: bool) | Settled(ok: bool)

  /** `issued` is the server's answer to a valid token, if the server ever handled the request. */
  datatype Flight = Flight(token: Token, phase: Phase, handled: bool, issued: Option<Token>)

  /** A caller waits for a flight and then has its result; one without a saved token gives up at once. */
  datatype Caller = Waits(flight: nat) | Shared(flight: nat, ok: bool, access: Option<Token>) | SignedOut

  /** `saved` is the refresh token in the config file, saved together with its access token. */
  datatype State = State(
    saved: Option<Token>, inflight: Option<nat>, flights: seq<Flight>, callers: seq<Caller>,
    valid: Token, spent: set<Token>, nextToken: Token)

  /** Signed in: the config holds the token the server expects, number 0. */
  const SIGNED_IN := State(Some(0), None, [], [], 0, {}, 1)

  datatype Event =
    | Unauthorized                 // a request answered 401 calls refreshAccessToken
    | ServerHandles(flight: nat)   // the request arrives, perhaps after the client gave up on it
    | Saves(flight: nat)           // a good answer arrives and is saved
    | Fails(flight: nat)           // no answer, a refusal, or an answer that could not be saved
    | Finally(flight: nat)         // the in-flight variable is cleared, the promise settles
    | Resumes(caller: nat)         // a caller goes on with the shared result

  predicate Enabled(s: State, e: Event) {
    match e
    case Unauthorized => true
    case ServerHandles(k) => k < |s.flights| && !s.flights[k].handled
    case Saves(k) => k < |s.flights| && s.flights[k].phase.Running? && s.flights[k].issued.Some?
    case Fails(k) => k < |s.flights| && s.flights[k].phase.Running?
    case Finally(k) => k < |s.flights| && s.flights[k].phase.Returned?
    case Resumes(i) =>
      && i < |s.callers| && s.callers[i].Waits? && s.callers[i].flight < |s.flights|
      && s.flights[s.callers[i].flight].phase.Settled?
  }

  /** The synchronous part of `refreshAccessToken`: join what is in flight, or send the saved token. */
  function Asked(s: State): State {
    if s.saved.None? then s.(callers := s.callers + [SignedOut])
    else if s.inflight.Some? then s.(callers := s.callers + [Waits(s.inflight.value)])
    else s.(inflight := Some(|s.flights|),
            flights := s.flights + [Flight(s.saved.value, Running, false, None)],
            callers := s.callers + [Waits(|s.flights|)])
  }

  /** The server rotates a valid token. */
  function Rotated(s: State, k: nat): State
    requires k < |s.flights|
  {
    s.(flights := s.flights[k := s.flights[k].(handled := true, issued := Some(s.nextToken))],
       valid := s.nextToken, spent := s.spent + {s.flights[k].token}, nextToken := s.nextToken + 1)
  }

  /** Any other token is refused before anything is written: the session and its newest token stay valid. */
  function Refused(s: State, k: nat): State
    requires k < |s.flights|
  {
    s.(flights := s.flights[k := s.flights[k].(handled := true)])
  }

  function Step(s: State, e: Event): State
    requires Enabled(s, e)
  {
    match e
    case Unauthorized => Asked(s)
    case ServerHandles(k) => if s.valid == s.flights[k].token then Rotated(s, k) else Refused(s, k)
    case Saves(k) =>
      s.(saved := s.flights[k].issued, flights := s.flights[k := s.flights[k].(phase := Returned(true))])
    case Fails(k) => s.(flights := s.flights[k := s.flights[k].(phase := Returned(false))])
    case Finally(k) =>
      s.(inflight := None, flights := s.flights[k := s.flights[k].(phase := Settled(s.flights[k].phase.ok))])
    case Resumes(i) =>
      var k := s.callers[i].flight;
      s.(callers := s.callers[i := Shared(k, s.flights[k].phase.ok, s.saved)])
  }

  function Run(events: seq<Event>): State {
    if events == [] then SIGNED_IN
    else
      var s := Run(events[..|events| - 1]);
      var e := events[|events| - 1];
      if Enabled(s, e) then Step(s, e) else s
  }

  // ---------------------------------------------------------------------
  // What every step keeps
  // ---------------------------------------------------------------------

  predicate Succeeded(f: Flight) {
    !f.phase.Running? && f.phase.ok
  }

  /** Until its promise settles, a flight is the one in flight. */
  ghost predicate SingleFlight(s: State) {
    && (s.inflight.Some? ==> s.inflight.value + 1 == |s.flights| && !s.flights[s.inflight.value].phase.Settled?)
    && (forall k :: 0 <= k < |s.flights| && !s.flights[k].phase.Settled? ==> s.inflight == Some(k))
    && (forall i :: 0 <= i < |s.callers| ==> CallerOk(s.flights, s.callers[i]))
  }

  /** A caller has the result of the flight it joined. */
  predicate CallerOk(flights: seq<Flight>, c: Caller) {
    match c
    case Waits(k) => k < |flights|
    case Shared(k, ok, _) => k < |flights| && flights[k].phase == Settled(ok)
    case SignedOut => true
  }

  /** The server exchanged this token for a new one in one of the flights. */
  ghost predicate Exchanged(flights: seq<Flight>, t: Token) {
    exists k :: 0 <= k < |flights| && flights[k].token == t && flights[k].issued.Some?
  }

  /** What was exchanged stays so while flights only progress or are added. */
  lemma {:induction false} ExchangedStands(before: seq<Flight>, after: seq<Flight>, t: Token)
    requires Exchanged(before, t) && |before| <= |after|
    requires forall k :: 0 <= k < |before| ==>
      after[k].token == before[k].token && (before[k].issued.Some? ==> after[k].issued.Some?)
    ensures Exchanged(after, t)
  {
    var k :| 0 <= k < |before| && before[k].token == t && before[k].issued.Some?;
    assert after[k].token == t && after[k].issued.Some?;
  }

  /** The tokens: issued in order, spent only by an exchange, and gone from the config once exchanged and saved. */
  ghost predicate TokensOk(s: State) {
    && (s.saved.Some? ==> s.saved.value < s.nextToken)
    && s.nextToken == s.valid + 1
    && (forall t :: t in s.spent <==> 0 <= t < s.valid)
    && (forall t :: t in s.spent ==> t < s.nextToken && Exchanged(s.flights, t))
    && (forall k :: 0 <= k < |s.flights| ==> FlightOk(s, k))
  }

  ghost predicate FlightOk(s: State, k: nat)
    requires k < |s.flights|
  {
    var f := s.flights[k];
    && f.token < s.nextToken
    && (f.phase.Running? ==> s.saved == Some(f.token))
    && (f.issued.Some? ==> f.handled && f.token in s.spent && f.token < f.issued.value < s.nextToken)
    && (Succeeded(f) ==> f.issued.Some? && s.saved.Some? && f.token < s.saved.value)
    && forall j :: k < j < |s.flights| ==> f.token <= s.flights[j].token
  }

  ghost predicate LaterTokensDiffer(s: State) {
    && (s.saved.Some? ==> forall k :: 0 <= k < |s.flights| ==> s.flights[k].token <= s.saved.value)
    && forall k, j :: 0 <= k < j < |s.flights| && Succeeded(s.flights[k]) ==> s.flights[k].token < s.flights[j].token
  }

  ghost predicate Inv(s: State) {
    SingleFlight(s) && TokensOk(s) && LaterTokensDiffer(s)
  }

  lemma {:induction false} AskKeeps(s: State)
    requires Inv(s)
    ensures Inv(Asked(s))
  {
    if s.saved.None? || s.inflight.Some? {
      JoinKeeps(s, Asked(s).callers);
    } else {
      SendKeeps(s);
    }
  }

  lemma {:induction false} JoinKeeps(s: State, callers: seq<Caller>)
    requires Inv(s) && forall i :: 0 <= i < |callers| ==> CallerOk(s.flights, callers[i])
    ensures Inv(s.(callers := callers))
  {
    var t := s.(callers := callers);
    forall k | 0 <= k < |t.flights| ensures FlightOk(t, k) {
      assert FlightOk(s, k);
    }
  }

  lemma {:induction false} SendKeeps(s: State)
    requires Inv(s) && s.saved.Some? && s.inflight.None?
    ensures Inv(Asked(s))
  {
    var t := Asked(s);
    forall k | 0 <= k < |t.flights| ensures FlightOk(t, k) {
      if k < |s.flights| {
        assert FlightOk(s, k) && t.flights[k] == s.flights[k];
      }
    }
    forall k, j | 0 <= k < j < |t.flights| && Succeeded(t.flights[k]) ensures t.flights[k].token < t.flights[j].token {
      assert FlightOk(s, k) && t.flights[k] == s.flights[k];
    }
    forall x | x in t.spent ensures Exchanged(t.flights, x) {
      ExchangedStands(s.flights, t.flights, x);
    }
  }

  lemma {:induction false} RotateKeeps(s: State, k: nat)
    requires Inv(s) && k < |s.flights| && !s.flights[k].handled && s.valid == s.flights[k].token
    ensures Inv(Rotated(s, k))
  {
    var t := Rotated(s, k);
    forall j | 0 <= j < |t.flights| ensures FlightOk(t, j) {
      assert FlightOk(s, j);
    }
    forall x | x in t.spent ensures x < t.nextToken && Exchanged(t.flights, x) {
      if x in s.spent {
        assert FlightOk(s, k);
        ExchangedStands(s.flights, t.flights, x);
      } else {
        assert FlightOk(s, k) && t.flights[k].token == x && t.flights[k].issued.Some?;
      }
    }
  }

  lemma {:induction false} RefuseKeeps(s: State, k: nat)
    requires Inv(s) && k < |s.flights| && !s.flights[k].handled
    ensures Inv(Refused(s, k))
  {
    var t := Refused(s, k);
    forall j | 0 <= j < |t.flights| ensures FlightOk(t, j) {
      assert FlightOk(s, j);
    }
    forall x | x in t.spent ensures Exchanged(t.flights, x) {
      ExchangedStands(s.flights, t.flights, x);
    }
  }

  /** A running flight gets its result: only the newest, and only with the token it sent still saved. */
  lemma {:induction false} ReturnKeeps(s: State, k: nat, ok: bool)
    requires Inv(s) && k < |s.flights| && s.flights[k].phase.Running? && (ok ==> s.flights[k].issued.Some?)
    ensures Inv(Step(s, if ok then Saves(k) else Fails(k)))
  {
    var t := Step(s, if ok then Saves(k) else Fails(k));
    assert FlightOk(s, k);
    forall j | 0 <= j < |t.flights| ensures FlightOk(t, j) {
      assert FlightOk(s, j);
    }
    forall i, j | 0 <= i < j < |t.flights| && Succeeded(t.flights[i]) ensures t.flights[i].token < t.flights[j].token {
      assert i != k;
    }
    forall x | x in t.spent ensures Exchanged(t.flights, x) {
      ExchangedStands(s.flights, t.flights, x);
    }
  }

  lemma {:induction false} FinallyKeeps(s: State, k: nat)
    requires Inv(s) && Enabled(s, Finally(k))
    ensures Inv(Step(s, Finally(k)))
  {
    var t := Step(s, Finally(k));
    forall j | 0 <= j < |t.flights| ensures FlightOk(t, j) {
      assert FlightOk(s, j);
    }
    forall x | x in t.spent ensures Exchanged(t.flights, x) {
      ExchangedStands(s.flights, t.flights, x);
    }
  }

  lemma {:induction false} RunKeeps(events: seq<Event>)
    ensures Inv(Run(events))
  {
    if events != [] {
      var s, e := Run(events[..|events| - 1]), events[|events| - 1];
      RunKeeps(events[..|events| - 1]);
      if Enabled(s, e) {
        match e {
          case Unauthorized => AskKeeps(s);
          case ServerHandles(k) => if s.valid == s.flights[k].token { RotateKeeps(s, k); } else { RefuseKeeps(s, k); }
          case Saves(k) => ReturnKeeps(s, k, true);
          case Fails(k) => ReturnKeeps(s, k, false);
          case Finally(k) => FinallyKeeps(s, k);
          case Resumes(i) => JoinKeeps(s, Step(s, e).callers);
        }
      }
    }
  }

  // ---------------------------------------------------------------------
  // Every interleaving
  // ---------------------------------------------------------------------

  predicate SameFlight(a: Caller, b: Caller) {
    a.Shared? && b.Shared? && a.flight == b.flight
  }

  /** A flight exchanged the token on the server and came back without success. */
  ghost predicate AnswerLost(flights: seq<Flight>, t: Token) {
    exists k :: 0 <= k < |flights| && flights[k].token == t && flights[k].issued.Some? && !Succeeded(flights[k])
  }

  /** At most one refresh is outstanding, and callers that joined the same one get the same result. */
  lemma {:induction false} OneRefreshShared(events: seq<Event>)
    ensures var s := Run(events);
      && (forall j, k | 0 <= j < |s.flights| && 0 <= k < |s.flights| ::
            !s.flights[j].phase.Settled? && !s.flights[k].phase.Settled? ==> j == k)
      && (forall i, j | 0 <= i < |s.callers| && 0 <= j < |s.callers| ::
            SameFlight(s.callers[i], s.callers[j]) ==> s.callers[i].ok == s.callers[j].ok)
  {
    RunKeeps(events);
    var s := Run(events);
    assert forall i :: 0 <= i < |s.callers| ==> CallerOk(s.flights, s.callers[i]);
  }

  /**
   * Whoever meets a 401 waits for the one flight that is open, the one it found
   * or, if there was none, a new one with the saved token; nobody is turned away.
   */
  lemma {:induction false} CallersJoin(events: seq<Event>)
    ensures var s, t := Run(events), Run(Prefix(events, Unauthorized));
      var open := s.inflight;
      && |t.flights| > 0 && t.inflight == Some(|t.flights| - 1) && !t.flights[|t.flights| - 1].phase.Settled?
      && t.callers == s.callers + [Waits(|t.flights| - 1)]
      && (open.Some? ==> t.flights == s.flights)
      && (open.None? ==> s.saved.Some? && t.flights == s.flights + [Flight(s.saved.value, Running, false, None)])
  {
    RunKeeps(events);
    SignedInStays(events);
    RunOneMore(events, Unauthorized);
  }

  lemma {:induction false} SignedInStays(events: seq<Event>)
    ensures Run(events).saved.Some?
  {
    if events != [] {
      SignedInStays(events[..|events| - 1]);
    }
  }

  /** A caller of flight `k` has not gone on yet, or has the flight's result and the token saved when it did. */
  ghost predicate Follows(events: seq<Event>, n: nat, c: Caller, k: nat)
    requires n <= |events|
  {
    match c
    case Waits(flight) => flight == k
    case SignedOut => false
    case Shared(flight, ok, access) =>
      && flight == k && k < |Run(events[..n]).flights| && Run(events[..n]).flights[k].phase == Settled(ok)
      && exists m :: 0 <= m <= n && SavedAfter(events, m, k, ok, access)
  }

  /** When flight `k` had settled, this token was saved; after a success it is newer than the one sent. */
  ghost predicate SavedAfter(events: seq<Event>, m: nat, k: nat, ok: bool, access: Option<Token>)
    requires m <= |events|
  {
    var s := Run(events[..m]);
    && k < |s.flights| && s.flights[k].phase == Settled(ok) && access == s.saved
    && (ok ==> access.Some? && s.flights[k].token < access.value)
  }

  lemma {:induction false} SettledStays(s: State, e: Event, k: nat)
    requires Enabled(s, e) && k < |s.flights| && s.flights[k].phase.Settled?
    ensures k < |Step(s, e).flights| && Step(s, e).flights[k].phase == s.flights[k].phase
  {
  }

  lemma {:induction false} ResumesWith(events: seq<Event>, n: nat, i: nat)
    requires n < |events| && Enabled(Run(events[..n]), Resumes(i))
    ensures var s := Run(events[..n]);
      var k := s.callers[i].flight;
      SavedAfter(events, n, k, s.flights[k].phase.ok, s.saved)
  {
    var s := Run(events[..n]);
    RunKeeps(events[..n]);
    assert FlightOk(s, s.callers[i].flight);
  }

  lemma {:induction false} FollowsStays(events: seq<Event>, n: nat, c: Caller, k: nat)
    requires n < |events| && Follows(events, n, c, k)
    ensures Follows(events, n + 1, c, k)
  {
    assert events[..n + 1][..n] == events[..n];
    var s, e := Run(events[..n]), events[n];
    if c.Shared? {
      if Enabled(s, e) {
        SettledStays(s, e, k);
      }
      var m :| 0 <= m <= n && SavedAfter(events, m, k, c.ok, c.access);
    }
  }

  lemma {:induction false} OthersStay(s: State, e: Event, i: nat)
    requires Enabled(s, e) && i < |s.callers|
    ensures i < |Step(s, e).callers|
    ensures e != Resumes(i) ==> Step(s, e).callers[i] == s.callers[i]
    ensures e == Resumes(i) ==>
      var k := s.callers[i].flight;
      Step(s, e).callers[i] == Shared(k, s.flights[k].phase.ok, s.saved) && Step(s, e).flights == s.flights
  {
  }

  lemma {:induction false} NextFollows(events: seq<Event>, n: nat, i: nat, k: nat)
    requires n < |events| && i < |Run(events[..n]).callers| && Follows(events, n, Run(events[..n]).callers[i], k)
    ensures i < |Run(events[..n + 1]).callers| && Follows(events, n + 1, Run(events[..n + 1]).callers[i], k)
  {
    assert events[..n + 1][..n] == events[..n];
    var s, e := Run(events[..n]), events[n];
    FollowsStays(events, n, s.callers[i], k);
    if Enabled(s, e) {
      OthersStay(s, e, i);
      if e == Resumes(i) {
        ResumesWith(events, n, i);
      }
    }
  }

  /** Every caller ends with the result of the flight it joined, and with the token saved by then. */
  lemma {:induction false} CallersShareTheFlight(events: seq<Event>, m: nat, n: nat, i: nat)
    requires m <= n <= |events| && i < |Run(events[..m]).callers| && Run(events[..m]).callers[i].Waits?
    ensures i < |Run(events[..n]).callers|
    ensures Follows(events, n, Run(events[..n]).callers[i], Run(events[..m]).callers[i].flight)
    decreases n
  {
    if m < n {
      CallersShareTheFlight(events, m, n - 1, i);
      NextFollows(events, n - 1, i, Run(events[..m]).callers[i].flight);
    }
  }

  /** A flight in progress can end, and then its callers can go on. */
  lemma {:induction false} FlightsEnd(events: seq<Event>, k: nat)
    requires k < |Run(events).flights|
    ensures var s := Run(events);
      && (s.flights[k].phase.Running? ==> Enabled(s, Fails(k)))
      && (s.flights[k].phase.Returned? ==> Enabled(s, Finally(k)) && Run(Prefix(events, Finally(k))).inflight.None?)
      && (s.flights[k].phase.Settled? ==>
            forall i :: 0 <= i < |s.callers| && s.callers[i] == Waits(k) ==> Enabled(s, Resumes(i)))
  {
    if Run(events).flights[k].phase.Returned? {
      RunOneMore(events, Finally(k));
    }
  }

  /** A token whose exchange was saved is never sent again, however the callers come in. */
  lemma {:induction false} SavedNeverResent(events: seq<Event>, i: nat, j: nat)
    requires i < j < |Run(events).flights| && Succeeded(Run(events).flights[i])
    ensures Run(events).flights[i].token != Run(events).flights[j].token
  {
    RunKeeps(events);
  }

  /**
   * The next refresh would send a token the server already exchanged if and
   * only if a flight that was exchanged came back without success: its answer
   * was lost, or could not be saved.
   */
  lemma {:induction false} SpentIsSentIffAnswerLost(events: seq<Event>)
    requires Run(events).saved.Some? && Run(events).inflight.None?
    ensures var s := Run(events); s.saved.value in s.spent <==> AnswerLost(s.flights, s.saved.value)
  {
    RunKeeps(events);
    var s := Run(events);
    forall k | 0 <= k < |s.flights| ensures
      && (s.flights[k].issued.Some? ==> s.flights[k].token in s.spent)
      && (Succeeded(s.flights[k]) ==> s.flights[k].token < s.saved.value)
    {
      assert FlightOk(s, k);
    }
    if s.saved.value in s.spent {
      assert Exchanged(s.flights, s.saved.value);
    }
  }

  function Prefix(events: seq<Event>, e: Event): seq<Event> {
    events + [e]
  }

  lemma {:induction false} RunOneMore(events: seq<Event>, e: Event)
    requires Enabled(Run(events), e)
    ensures Run(Prefix(events, e)) == Step(Run(events), e)
  {
    assert Prefix(events, e)[..|events|] == events;
  }

  /** The config holds spent token `t`, and of the flights past the first `n` none was answered well; those are over. */
  ghost predicate Stuck(s: State, t: Token, n: nat) {
    && s.saved == Some(t) && t in s.spent && n <= |s.flights|
    && (forall k :: 0 <= k < n ==> s.flights[k].phase.Settled?)
    && (forall k :: n <= k < |s.flights| ==> s.flights[k].issued.None? && !Succeeded(s.flights[k]))
  }

  lemma {:induction false} StuckStays(s: State, e: Event, t: Token, n: nat)
    requires Inv(s) && Stuck(s, t, n) && Enabled(s, e)
    ensures Stuck(Step(s, e), t, n)
  {
    if e.ServerHandles? {
      assert s.flights[e.flight].token <= t < s.valid;
    }
  }

  lemma {:induction false} StuckFromThenOn(events: seq<Event>, i: nat, t: Token, n: nat)
    requires i <= |events| && Stuck(Run(events[..i]), t, n)
    ensures Stuck(Run(events), t, n)
    decreases |events|
  {
    if i < |events| {
      var front := events[..|events| - 1];
      assert front[..i] == events[..i];
      StuckFromThenOn(front, i, t, n);
      RunKeeps(front);
      if Enabled(Run(front), events[|events| - 1]) {
        StuckStays(Run(front), events[|events| - 1], t, n);
      }
    } else {
      assert events[..i] == events;
    }
  }

  /**
   * Once the answer to the saved token's exchange is lost and no refresh is in
   * flight, no later one succeeds and the config keeps its token, whatever
   * happens: only a new sign-in helps.
   */
  lemma {:induction false} LostAnswerSticks(events: seq<Event>, i: nat)
    requires i <= |events|
    requires var s := Run(events[..i]);
      s.saved.Some? && s.inflight.None? && AnswerLost(s.flights, s.saved.value)
    ensures var s, t := Run(events[..i]), Run(events);
      && t.saved == s.saved && |s.flights| <= |t.flights|
      && forall k :: |s.flights| <= k < |t.flights| ==> !Succeeded(t.flights[k])
  {
    var s := Run(events[..i]);
    RunKeeps(events[..i]);
    SpentIsSentIffAnswerLost(events[..i]);
    assert Stuck(s, s.saved.value, |s.flights|);
    StuckFromThenOn(events, i, s.saved.value, |s.flights|);
  }

  /** Otherwise the next refresh can still succeed. */
  lemma {:induction false} NextRefreshSucceeds(events: seq<Event>) returns (more: seq<Event>)
    requires var s := Run(events);
      s.saved.Some? && s.inflight.None? && !AnswerLost(s.flights, s.saved.value)
    ensures var s, t := Run(events), Run(more);
      events <= more && t.saved != s.saved && |t.flights| == |s.flights| + 1 && Succeeded(t.flights[|s.flights|])
  {
    RunKeeps(events);
    SpentIsSentIffAnswerLost(events);
    var k := |Run(events).flights|;
    RunOneMore(events, Unauthorized);
    more := Prefix(events, Unauthorized);
    RunOneMore(more, ServerHandles(k));
    more := Prefix(more, ServerHandles(k));
    RunOneMore(more, Saves(k));
    more := Prefix(more, Saves(k));
  }

  ghost predicate CanRefresh(events: seq<Event>) {
    exists more: seq<Event> :: events <= more && Run(more).saved != Run(events).saved
  }

  /**
   * With no refresh in flight, some run still gets a new token exactly when no
   * answer to the saved one's exchange was lost.
   */
  lemma {:induction false} CanRefreshIffNoAnswerLost(events: seq<Event>)
    requires Run(events).saved.Some? && Run(events).inflight.None?
    ensures CanRefresh(events) <==> !AnswerLost(Run(events).flights, Run(events).saved.value)
  {
    if AnswerLost(Run(events).flights, Run(events).saved.value) {
      forall more: seq<Event> | events <= more ensures Run(more).saved == Run(events).saved {
        assert more[..|events|] == events;
        LostAnswerSticks(more, |events|);
      }
    } else {
      var more := NextRefreshSucceeds(events);
    }
  }

  /** It happens: the server rotates, the answer is lost, and the flight settles. */
  lemma {:induction false} LostAnswerHappens() returns (events: seq<Event>)
    ensures var s := Run(events);
      s.saved == Some(0) && s.inflight.None? && AnswerLost(s.flights, 0) && s.valid == 1
  {
    events := [];
    RunOneMore(events, Unauthorized);
    events := Prefix(events, Unauthorized);
    RunOneMore(events, ServerHandles(0));
    events := Prefix(events, ServerHandles(0));
    RunOneMore(events, Fails(0));
    events := Prefix(events, Fails(0));
    RunOneMore(events, Finally(0));
    events := Prefix(events, Finally(0));
    assert Run(events).flights[0].token == 0 && Run(events).flights[0].issued == Some(1);
  }

  // ---------------------------------------------------------------------
  // refreshAccessToken in place
  // ---------------------------------------------------------------------

  class Session {
    var saved: Option<Token>
    var refreshInflight: Option<nat>
    /** Every call of `refreshSession` made so far, by the token it sent. */
    var sent: seq<Token>

    constructor (saved: Option<Token>)
      ensures this.saved == saved && refreshInflight == None && sent == []
    {
      this.saved, refreshInflight, sent := saved, None, [];
    }

    /** The flight the caller joins, or none when there is no refresh token. */
    method RefreshAccessToken() returns (joined: Option<nat>)
      modifies this
      ensures saved == old(saved)
      ensures old(saved).None? ==> joined.None? && sent == old(sent) && refreshInflight == old(refreshInflight)
      ensures old(saved).Some? && old(refreshInflight).Some? ==>
        joined == old(refreshInflight) == refreshInflight && sent == old(sent)
      ensures old(saved).Some? && old(refreshInflight).None? ==>
        joined == refreshInflight == Some(|old(sent)|) && sent == old(sent) + [old(saved).value]
    {
      if saved.None? {
        return None;
      }
      if refreshInflight.None? {
        refreshInflight := Some(|sent|);
        sent := sent + [saved.value];
      }
      return refreshInflight;
    }
  }
}
