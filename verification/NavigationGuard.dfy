/**
 * What a panel window of the desktop app may show. A parsed address stands for
 * the URL string; one that does not parse is `None`.
 */
module NavigationGuard {
  import opened Optional

  const SIGN_IN_PREFIX := "/v1/auth/"
  const SIGN_IN_WINDOW_MS := 10 * 60000

  datatype Url = Url(origin: string, protocol: string, pathname: string, username: string, password: string)
  datatype Decision = Allow | External | Block

  predicate OnPanel(url: Option<Url>, panel: string) {
    url.Some? && url.value.origin == panel
  }

  predicate IsSignInPage(url: Url) {
    SIGN_IN_PREFIX <= url.pathname
  }

  predicate IsExternalWebUrl(url: Option<Url>) {
    && url.Some?
    && (url.value.protocol == "https:" || url.value.protocol == "http:")
    && url.value.username == "" && url.value.password == ""
  }

  // ---------------------------------------------------------------------
  // The guard
  // ---------------------------------------------------------------------

  datatype Event =
    | Decide(url: Option<Url>, redirect: bool, from: Option<Url>, at: nat)
    | Arrive(url: Option<Url>, at: nat)

  /** What a decision does to the time limit. */
  function NextLimit(panel: string, limit: nat, e: Event): nat {
    match e
    case Decide(url, _, _, at) =>
      if OnPanel(url, panel) && IsSignInPage(url.value) then at + SIGN_IN_WINDOW_MS else limit
    case Arrive(url, _) =>
      if OnPanel(url, panel) && !IsSignInPage(url.value) then 0 else limit
  }

  function Verdict(panel: string, limit: nat, e: Event): Decision
    requires e.Decide?
  {
    if e.url.None? then Block
    else if OnPanel(e.url, panel) then Allow
    else if e.at < limit && e.url.value.protocol == "https:" && (e.redirect || !OnPanel(e.from, panel)) then Allow
    else if IsExternalWebUrl(e.url) then External
    else Block
  }

  class Guard {
    const origin: string
    var signInUntil: nat

    constructor (panel: string)
      ensures origin == panel && signInUntil == 0
    {
      origin := panel;
      signInUntil := 0;
    }

    predicate InSignIn(now: nat)
      reads this
    {
      now < signInUntil
    }

    method Decide(url: Option<Url>, redirect: bool, from: Option<Url>, now: nat) returns (decision: Decision)
      modifies this
      ensures decision == Verdict(origin, old(signInUntil), Event.Decide(url, redirect, from, now))
      ensures signInUntil == NextLimit(origin, old(signInUntil), Event.Decide(url, redirect, from, now))
    {
      match url {
        case None => return Block;
        case Some(target) =>
          if target.origin == origin {
            if SIGN_IN_PREFIX <= target.pathname {
              signInUntil := now + SIGN_IN_WINDOW_MS;
            }
            return Allow;
          }
          var fromPanel := from.Some? && from.value.origin == origin;
          if InSignIn(now) && target.protocol == "https:" && (redirect || !fromPanel) {
            return Allow;
          }
          return if IsExternalWebUrl(url) then External else Block;
      }
    }

    method Arrived(url: Option<Url>, now: nat)
      modifies this
      ensures signInUntil == NextLimit(origin, old(signInUntil), Arrive(url, now))
    {
      if url.Some? && url.value.origin == origin && !(SIGN_IN_PREFIX <= url.value.pathname) {
        signInUntil := 0;
      }
    }
  }

  // ---------------------------------------------------------------------
  // Whole runs
  // ---------------------------------------------------------------------

  /** The limit before event n. */
  function LimitAt(panel: string, events: seq<Event>, n: nat): nat
    requires n <= |events|
  {
    if n == 0 then 0 else NextLimit(panel, LimitAt(panel, events, n - 1), events[n - 1])
  }

  predicate ClockForward(events: seq<Event>) {
    forall i, j :: 0 <= i < j < |events| ==> events[i].at <= events[j].at
  }

  /** A navigation to a sign-in page of the panel. */
  predicate StartsSignIn(panel: string, e: Event) {
    e.Decide? && OnPanel(e.url, panel) && IsSignInPage(e.url.value)
  }

  /** An arrival on any other page of the panel. */
  predicate ReturnsToPanel(panel: string, e: Event) {
    e.Arrive? && OnPanel(e.url, panel) && !IsSignInPage(e.url.value)
  }

  /** Event k started a sign-in that is under ten minutes old and has not come back to the panel since. */
  predicate StillOpen(panel: string, events: seq<Event>, k: nat, n: nat, now: nat)
    requires k < n <= |events|
  {
    && StartsSignIn(panel, events[k]) && now < events[k].at + SIGN_IN_WINDOW_MS
    && forall j :: k < j < n ==> !ReturnsToPanel(panel, events[j])
  }

  predicate SignInOpen(panel: string, events: seq<Event>, n: nat, now: nat)
    requires n <= |events|
  {
    exists k: nat :: k < n && StillOpen(panel, events, k, n, now)
  }

  /** The limit is ten minutes after some sign-in navigation since which no ordinary page arrived, or zero. */
  lemma {:induction false} LimitMeansSignIn(panel: string, events: seq<Event>, n: nat, now: nat)
    requires n <= |events| && now < LimitAt(panel, events, n)
    ensures SignInOpen(panel, events, n, now)
  {
    var e := events[n - 1];
    if StartsSignIn(panel, e) {
      assert StillOpen(panel, events, n - 1, n, now);
    } else {
      LimitMeansSignIn(panel, events, n - 1, now);
      var k: nat :| k < n - 1 && StillOpen(panel, events, k, n - 1, now);
      assert StillOpen(panel, events, k, n, now);
    }
  }

  /** With a clock that does not go back, an earlier sign-in never outlasts a later one. */
  lemma {:induction false} SignInMeansLimit(panel: string, events: seq<Event>, k: nat, n: nat, now: nat)
    requires k < n <= |events| && ClockForward(events) && StillOpen(panel, events, k, n, now)
    ensures now < LimitAt(panel, events, n)
    decreases n
  {
    if n > k + 1 && !StartsSignIn(panel, events[n - 1]) {
      SignInMeansLimit(panel, events, k, n - 1, now);
      assert !ReturnsToPanel(panel, events[n - 1]);
    }
  }

  predicate IsForeign(panel: string, e: Event) {
    e.Decide? && e.url.Some? && !OnPanel(e.url, panel)
  }

  /** The verdict on event n of a run. */
  function VerdictAt(panel: string, events: seq<Event>, n: nat): Decision
    requires n < |events| && events[n].Decide?
  {
    Verdict(panel, LimitAt(panel, events, n), events[n])
  }

  /**
   * Whatever the clock does: a foreign page is shown only over https, never by
   * a panel page's own navigation, and only within ten minutes of a sign-in
   * started on the panel with no ordinary panel page loaded since.
   */
  lemma {:induction false} ForeignNeedsSignIn(panel: string, events: seq<Event>, n: nat)
    requires n < |events| && IsForeign(panel, events[n]) && VerdictAt(panel, events, n) == Allow
    ensures var e := events[n];
      && e.url.value.protocol == "https:"
      && (e.redirect || !OnPanel(e.from, panel))
      && SignInOpen(panel, events, n, e.at)
  {
    LimitMeansSignIn(panel, events, n, events[n].at);
  }

  /** With a clock that does not go back, exactly then. */
  lemma {:induction false} ForeignAllowedIff(panel: string, events: seq<Event>, n: nat)
    requires n < |events| && IsForeign(panel, events[n]) && ClockForward(events)
    ensures var e := events[n];
      VerdictAt(panel, events, n) == Allow <==>
        && e.url.value.protocol == "https:"
        && (e.redirect || !OnPanel(e.from, panel))
        && SignInOpen(panel, events, n, e.at)
  {
    var e := events[n];
    if VerdictAt(panel, events, n) == Allow {
      ForeignNeedsSignIn(panel, events, n);
    } else if SignInOpen(panel, events, n, e.at) {
      var k: nat :| k < n && StillOpen(panel, events, k, n, e.at);
      SignInMeansLimit(panel, events, k, n, e.at);
    }
  }

  /** May the window show this address, by what happened before? */
  ghost predicate MayShow(panel: string, events: seq<Event>, n: nat, target: Url)
    requires n < |events| && events[n].Decide?
  {
    || target.origin == panel
    || (&& target.protocol == "https:"
        && (events[n].redirect || !OnPanel(events[n].from, panel))
        && SignInOpen(panel, events, n, events[n].at))
  }

  /**
   * Every decision: what does not parse is blocked, a page of the panel always
   * shown, a foreign one during a sign-in; of the rest, plain web addresses go
   * to the system browser and everything else nowhere.
   */
  lemma {:induction false} EveryDecision(panel: string, events: seq<Event>, n: nat)
    requires n < |events| && events[n].Decide? && ClockForward(events)
    ensures VerdictAt(panel, events, n) == match events[n].url
      case None => Block
      case Some(target) =>
        if MayShow(panel, events, n, target) then Allow
        else if target.protocol in {"http:", "https:"} && target.username == "" && target.password == "" then External
        else Block
  {
    if IsForeign(panel, events[n]) {
      ForeignAllowedIff(panel, events, n);
    }
  }

  /**
   * The identity provider cannot prolong its stay: with no sign-in started on
   * the panel in the last ten minutes, no foreign page is shown, whatever was
   * visited in between.
   */
  lemma {:induction false} AbandonedSignInEnds(panel: string, events: seq<Event>, n: nat)
    requires n < |events| && IsForeign(panel, events[n])
    requires forall k :: 0 <= k < n && StartsSignIn(panel, events[k]) ==>
               events[k].at + SIGN_IN_WINDOW_MS <= events[n].at
    ensures VerdictAt(panel, events, n) != Allow
  {
    if VerdictAt(panel, events, n) == Allow {
      ForeignNeedsSignIn(panel, events, n);
    }
  }

  /** Coming back ends the detour: the next foreign page needs a new sign-in. */
  lemma {:induction false} ReturnEndsSignIn(panel: string, events: seq<Event>, back: nat, n: nat)
    requires back < n < |events| && IsForeign(panel, events[n]) && ReturnsToPanel(panel, events[back])
    requires forall k :: back < k < n ==> !StartsSignIn(panel, events[k])
    ensures VerdictAt(panel, events, n) != Allow
  {
    if VerdictAt(panel, events, n) == Allow {
      ForeignNeedsSignIn(panel, events, n);
    }
  }
}
