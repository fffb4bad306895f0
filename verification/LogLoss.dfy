/**
 * What the log protocol loses: a chunk whose attempts ended unstored, how long
 * an outage has to last for that, and what it does to the log.
 */
module LogLoss {
  import opened LogShipping

  /** Chunk `n` ended without being stored, and nothing of it is on its way any more. */
  ghost predicate Lost(s: State, n: nat) {
    && s.panel.logSeq < n <= s.runner.ended
    && n !in s.net.requests
    && forall x :: x in s.panel.reading ==> x.0 != n
  }

  lemma {:induction false} LostThroughRunner(s: State, e: Event, n: nat)
    requires Inv(s) && Lost(s, n)
    requires e.Write? || e.FlushTimer? || e.Finish? || e.GiveUp? || e.Receive? || e.NoAnswer?
    ensures Lost(Step(s, e), n)
  {
  }

  lemma {:induction false} LostThroughPost(s: State, n: nat)
    requires Inv(s) && Lost(s, n)
    ensures Lost(Step(s, Post), n)
  {
  }

  lemma {:induction false} LostThroughDeliver(s: State, m: nat, n: nat)
    requires Inv(s) && Lost(s, n)
    ensures Lost(Step(s, Deliver(m)), n)
  {
  }

  lemma {:induction false} LostThroughCommit(s: State, m: nat, seen: nat, n: nat)
    requires Inv(s) && Lost(s, n)
    ensures Lost(Step(s, Commit(m, seen)), n)
  {
    if (m, seen) in s.panel.reading {
      assert m == seen + 1 && m != n;
    }
  }

  lemma {:induction false} LostThroughLoss(s: State, e: Event, n: nat)
    requires Inv(s) && Lost(s, n) && (e.LoseRequest? || e.Fail? || e.Crash? || e.AttemptOver? || e.LeaseGone?)
    ensures Lost(Step(s, e), n)
  {
  }

  lemma {:induction false} LostStaysLost(s: State, e: Event, n: nat)
    requires Inv(s) && Lost(s, n)
    ensures Lost(Step(s, e), n)
  {
    match e {
      case Post => LostThroughPost(s, n);
      case Deliver(m) => LostThroughDeliver(s, m, n);
      case Commit(m, seen) => LostThroughCommit(s, m, seen, n);
      case LoseRequest(_) => LostThroughLoss(s, e, n);
      case Fail(_) => LostThroughLoss(s, e, n);
      case Crash(_, _) => LostThroughLoss(s, e, n);
      case AttemptOver => LostThroughLoss(s, e, n);
      case LeaseGone => LostThroughLoss(s, e, n);
      case _ => LostThroughRunner(s, e, n);
    }
  }

  /**
   * A chunk that is lost is never sent again, although the panel refuses what
   * follows so that it may be: from then on the log ends before it.
   */
  lemma {:induction false} LossEndsTheLog(events: seq<Event>, i: nat, n: nat)
    requires i <= |events| && Lost(Run(events[..i]), n)
    ensures Run(events).panel.logSeq < n
    ensures Lost(Run(events), n)
    decreases |events|
  {
    if i < |events| {
      var front := events[..|events| - 1];
      assert front[..i] == events[..i];
      LossEndsTheLog(front, i, n);
      RunKeeps(front);
      LostStaysLost(Run(front), events[|events| - 1], n);
    } else {
      assert events[..i] == events;
    }
  }

  /** The attempts of every chunk are over, and nothing is under way. */
  predicate Quiet(s: State) {
    && s.runner.finished && s.runner.ended == |s.runner.chunks|
    && s.net.requests == {} && s.panel.reading == multiset{}
  }

  /** The log of such a run is everything written exactly when no chunk was ever lost. */
  lemma {:induction false} CompleteIffNothingLost(events: seq<Event>)
    requires Quiet(Run(events)) && |Run(events).runner.written| <= MAX_LOG_BYTES
    ensures Run(events).panel.stored == Run(events).runner.written <==>
      forall i: nat, n: nat :: i <= |events| ==> !Lost(Run(events[..i]), n)
  {
    var s := Run(events);
    RunKeeps(events);
    CompleteIff(events);
    assert events[..|events|] == events;
    if s.panel.logSeq == |s.runner.chunks| {
      forall i: nat, n: nat | i <= |events| ensures !Lost(Run(events[..i]), n) {
        if Lost(Run(events[..i]), n) {
          LossEndsTheLog(events, i, n);
        }
      }
    } else {
      assert Lost(Run(events[..|events|]), s.panel.logSeq + 1);
    }
  }

  // ---------------------------------------------------------------------
  // Outages shorter than the tries
  // ---------------------------------------------------------------------

  /** The attempt goes on under its lease, and none of the first `n` chunks was posted 150 times. */
  predicate TriesLeft(s: State, n: nat) {
    && s.panel.running && s.panel.leased
    && forall k :: 1 <= k <= n ==> Times(s.posted, k) < MAX_TRIES
  }

  /** As long as tries were left, every one of the first `n` chunks whose attempts ended is stored. */
  ghost predicate StoredSoFar(s: State, n: nat) {
    && !s.runner.superseded
    && (s.runner.ended <= s.panel.logSeq || n <= s.panel.logSeq)
    && forall x :: x in s.net.replies ==> x.1 != Unauthorized && (x.1 == Conflict && x.0 <= n ==> x.0 <= s.panel.logSeq)
  }

  /** Tries left after a step were left before it. */
  lemma {:induction false} TriesOnlyGoDown(s: State, e: Event, n: nat)
    requires TriesLeft(Step(s, e), n)
    ensures TriesLeft(s, n)
  {
    PostedOnceMore(s.posted, s.runner.ended + 1);
    forall k | 1 <= k <= n ensures Times(s.posted, k) < MAX_TRIES {
      assert Times(Step(s, e).posted, k) < MAX_TRIES;
    }
  }

  lemma {:induction false} GiveUpNeedsTries(s: State, n: nat)
    requires Inv(s) && TriesLeft(s, n) && StoredSoFar(s, n)
    ensures StoredSoFar(Step(s, GiveUp), n)
  {
    if s.runner.ended < n {
      assert Times(s.posted, s.runner.ended + 1) < MAX_TRIES;
    }
  }

  lemma {:induction false} ReceiveStores(s: State, reply: Reply, n: nat)
    requires Inv(s) && StoredSoFar(s, n)
    ensures StoredSoFar(Step(s, Receive(reply)), n)
  {
  }

  lemma {:induction false} DeliverStores(s: State, m: nat, n: nat)
    requires Inv(s) && TriesLeft(s, n) && StoredSoFar(s, n)
    ensures StoredSoFar(Step(s, Deliver(m)), n)
  {
  }

  lemma {:induction false} CommitStores(s: State, m: nat, seen: nat, n: nat)
    requires Inv(s) && TriesLeft(s, n) && StoredSoFar(s, n)
    ensures StoredSoFar(Step(s, Commit(m, seen)), n)
  {
  }

  lemma {:induction false} StepStores(s: State, e: Event, n: nat)
    requires Inv(s) && TriesLeft(Step(s, e), n) && StoredSoFar(s, n)
    ensures StoredSoFar(Step(s, e), n)
  {
    TriesOnlyGoDown(s, e, n);
    match e {
      case GiveUp => GiveUpNeedsTries(s, n);
      case Receive(reply) => ReceiveStores(s, reply, n);
      case Deliver(m) => DeliverStores(s, m, n);
      case Commit(m, seen) => CommitStores(s, m, seen, n);
      case _ =>
    }
  }

  lemma {:induction false} RunStores(events: seq<Event>, n: nat)
    requires TriesLeft(Run(events), n)
    ensures StoredSoFar(Run(events), n)
  {
    if events != [] {
      var s, e := Run(events[..|events| - 1]), events[|events| - 1];
      TriesOnlyGoDown(s, e, n);
      RunStores(events[..|events| - 1], n);
      RunKeeps(events[..|events| - 1]);
      StepStores(s, e, n);
    }
  }

  /**
   * A short outage loses no lines: while attempt and lease go on, a chunk whose
   * attempts have ended is stored, if neither it nor a chunk before it needed
   * all of its 150 tries.
   */
  lemma {:induction false} ShortOutageLosesNothing(events: seq<Event>, n: nat)
    requires TriesLeft(Run(events), n) && n <= Run(events).runner.ended
    ensures n <= Run(events).panel.logSeq
  {
    RunStores(events, n);
  }

  /** A chunk is lost only when the attempt or the lease is over, or all tries of some chunk up to it were used. */
  lemma {:induction false} LossNeedsAllTries(events: seq<Event>, n: nat)
    requires Lost(Run(events), n) && Run(events).panel.running && Run(events).panel.leased
    ensures exists k :: 1 <= k <= n && Times(Run(events).posted, k) == MAX_TRIES
  {
    var s := Run(events);
    if forall k :: 1 <= k <= n ==> Times(s.posted, k) < MAX_TRIES {
      ShortOutageLosesNothing(events, n);
    } else {
      var k :| 1 <= k <= n && Times(s.posted, k) >= MAX_TRIES;
      RunKeeps(events);
      assert Times(s.posted, k) <= MAX_TRIES;
    }
  }

  /** The runner has written all, and the attempts of every chunk are over. */
  predicate AllEnded(s: State) {
    && s.runner.finished && s.runner.ended == |s.runner.chunks|
    && |s.runner.written| <= MAX_LOG_BYTES && s.panel.running && s.panel.leased
  }

  /** `tries` posts a chunk suffice: every run that needs no more of any stores everything. */
  ghost predicate Suffice(tries: nat) {
    forall events: seq<Event> ::
      AllEnded(Run(events)) && (forall n :: Times(Run(events).posted, n) <= tries) ==>
        Run(events).panel.stored == Run(events).runner.written
  }

  /** After `k` attempts at the first chunk that nobody answered. */
  predicate IsUnanswered(s: State, k: nat) {
    && s.runner == Runner("a", "", ["a"], false, 0, k, false, false, {})
    && s.panel == STARTED.panel && s.net.replies == {}
  }

  lemma {:induction false} OneChunk() returns (events: seq<Event>)
    ensures IsUnanswered(Run(events), 0)
  {
    RunOneMore([], Write("a"));
    assert Wrote(STARTED.runner, "a") == STARTED.runner.(written := "a", pending := "a");
    RunOneMore([] + [Write("a")], FlushTimer);
    events := [] + [Write("a")] + [FlushTimer];
  }

  lemma {:induction false} Unanswered(k: nat) returns (events: seq<Event>)
    requires k <= MAX_TRIES
    ensures IsUnanswered(Run(events), k)
  {
    if k == 0 {
      events := OneChunk();
    } else {
      var before := Unanswered(k - 1);
      RunOneMore(before, Post);
      RunOneMore(before + [Post], NoAnswer);
      events := before + [Post] + [NoAnswer];
    }
  }

  lemma {:induction false} OutageEnds(s: State)
    requires IsUnanswered(s, MAX_TRIES)
    ensures var t := Step(Step(Step(s, LoseRequest(1)), GiveUp), Finish);
      Lost(t, 1) && AllEnded(t) && t.panel.stored != t.runner.written
  {
  }

  /** It does happen, with the lease held and the attempt running: an outage of 150 tries, then the panel is back. */
  lemma {:induction false} LossHappens() returns (events: seq<Event>)
    ensures Lost(Run(events), 1) && AllEnded(Run(events)) && Run(events).panel.stored != Run(events).runner.written
  {
    var before := Unanswered(MAX_TRIES);
    OutageEnds(Run(before));
    RunOneMore(before, LoseRequest(1));
    RunOneMore(before + [LoseRequest(1)], GiveUp);
    RunOneMore(before + [LoseRequest(1)] + [GiveUp], Finish);
    events := before + [LoseRequest(1)] + [GiveUp] + [Finish];
  }

  lemma {:induction false} PostsAreBounded(s: State, n: nat)
    requires Inv(s)
    ensures Times(s.posted, n) <= MAX_TRIES
  {
    if n == 0 || n > s.runner.ended + 1 {
      NeverPosted(s.posted, n);
    }
  }

  lemma {:induction false} NeverPosted(posted: seq<nat>, n: nat)
    requires forall i :: 0 <= i < |posted| ==> posted[i] != n
    ensures Times(posted, n) == 0
  {
    if posted != [] {
      NeverPosted(posted[..|posted| - 1], n);
    }
  }

  /**
   * For a run under its lease, within the size limit, whose attempts have
   * ended: to need at most `tries` posts of any chunk is enough for a complete
   * log if and only if `tries` is below the limit of 150.
   */
  lemma {:induction false} SufficeIff(tries: nat)
    ensures Suffice(tries) <==> tries < MAX_TRIES
  {
    if tries < MAX_TRIES {
      forall events: seq<Event> | AllEnded(Run(events)) && (forall n :: Times(Run(events).posted, n) <= tries)
        ensures Run(events).panel.stored == Run(events).runner.written
      {
        RunKeeps(events);
        ShortOutageLosesNothing(events, Run(events).runner.ended);
        CompleteIff(events);
      }
    } else {
      var events := LossHappens();
      RunKeeps(events);
      forall n ensures Times(Run(events).posted, n) <= tries {
        PostsAreBounded(Run(events), n);
      }
    }
  }

  /** Two handlers that read the row together: one stores the chunk, the other is told of a conflict. */
  lemma {:induction false} StoredChunkMayConflict() returns (events: seq<Event>)
    ensures var s := Run(events); (1, Conflict) in s.net.replies && s.panel.logSeq == 1 && s.panel.stored == "a"
  {
    var before := Unanswered(0);
    RunOneMore(before, Post);
    var a := before + [Post];
    RunOneMore(a, Deliver(1));
    RunOneMore(a + [Deliver(1)], Deliver(1));
    var b := a + [Deliver(1)] + [Deliver(1)];
    RunOneMore(b, Commit(1, 0));
    RunOneMore(b + [Commit(1, 0)], Commit(1, 0));
    events := b + [Commit(1, 0)] + [Commit(1, 0)];
  }
}
