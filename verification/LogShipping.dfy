/**
 * The CI runner ships its job's log in numbered chunks, each retried until the
 * panel answers; the panel appends a chunk only once and only in order. The
 * network may lose, delay and repeat requests and replies.
 */
module LogShipping {
  import opened JsText

  const LOG_CHUNK_BYTES := 64 * 1024
  const MAX_TRIES := 150
  const MAX_LOG_BYTES := 8 * 1024 * 1024
  const CUT_NOTICE := "\n[log cut at 8388608 bytes]\n"

  datatype Reply = Ok | Conflict | Unauthorized | OtherFailure

  /** Chunk n (counted from 1) is chunks[n - 1]; the first `ended` of them have had their attempts. */
  datatype Runner = Runner(
    written: string, pending: string, chunks: seq<string>, finished: bool,
    ended: nat, tries: nat, waiting: bool, superseded: bool, acked: set<nat>)

  /**
   * `reading` are handlers that read the attempt's row and have not written yet,
   * each with its chunk and the sequence number it saw; two may have seen the same.
   */
  datatype Panel = Panel(logSeq: nat, stored: string, running: bool, leased: bool, reading: multiset<(nat, nat)>)

  /** Requests on their way, and answers on their way back, by chunk number. */
  datatype Net = Net(requests: set<nat>, replies: set<(nat, Reply)>)

  /** `posted`: the chunk numbers in the order they were posted. */
  datatype State = State(runner: Runner, panel: Panel, net: Net, posted: seq<nat>)

  const STARTED := State(
    Runner("", "", [], false, 0, 0, false, false, {}),
    Panel(0, "", true, true, multiset{}), Net({}, {}), [])

  // ---------------------------------------------------------------------
  // The runner
  // ---------------------------------------------------------------------

  function Shipped(r: Runner): Runner {
    r.(chunks := r.chunks + [r.pending], pending := "")
  }

  function Wrote(r: Runner, text: string): Runner {
    var t := r.(written := r.written + text, pending := r.pending + text);
    if |t.pending| >= LOG_CHUNK_BYTES then Shipped(t) else t
  }

  function Flushed(r: Runner): Runner {
    if r.pending != "" then Shipped(r) else r
  }

  /** The attempts of the current chunk are over. */
  function Moved(r: Runner): Runner {
    r.(ended := r.ended + 1, tries := 0, waiting := false)
  }

  function Answered(r: Runner, reply: Reply): Runner {
    match reply
    case Ok => Moved(r).(acked := r.acked + {r.ended + 1})
    case Conflict => Moved(r)
    case Unauthorized => Moved(r).(superseded := true)
    case OtherFailure => r.(waiting := false)
  }

  // ---------------------------------------------------------------------
  // The panel: appendLog
  // ---------------------------------------------------------------------

  function Appended(stored: string, data: string): string {
    if |stored| >= MAX_LOG_BYTES then stored
    else if |data| > MAX_LOG_BYTES - |stored| then stored + data[..MAX_LOG_BYTES - |stored|] + CUT_NOTICE
    else stored + data
  }

  /** The handler's first half, or its refusal. */
  function Admits(p: Panel, n: nat): (Panel, set<(nat, Reply)>) {
    if !p.leased then (p, {(n, Unauthorized)})
    else if !p.running then (p, {(n, Conflict)})
    else if n <= p.logSeq then (p, {(n, Ok)})
    else if n != p.logSeq + 1 then (p, {(n, Conflict)})
    else (p.(reading := p.reading + multiset{(n, p.logSeq)}), {})
  }

  /** Its second half: the row is updated if nobody else did, and the chunk appended. */
  function Commits(p: Panel, n: nat, seen: nat, data: string): (Panel, Reply) {
    var q := p.(reading := p.reading - multiset{(n, seen)});
    if p.running && p.logSeq == seen then (q.(logSeq := n, stored := Appended(p.stored, data)), Ok) else (q, Conflict)
  }

  // ---------------------------------------------------------------------
  // Steps
  // ---------------------------------------------------------------------

  datatype Event =
    | Write(text: string) | FlushTimer | Finish
    | Post | GiveUp | Receive(reply: Reply) | NoAnswer
    | LoseRequest(n: nat) | Deliver(n: nat) | Commit(n: nat, seen: nat) | Fail(n: nat) | Crash(n: nat, seen: nat)
    | AttemptOver | LeaseGone

  function Step(s: State, e: Event): State {
    var r, p, net := s.runner, s.panel, s.net;
    match e
    case Write(text) => if r.finished then s else s.(runner := Wrote(r, text))
    case FlushTimer => if r.finished then s else s.(runner := Flushed(r))
    case Finish => if r.finished then s else s.(runner := Flushed(r).(finished := true))
    case Post =>
      if r.ended < |r.chunks| && !r.waiting && r.tries < MAX_TRIES && !r.superseded
      then s.(runner := r.(tries := r.tries + 1, waiting := true),
              net := net.(requests := net.requests + {r.ended + 1}), posted := s.posted + [r.ended + 1])
      else s
    case GiveUp =>
      if r.ended < |r.chunks| && !r.waiting && (r.tries >= MAX_TRIES || r.superseded) then s.(runner := Moved(r)) else s
    case Receive(reply) =>
      if r.waiting && (r.ended + 1, reply) in net.replies then s.(runner := Answered(r, reply)) else s
    case NoAnswer => if r.waiting then s.(runner := r.(waiting := false)) else s
    case LoseRequest(n) => s.(net := net.(requests := net.requests - {n}))
    case Deliver(n) =>
      if n in net.requests
      then s.(panel := Admits(p, n).0, net := net.(replies := net.replies + Admits(p, n).1))
      else s
    case Commit(n, seen) =>
      if (n, seen) in p.reading && 1 <= n <= |r.chunks|
      then var (q, reply) := Commits(p, n, seen, r.chunks[n - 1]);
           s.(panel := q, net := net.(replies := net.replies + {(n, reply)}))
      else s
    case Fail(n) => if n in net.requests then s.(net := net.(replies := net.replies + {(n, OtherFailure)})) else s
    case Crash(n, seen) => s.(panel := p.(reading := p.reading - multiset{(n, seen)}))
    case AttemptOver => s.(panel := p.(running := false))
    case LeaseGone => s.(panel := p.(leased := false))
  }

  function Run(events: seq<Event>): State {
    if events == [] then STARTED else Step(Run(events[..|events| - 1]), events[|events| - 1])
  }

  // ---------------------------------------------------------------------
  // What every step keeps
  // ---------------------------------------------------------------------

  /** The log of the first `k` chunks: each once, in order, up to the size limit. */
  function LogOf(chunks: seq<string>, k: nat): string
    requires k <= |chunks|
  {
    if k == 0 then "" else Appended(LogOf(chunks, k - 1), chunks[k - 1])
  }

  /** The chunks are what was written, cut somewhere; numbers are used up one after the other. */
  ghost predicate RunnerOk(r: Runner) {
    && Concat(r.chunks) + r.pending == r.written
    && r.ended <= |r.chunks| && (r.ended == |r.chunks| ==> r.tries == 0 && !r.waiting)
    && r.tries <= MAX_TRIES && (r.waiting ==> r.tries > 0)
    && (r.finished ==> r.pending == "")
    && (forall i :: 0 <= i < |r.chunks| ==> r.chunks[i] != "")
    && forall n :: n in r.acked ==> 1 <= n <= r.ended
  }

  /** The highest chunk number that may have been posted. */
  function Frontier(r: Runner): nat {
    if r.tries > 0 then r.ended + 1 else r.ended
  }

  ghost predicate WireOk(net: Net, reading: multiset<(nat, nat)>, logSeq: nat, r: Runner) {
    && (forall n :: n in net.requests ==> 1 <= n <= Frontier(r))
    && (forall x :: x in reading ==> x.0 == x.1 + 1 && x.1 <= logSeq && x.0 <= Frontier(r))
    && (forall x :: x in net.replies && x.1 == Ok ==> x.0 <= logSeq)
    && (forall n :: n in r.acked ==> n <= logSeq)
  }

  ghost predicate StoredOk(logSeq: nat, stored: string, r: Runner) {
    && logSeq <= Frontier(r)
    && logSeq <= |r.chunks|
    && stored == LogOf(r.chunks, logSeq)
  }

  /** Posts go up one chunk at a time, and each chunk is posted a bounded number of times. */
  ghost predicate PostsOk(posted: seq<nat>, r: Runner) {
    && (forall i :: 0 <= i < |posted| ==> 1 <= posted[i] <= Frontier(r))
    && (forall i, j :: 0 <= i < j < |posted| ==> posted[i] <= posted[j])
    && Times(posted, r.ended + 1) == r.tries
    && forall n :: 1 <= n <= r.ended ==> Times(posted, n) <= MAX_TRIES
  }

  function Times(posted: seq<nat>, n: nat): nat {
    if posted == [] then 0
    else Times(posted[..|posted| - 1], n) + if posted[|posted| - 1] == n then 1 else 0
  }

  lemma {:induction false} NotYetPosted(posted: seq<nat>, n: nat)
    requires forall i :: 0 <= i < |posted| ==> posted[i] < n
    ensures Times(posted, n) == 0
  {
    if posted != [] {
      NotYetPosted(posted[..|posted| - 1], n);
    }
  }

  lemma {:induction false} PostedOnceMore(posted: seq<nat>, m: nat)
    ensures forall n :: Times(posted + [m], n) == Times(posted, n) + if n == m then 1 else 0
  {
    assert (posted + [m])[..|posted|] == posted;
  }

  ghost predicate Inv(s: State) {
    && RunnerOk(s.runner)
    && WireOk(s.net, s.panel.reading, s.panel.logSeq, s.runner)
    && StoredOk(s.panel.logSeq, s.panel.stored, s.runner)
    && PostsOk(s.posted, s.runner)
  }

  lemma {:induction false} LogLooksNoFurther(chunks: seq<string>, more: string, k: nat)
    requires k <= |chunks|
    ensures LogOf(chunks + [more], k) == LogOf(chunks, k)
  {
    if k > 0 {
      LogLooksNoFurther(chunks, more, k - 1);
    }
  }

  lemma {:induction false} ShipKeeps(s: State, r: Runner)
    requires Inv(s.(runner := r)) && !r.finished && r.pending != ""
    ensures Inv(s.(runner := Shipped(r)))
  {
    LogLooksNoFurther(r.chunks, r.pending, s.panel.logSeq);
    assert (r.chunks + [r.pending])[..|r.chunks|] == r.chunks;
  }

  lemma {:induction false} WriteKeeps(s: State, text: string)
    requires Inv(s) && !s.runner.finished
    ensures Inv(s.(runner := Wrote(s.runner, text)))
  {
    var r := s.runner;
    var t := r.(written := r.written + text, pending := r.pending + text);
    assert Concat(r.chunks) + (r.pending + text) == (Concat(r.chunks) + r.pending) + text;
    assert Inv(s.(runner := t));
    if |t.pending| >= LOG_CHUNK_BYTES {
      ShipKeeps(s, t);
    }
  }

  lemma {:induction false} FlushKeeps(s: State)
    requires Inv(s) && !s.runner.finished
    ensures Inv(s.(runner := Flushed(s.runner)))
    ensures Inv(s.(runner := Flushed(s.runner).(finished := true)))
  {
    if s.runner.pending != "" {
      ShipKeeps(s, s.runner);
    }
  }

  /** A chunk whose attempts are over makes room for the next, which was never posted. */
  lemma {:induction false} MoveKeeps(s: State, r: Runner)
    requires Inv(s.(runner := r)) && r.ended < |r.chunks|
    ensures Inv(s.(runner := Moved(r)))
  {
    NotYetPosted(s.posted, r.ended + 2);
  }

  lemma {:induction false} AnswerKeeps(s: State, reply: Reply)
    requires Inv(s) && s.runner.waiting && (s.runner.ended + 1, reply) in s.net.replies
    ensures Inv(s.(runner := Answered(s.runner, reply)))
  {
    if !reply.OtherFailure? {
      MoveKeeps(s, s.runner);
    }
  }

  lemma {:induction false} PostKeeps(s: State)
    requires Inv(s)
    ensures Inv(Step(s, Post))
  {
    PostedOnceMore(s.posted, s.runner.ended + 1);
  }

  lemma {:induction false} WriteStepKeeps(s: State, text: string)
    requires Inv(s)
    ensures Inv(Step(s, Write(text)))
  {
    if !s.runner.finished {
      WriteKeeps(s, text);
    }
  }

  lemma {:induction false} FlushStepKeeps(s: State)
    requires Inv(s)
    ensures Inv(Step(s, FlushTimer)) && Inv(Step(s, Finish))
  {
    if !s.runner.finished {
      FlushKeeps(s);
    }
  }

  lemma {:induction false} GiveUpKeeps(s: State)
    requires Inv(s)
    ensures Inv(Step(s, GiveUp))
  {
    if s.runner.ended < |s.runner.chunks| {
      MoveKeeps(s, s.runner);
    }
  }

  lemma {:induction false} ReceiveKeeps(s: State, reply: Reply)
    requires Inv(s)
    ensures Inv(Step(s, Receive(reply)))
  {
    if s.runner.waiting && (s.runner.ended + 1, reply) in s.net.replies {
      AnswerKeeps(s, reply);
    }
  }

  lemma {:induction false} NoAnswerKeeps(s: State)
    requires Inv(s)
    ensures Inv(Step(s, NoAnswer))
  {
  }

  lemma {:induction false} DeliverKeeps(s: State, n: nat)
    requires Inv(s) && n in s.net.requests
    ensures Inv(Step(s, Deliver(n)))
  {
  }

  lemma {:induction false} CommitKeepsWire(s: State, n: nat, seen: nat)
    requires Inv(s) && (n, seen) in s.panel.reading && 1 <= n <= |s.runner.chunks|
    ensures var t := Step(s, Commit(n, seen)); WireOk(t.net, t.panel.reading, t.panel.logSeq, t.runner)
  {
    assert n == seen + 1 && seen <= s.panel.logSeq;
    forall x | x in s.panel.reading - multiset{(n, seen)} ensures x in s.panel.reading {
    }
  }

  lemma {:induction false} CommitKeepsStored(s: State, n: nat, seen: nat)
    requires Inv(s) && (n, seen) in s.panel.reading && 1 <= n <= |s.runner.chunks|
    ensures var t := Step(s, Commit(n, seen)); StoredOk(t.panel.logSeq, t.panel.stored, t.runner)
  {
    assert n == seen + 1 && n <= Frontier(s.runner);
  }

  lemma {:induction false} CommitKeeps(s: State, n: nat, seen: nat)
    requires Inv(s)
    ensures Inv(Step(s, Commit(n, seen)))
  {
    if (n, seen) in s.panel.reading && 1 <= n <= |s.runner.chunks| {
      CommitKeepsWire(s, n, seen);
      CommitKeepsStored(s, n, seen);
    }
  }

  lemma {:induction false} CrashKeeps(s: State, n: nat, seen: nat)
    requires Inv(s)
    ensures Inv(Step(s, Crash(n, seen)))
  {
    forall x | x in s.panel.reading - multiset{(n, seen)} ensures x in s.panel.reading {
    }
  }

  lemma {:induction false} NetworkKeeps(s: State, e: Event)
    requires Inv(s) && (e.LoseRequest? || e.Fail?)
    ensures Inv(Step(s, e))
  {
  }

  lemma {:induction false} PanelEndKeeps(s: State, e: Event)
    requires Inv(s) && (e.AttemptOver? || e.LeaseGone?)
    ensures Inv(Step(s, e))
  {
  }

  lemma {:induction false} StepKeeps(s: State, e: Event)
    requires Inv(s)
    ensures Inv(Step(s, e))
  {
    match e {
      case Write(text) => WriteStepKeeps(s, text);
      case FlushTimer => FlushStepKeeps(s);
      case Finish => FlushStepKeeps(s);
      case Post => PostKeeps(s);
      case GiveUp => GiveUpKeeps(s);
      case Receive(reply) => ReceiveKeeps(s, reply);
      case NoAnswer => NoAnswerKeeps(s);
      case Deliver(n) => if n in s.net.requests { DeliverKeeps(s, n); }
      case Commit(n, seen) => CommitKeeps(s, n, seen);
      case Crash(n, seen) => CrashKeeps(s, n, seen);
      case LoseRequest(_) => NetworkKeeps(s, e);
      case Fail(_) => NetworkKeeps(s, e);
      case AttemptOver => PanelEndKeeps(s, e);
      case LeaseGone => PanelEndKeeps(s, e);
    }
  }

  lemma {:induction false} RunKeeps(events: seq<Event>)
    ensures Inv(Run(events))
  {
    if events != [] {
      RunKeeps(events[..|events| - 1]);
      StepKeeps(Run(events[..|events| - 1]), events[|events| - 1]);
    }
  }

  // ---------------------------------------------------------------------
  // Every run
  // ---------------------------------------------------------------------

  lemma {:induction false} ConcatPrefix(chunks: seq<string>, k: nat)
    requires k <= |chunks|
    ensures Concat(chunks[..k]) <= Concat(chunks)
    ensures k < |chunks| && chunks[|chunks| - 1] != "" ==> |Concat(chunks[..k])| < |Concat(chunks)|
  {
    if k < |chunks| {
      var front := chunks[..|chunks| - 1];
      assert front[..k] == chunks[..k];
      ConcatPrefix(front, k);
    } else {
      assert chunks[..k] == chunks;
    }
  }

  /** Within the size limit the log is the chunks themselves. */
  lemma {:induction false} LogIsChunks(chunks: seq<string>, k: nat)
    requires k <= |chunks| && |Concat(chunks[..k])| <= MAX_LOG_BYTES
    ensures LogOf(chunks, k) == Concat(chunks[..k])
  {
    if k > 0 {
      assert chunks[..k][..k - 1] == chunks[..k - 1];
      LogIsChunks(chunks, k - 1);
    } else {
      assert chunks[..k] == [];
    }
  }

  /** One of the first k chunks ended exactly at the size limit. */
  ghost predicate EndsAtLimit(chunks: seq<string>, k: nat)
    requires k <= |chunks|
  {
    exists j :: 0 <= j <= k && |Concat(chunks[..j])| == MAX_LOG_BYTES
  }

  /** The text of some chunks, cut at the size limit; the cut is noted unless a chunk ended right there. */
  ghost function CutText(chunks: seq<string>, k: nat): string
    requires k <= |chunks|
  {
    var text := Concat(chunks[..k]);
    if |text| <= MAX_LOG_BYTES then text
    else text[..MAX_LOG_BYTES] + (if EndsAtLimit(chunks, k) then "" else CUT_NOTICE)
  }

  lemma {:induction false} TextGrows(chunks: seq<string>, j: nat, k: nat)
    requires j <= k <= |chunks|
    ensures Concat(chunks[..j]) <= Concat(chunks[..k])
  {
    assert chunks[..k][..j] == chunks[..j];
    ConcatPrefix(chunks[..k], j);
  }

  lemma {:induction false} LimitPassedOnce(chunks: seq<string>, k: nat)
    requires 0 < k <= |chunks| && |Concat(chunks[..k])| > MAX_LOG_BYTES
    ensures |Concat(chunks[..k - 1])| < MAX_LOG_BYTES ==> !EndsAtLimit(chunks, k)
    ensures |Concat(chunks[..k - 1])| == MAX_LOG_BYTES ==> EndsAtLimit(chunks, k)
    ensures |Concat(chunks[..k - 1])| > MAX_LOG_BYTES ==> (EndsAtLimit(chunks, k) <==> EndsAtLimit(chunks, k - 1))
  {
    if |Concat(chunks[..k - 1])| < MAX_LOG_BYTES {
      forall j | 0 <= j <= k ensures |Concat(chunks[..j])| != MAX_LOG_BYTES {
        if j < k {
          TextGrows(chunks, j, k - 1);
        }
      }
    }
  }

  lemma {:induction false} LogIsCutText(chunks: seq<string>, k: nat)
    requires k <= |chunks|
    ensures LogOf(chunks, k) == CutText(chunks, k)
  {
    var text := Concat(chunks[..k]);
    if |text| <= MAX_LOG_BYTES {
      LogIsChunks(chunks, k);
    } else {
      assert chunks[..0] == [];
      var before := Concat(chunks[..k - 1]);
      assert chunks[..k][..k - 1] == chunks[..k - 1] && text == before + chunks[k - 1];
      LogIsCutText(chunks, k - 1);
      LimitPassedOnce(chunks, k);
      OneMoreCut(before, chunks[k - 1], EndsAtLimit(chunks, k - 1));
    }
  }

  lemma {:induction false} OneMoreCut(before: string, chunk: string, atLimit: bool)
    requires |before + chunk| > MAX_LOG_BYTES
    ensures |before| < MAX_LOG_BYTES ==>
      Appended(before, chunk) == (before + chunk)[..MAX_LOG_BYTES] + CUT_NOTICE
    ensures |before| == MAX_LOG_BYTES ==> Appended(before, chunk) == (before + chunk)[..MAX_LOG_BYTES] + ""
    ensures |before| > MAX_LOG_BYTES ==>
      var stored := before[..MAX_LOG_BYTES] + (if atLimit then "" else CUT_NOTICE);
      Appended(stored, chunk) == (before + chunk)[..MAX_LOG_BYTES] + (if atLimit then "" else CUT_NOTICE)
  {
    if |before| < MAX_LOG_BYTES {
      var room := MAX_LOG_BYTES - |before|;
      assert (before + chunk)[..MAX_LOG_BYTES] == before + chunk[..room];
    } else {
      assert (before + chunk)[..MAX_LOG_BYTES] == before[..MAX_LOG_BYTES];
    }
  }

  /**
   * Whatever is lost, delayed or repeated: the stored log is the text of the
   * first chunks, each once and in order, cut at the size limit.
   */
  lemma {:induction false} StoredOnceInOrder(events: seq<Event>)
    ensures var s := Run(events);
      && s.panel.logSeq <= |s.runner.chunks|
      && Concat(s.runner.chunks[..s.panel.logSeq]) <= s.runner.written
      && s.panel.stored == CutText(s.runner.chunks, s.panel.logSeq)
  {
    RunKeeps(events);
    var r, k := Run(events).runner, Run(events).panel.logSeq;
    ConcatPrefix(r.chunks, k);
    LogIsCutText(r.chunks, k);
  }

  lemma {:induction false} RunOneMore(events: seq<Event>, e: Event)
    ensures Run(events + [e]) == Step(Run(events), e)
  {
    assert (events + [e])[..|events|] == events;
  }

  /** A request that reaches the panel in time: a repeated chunk is acknowledged, a gap refused ... */
  lemma {:induction false} DeliveredIsAnswered(events: seq<Event>, n: nat)
    requires n in Run(events).net.requests && Run(events).panel.running && Run(events).panel.leased
    ensures var s, t := Run(events), Run(events + [Deliver(n)]);
      && (n <= s.panel.logSeq ==> t.panel == s.panel && (n, Ok) in t.net.replies)
      && (n > s.panel.logSeq + 1 ==> t.panel == s.panel && (n, Conflict) in t.net.replies)
  {
    RunOneMore(events, Deliver(n));
  }

  /** ... and the next one stored, if the handler gets to its end. */
  lemma {:induction false} NextIsStored(events: seq<Event>, n: nat)
    requires n in Run(events).net.requests && Run(events).panel.running && Run(events).panel.leased
    requires n == Run(events).panel.logSeq + 1
    ensures var t := Run(events + [Deliver(n)] + [Commit(n, n - 1)]); t.panel.logSeq == n && (n, Ok) in t.net.replies
  {
    RequestsHaveChunks(events, n);
    RunOneMore(events, Deliver(n));
    RunOneMore(events + [Deliver(n)], Commit(n, n - 1));
    StepStoresNext(Run(events), n);
  }

  lemma {:induction false} RequestsHaveChunks(events: seq<Event>, n: nat)
    requires n in Run(events).net.requests
    ensures 1 <= n <= |Run(events).runner.chunks|
  {
    RunKeeps(events);
  }

  lemma {:induction false} StepStoresNext(s: State, n: nat)
    requires n in s.net.requests && s.panel.running && s.panel.leased
    requires 1 <= n <= |s.runner.chunks| && n == s.panel.logSeq + 1
    ensures var t := Step(Step(s, Deliver(n)), Commit(n, n - 1)); t.panel.logSeq == n && (n, Ok) in t.net.replies
  {
  }

  /** Without the lease every request is answered that the runner was superseded ... */
  lemma {:induction false} DeliveredWithoutLease(events: seq<Event>, n: nat)
    requires n in Run(events).net.requests && !Run(events).panel.leased
    ensures (n, Unauthorized) in Run(events + [Deliver(n)]).net.replies
    ensures Run(events + [Deliver(n)]).panel == Run(events).panel
  {
    RunOneMore(events, Deliver(n));
  }

  lemma {:induction false} StepIsSilent(s: State, e: Event)
    requires s.runner.superseded
    ensures Step(s, e).runner.superseded && Step(s, e).posted == s.posted
  {
  }

  /** ... and a runner that was told so posts nothing more. */
  lemma {:induction false} SupersededIsSilent(events: seq<Event>, i: nat, s: State)
    requires i <= |events| && s == Run(events[..i]) && s.runner.superseded
    ensures Run(events).runner.superseded && Run(events).posted == s.posted
    decreases |events|
  {
    if i < |events| {
      var front := events[..|events| - 1];
      assert front[..i] == events[..i];
      SupersededIsSilent(front, i, s);
      StepIsSilent(Run(front), events[|events| - 1]);
    } else {
      assert events[..i] == events;
    }
  }

  /** May the runner stop waiting, move on, or post chunk `n` again? */
  ghost predicate GoesOn(s: State, n: nat, over: bool) {
    && (s.runner.waiting ==> !Step(s, NoAnswer).runner.waiting)
    && (!s.runner.waiting && over ==> Step(s, GiveUp).runner.ended == n && Step(s, Post) == s)
    && (!s.runner.waiting && !over ==>
          n in Step(s, Post).net.requests && Step(s, Post).posted == s.posted + [n] && Step(s, GiveUp) == s)
  }

  lemma {:induction false} RunnerMoves(s: State)
    requires s.runner.ended < |s.runner.chunks|
    ensures GoesOn(s, s.runner.ended + 1, s.runner.superseded || s.runner.tries >= MAX_TRIES)
  {
  }

  lemma {:induction false} TriesAreCounted(s: State, tries: nat)
    requires Inv(s) && tries == Times(s.posted, s.runner.ended + 1)
    ensures tries == s.runner.tries <= MAX_TRIES
  {
  }

  /** The runner is never stuck at a chunk: it may stop waiting, and then post it or move on. */
  lemma {:induction false} RunnerGoesOn(events: seq<Event>, s: State, n: nat, tries: nat)
    requires s == Run(events) && n == s.runner.ended + 1 && n <= |s.runner.chunks| && tries == Times(s.posted, n)
    ensures GoesOn(s, n, s.runner.superseded || tries == MAX_TRIES)
  {
    RunKeeps(events);
    TriesAreCounted(s, tries);
    RunnerMoves(s);
  }

  /** An answer ends the attempts of the chunk, unless it is a failure that may pass. */
  lemma {:induction false} AnswerEndsAttempts(events: seq<Event>, reply: Reply)
    requires var s := Run(events); s.runner.waiting && (s.runner.ended + 1, reply) in s.net.replies
    ensures var s, t := Run(events), Run(events + [Receive(reply)]);
      && t.runner.ended == (if reply == OtherFailure then s.runner.ended else s.runner.ended + 1)
      && t.runner.acked == (if reply == Ok then s.runner.acked + {s.runner.ended + 1} else s.runner.acked)
      && !t.runner.waiting && t.runner.superseded == (s.runner.superseded || reply == Unauthorized)
  {
    RunOneMore(events, Receive(reply));
  }

  /** What is written is shipped once there is enough of it, and all of it at a flush or at the end. */
  lemma {:induction false} WrittenIsShipped(events: seq<Event>, text: string)
    ensures |Run(events).runner.pending| < LOG_CHUNK_BYTES
    ensures !Run(events).runner.finished ==>
      var r := Run(events).runner;
      && (|Run(events + [Write(text)]).runner.chunks| > |r.chunks| <==> |r.pending + text| >= LOG_CHUNK_BYTES)
      && Concat(Run(events + [FlushTimer]).runner.chunks) == Concat(Run(events + [Finish]).runner.chunks) == r.written
  {
    RunOneMore(events, Write(text));
    RunOneMore(events, FlushTimer);
    RunOneMore(events, Finish);
    RunKeeps(events);
    BufferIsSmall(events);
    ShippedText(Run(events).runner);
  }

  lemma {:induction false} ShippedText(r: Runner)
    ensures Concat(Shipped(r).chunks) == Concat(r.chunks) + r.pending
    ensures r.pending == "" ==> Concat(r.chunks) == Concat(r.chunks) + r.pending
  {
    assert (r.chunks + [r.pending])[..|r.chunks|] == r.chunks;
  }

  lemma {:induction false} BufferIsSmall(events: seq<Event>)
    ensures |Run(events).runner.pending| < LOG_CHUNK_BYTES
  {
    if events != [] {
      BufferIsSmall(events[..|events| - 1]);
    }
  }

  lemma {:induction false} PostBounds(s: State, i: nat)
    requires RunnerOk(s.runner) && PostsOk(s.posted, s.runner) && i < |s.posted|
    ensures 1 <= s.posted[i] <= s.runner.ended + 1 && Times(s.posted, s.posted[i]) <= MAX_TRIES
  {
    assert s.posted[i] == s.runner.ended + 1 || s.posted[i] <= s.runner.ended;
  }

  /** Chunk n + 1 is never posted before chunk n's attempts have ended, and no chunk is posted more than 150 times. */
  lemma {:induction false} PostedInOrder(events: seq<Event>, i: nat)
    requires i < |Run(events).posted|
    ensures var s := Run(events);
      && 1 <= s.posted[i] <= s.runner.ended + 1
      && Times(s.posted, s.posted[i]) <= MAX_TRIES
      && forall j :: i < j < |s.posted| ==> s.posted[i] <= s.posted[j]
  {
    RunKeeps(events);
    PostBounds(Run(events), i);
  }

  /** An acknowledged chunk is stored with all before it; a finished log whose last chunk was is complete. */
  lemma {:induction false} AcknowledgedIsStored(events: seq<Event>, n: nat)
    requires n in Run(events).runner.acked
    ensures var s := Run(events);
      && n <= s.panel.logSeq
      && (s.runner.finished && n == |s.runner.chunks| && |s.runner.written| <= MAX_LOG_BYTES ==>
            s.panel.stored == s.runner.written)
  {
    RunKeeps(events);
    var r := Run(events).runner;
    if r.finished && n == |r.chunks| && |r.written| <= MAX_LOG_BYTES {
      assert r.chunks[..n] == r.chunks;
      LogIsChunks(r.chunks, n);
    }
  }

  /** The log of a finished run is everything written exactly when the panel stored its last chunk. */
  lemma {:induction false} CompleteIff(events: seq<Event>)
    requires Run(events).runner.finished && |Run(events).runner.written| <= MAX_LOG_BYTES
    ensures var s := Run(events); s.panel.stored == s.runner.written <==> s.panel.logSeq == |s.runner.chunks|
  {
    RunKeeps(events);
    var r, k := Run(events).runner, Run(events).panel.logSeq;
    assert r.chunks[..|r.chunks|] == r.chunks;
    ConcatPrefix(r.chunks, k);
    LogIsChunks(r.chunks, k);
  }

  // ---------------------------------------------------------------------
  // The runner's buffer in place
  // ---------------------------------------------------------------------

  lemma {:induction false} TextShipped(shipping: seq<string>, pending: string)
    ensures Concat(shipping + [pending]) + "" == Concat(shipping) + pending
  {
    assert (shipping + [pending])[..|shipping|] == shipping;
  }

  class Shipper {
    var pending: string
    /** The chunks handed to the shipping chain; chunk n is the n-th. */
    var shipping: seq<string>
    ghost var written: string

    /** The runner's buffer, with nothing posted yet. */
    ghost function Abstract(): Runner
      reads this
    {
      STARTED.runner.(written := written, pending := pending, chunks := shipping)
    }

    /** Nothing written is dropped or reordered, and no chunk is empty. */
    ghost predicate Valid()
      reads this
    {
      Concat(shipping) + pending == written && forall i :: 0 <= i < |shipping| ==> shipping[i] != ""
    }

    constructor ()
      ensures Valid() && Abstract() == STARTED.runner
    {
      pending, shipping, written := "", [], "";
    }

    method Ship()
      requires Valid() && pending != ""
      modifies this`pending, this`shipping
      ensures Valid() && Abstract() == Shipped(old(Abstract()))
    {
      TextShipped(shipping, pending);
      shipping, pending := shipping + [pending], "";
    }

    method Write(text: string)
      requires Valid()
      modifies this
      ensures Valid() && Abstract() == Wrote(old(Abstract()), text) && |pending| < LOG_CHUNK_BYTES
    {
      assert Concat(shipping) + (pending + text) == written + text;
      pending := pending + text;
      written := written + text;
      if |pending| >= LOG_CHUNK_BYTES {
        Ship();
      }
    }

    method Flush()
      requires Valid()
      modifies this`pending, this`shipping
      ensures Valid() && Abstract() == Flushed(old(Abstract()))
      ensures pending == "" && Concat(shipping) == written
    {
      if pending != "" {
        Ship();
      }
    }
  }
}
