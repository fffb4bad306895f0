/**
 * The queue of managed transactions: every call chains its transaction behind
 * the tail promise and makes its own settling, either way, the new tail.
 */
module TransactionQueue {

  datatype Promise<+T> = Unsettled | Fulfilled(value: T) | Rejected(error: string)

  /** What the database connection sees. */
  datatype Act<+T> = Begin(call: nat) | End(call: nat, outcome: Promise<T>)

  /**
   * `runs[i]` is what call i returned, `begun[i]` whether its callback was
   * started, and `tails[i]` whether the tail promise it was chained behind is
   * fulfilled; the last tail is the one the next call will find.
   */
  datatype State<+T> = State(runs: seq<Promise<T>>, begun: seq<bool>, tails: seq<bool>, log: seq<Act<T>>)

  /** `Promise.resolve()` is the first tail. */
  function Start<T>(): State<T> {
    State([], [], [true], [])
  }

  // ---------------------------------------------------------------------
  // Steps: calls, microtasks, and the database's answers, in any order
  // ---------------------------------------------------------------------

  datatype Event<+T> =
    | Call                              // db.transaction(callback)
    | TailFulfils(call: nat)            // run.then(() => undefined, () => undefined)
    | Starts(call: nat)                 // transactionTail.then(() => transact(callback))
    | Settles(call: nat, outcome: Promise<T>)

  predicate Enabled<T>(s: State<T>, e: Event<T>) {
    && |s.begun| == |s.runs| && |s.tails| == |s.runs| + 1
    && match e
       case Call => true
       case TailFulfils(i) => i < |s.runs| && !s.runs[i].Unsettled? && !s.tails[i + 1]
       case Starts(i) => i < |s.runs| && s.tails[i] && !s.begun[i]
       case Settles(i, outcome) => i < |s.runs| && s.begun[i] && s.runs[i].Unsettled? && !outcome.Unsettled?
  }

  function Step<T>(s: State<T>, e: Event<T>): State<T>
    requires Enabled(s, e)
  {
    match e
    case Call => s.(runs := s.runs + [Unsettled], begun := s.begun + [false], tails := s.tails + [false])
    case TailFulfils(i) => s.(tails := s.tails[i + 1 := true])
    case Starts(i) => s.(begun := s.begun[i := true], log := s.log + [Begin(i)])
    case Settles(i, outcome) => s.(runs := s.runs[i := outcome], log := s.log + [End(i, outcome)])
  }

  /** Events that are not enabled when they come up do not happen. */
  function Run<T>(events: seq<Event<T>>): State<T> {
    if events == [] then Start()
    else
      var s := Run(events[..|events| - 1]);
      var e := events[|events| - 1];
      if Enabled(s, e) then Step(s, e) else s
  }

  // ---------------------------------------------------------------------
  // What every step keeps
  // ---------------------------------------------------------------------

  /** The k-th act of a connection that serves the calls one after the other. */
  function SerialAct<T>(runs: seq<Promise<T>>, k: nat): Act<T>
    requires k < 2 * |runs|
  {
    if k % 2 == 0 then Begin(k / 2) else End(k / 2, runs[k / 2])
  }

  /** Begin 0, End 0, Begin 1, End 1, ...: never two at a time, in call order, each with its own outcome. */
  ghost predicate Serial<T>(s: State<T>) {
    && |s.log| <= 2 * |s.runs|
    && forall k :: 0 <= k < |s.log| ==> s.log[k] == SerialAct(s.runs, k)
  }

  ghost predicate Inv<T>(s: State<T>) {
    && |s.begun| == |s.runs| && |s.tails| == |s.runs| + 1 && s.tails[0]
    && Serial(s)
    && (forall i :: 0 <= i < |s.runs| ==> (!s.runs[i].Unsettled? <==> 2 * i + 1 < |s.log|))
    && (forall i :: 0 <= i < |s.runs| ==> (s.begun[i] <==> 2 * i < |s.log|))
    && (forall i :: 0 <= i < |s.runs| && s.tails[i + 1] ==> !s.runs[i].Unsettled?)
  }

  lemma {:induction false} StartsInOrder<T>(s: State<T>, i: nat)
    requires Inv(s) && Enabled(s, Starts(i))
    ensures |s.log| == 2 * i
  {
    assert !(2 * i < |s.log|);
    if i > 0 {
      assert s.tails[i - 1 + 1];
      assert !s.runs[i - 1].Unsettled?;
    }
  }

  lemma {:induction false} SettlesInOrder<T>(s: State<T>, i: nat, outcome: Promise<T>)
    requires Inv(s) && Enabled(s, Settles(i, outcome))
    ensures |s.log| == 2 * i + 1
  {
    assert 2 * i < |s.log| && !(2 * i + 1 < |s.log|);
  }

  lemma {:induction false} CallKeeps<T>(s: State<T>)
    requires Inv(s) && Enabled(s, Call)
    ensures Inv(Step(s, Call))
  {
  }

  lemma {:induction false} TailKeeps<T>(s: State<T>, i: nat)
    requires Inv(s) && Enabled(s, TailFulfils(i))
    ensures Inv(Step(s, TailFulfils(i)))
  {
  }

  lemma {:induction false} StartKeeps<T>(s: State<T>, i: nat)
    requires Inv(s) && Enabled(s, Starts(i))
    ensures Inv(Step(s, Starts(i)))
  {
    StartsInOrder(s, i);
  }

  lemma {:induction false} SettleKeeps<T>(s: State<T>, i: nat, outcome: Promise<T>)
    requires Inv(s) && Enabled(s, Settles(i, outcome))
    ensures Inv(Step(s, Settles(i, outcome)))
  {
    SettlesInOrder(s, i, outcome);
  }

  lemma {:induction false} StepKeeps<T>(s: State<T>, e: Event<T>)
    requires Inv(s) && Enabled(s, e)
    ensures Inv(Step(s, e))
  {
    match e
    case Call => CallKeeps(s);
    case TailFulfils(i) => TailKeeps(s, i);
    case Starts(i) => StartKeeps(s, i);
    case Settles(i, outcome) => SettleKeeps(s, i, outcome);
  }

  lemma {:induction false} RunKeeps<T>(events: seq<Event<T>>)
    ensures Inv(Run(events))
  {
    if events != [] {
      var s := Run(events[..|events| - 1]);
      RunKeeps(events[..|events| - 1]);
      if Enabled(s, events[|events| - 1]) {
        StepKeeps(s, events[|events| - 1]);
      }
    }
  }

  // ---------------------------------------------------------------------
  // Every interleaving
  // ---------------------------------------------------------------------

  /** The connection serves one transaction after the other, in call order, and each caller gets its own outcome. */
  lemma {:induction false} OneAtATime<T>(events: seq<Event<T>>, k: nat)
    requires k < |Run(events).log|
    ensures var s := Run(events);
      k / 2 < |s.runs| && s.log[k] == if k % 2 == 0 then Begin(k / 2) else End(k / 2, s.runs[k / 2])
    ensures k % 2 == 1 ==> !Run(events).runs[k / 2].Unsettled?
  {
    RunKeeps(events);
    var s := Run(events);
    assert s.log[k] == SerialAct(s.runs, k);
    if k % 2 == 1 {
      assert 2 * (k / 2) + 1 == k;
    }
  }

  /** At most one call is between its begin and its settling. */
  lemma {:induction false} AtMostOneActive<T>(events: seq<Event<T>>, i: nat, j: nat)
    requires var s := Run(events);
      && i < |s.runs| == |s.begun| && s.begun[i] && s.runs[i].Unsettled?
      && j < |s.runs| == |s.begun| && s.begun[j] && s.runs[j].Unsettled?
    ensures i == j
  {
    RunKeeps(events);
  }

  /** The first call without an outcome, and the one step that takes it further. */
  function NextStep<T>(s: State<T>, i: nat): Event<T>
    requires i < |s.runs| == |s.begun| && |s.tails| == |s.runs| + 1
  {
    if s.begun[i] then Settles(i, Rejected(""))
    else if s.tails[i] then Starts(i)
    else if i > 0 then TailFulfils(i - 1)
    else Call
  }

  /**
   * A rejection blocks or skips nobody: whatever the outcomes before it, the
   * first unsettled call is running in the database, or about to start.
   */
  lemma {:induction false} NobodyIsBlocked<T>(events: seq<Event<T>>, i: nat)
    requires i < |Run(events).runs| && Run(events).runs[i].Unsettled?
    requires forall j :: 0 <= j < i ==> !Run(events).runs[j].Unsettled?
    ensures |Run(events).begun| == |Run(events).runs| && |Run(events).tails| == |Run(events).runs| + 1
    ensures var s := Run(events); NextStep(s, i) != Call && Enabled(s, NextStep(s, i))
  {
    RunKeeps(events);
  }

  lemma {:induction false} RunOneMore<T>(events: seq<Event<T>>, e: Event<T>)
    requires Enabled(Run(events), e)
    ensures Run(events + [e]) == Step(Run(events), e)
  {
    assert (events + [e])[..|events|] == events;
  }

  /** A call adds one run, unsettled and not begun, and touches nothing else. */
  lemma {:induction false} CallIsQueued<T>(events: seq<Event<T>>)
    ensures var s, t := Run(events), Run(events + [Call]);
      && t.runs == s.runs + [Unsettled] && t.begun == s.begun + [false] && t.log == s.log
      && |s.begun| == |s.runs|
  {
    RunKeeps(events);
    RunOneMore(events, Call);
  }

  /** Once those before it have settled, a call begins, after at most the tail's own settling. */
  lemma {:induction false} BeginsInTurn<T>(events: seq<Event<T>>, i: nat) returns (more: seq<Event<T>>)
    requires i < |Run(events).runs| && Run(events).runs[i].Unsettled?
    requires forall j :: 0 <= j < i ==> !Run(events).runs[j].Unsettled?
    ensures events <= more && |more| <= |events| + 2
    ensures Run(more).runs == Run(events).runs
    ensures Begin(i) in Run(events).log || Run(more).log == Run(events).log + [Begin(i)]
    ensures |Run(more).begun| == |Run(more).runs| && Run(more).begun[i]
  {
    RunKeeps(events);
    var s := Run(events);
    more := events;
    if s.begun[i] {
      assert s.log[2 * i] == SerialAct(s.runs, 2 * i);
    } else {
      if !s.tails[i] {
        RunOneMore(more, TailFulfils(i - 1));
        more := more + [TailFulfils(i - 1)];
      }
      RunOneMore(more, Starts(i));
      more := more + [Starts(i)];
    }
  }

  /** A begun call ends with whatever its transaction comes to. */
  lemma {:induction false} EndsWithItsOutcome<T>(events: seq<Event<T>>, i: nat, outcome: Promise<T>)
    requires var s := Run(events); i < |s.runs| == |s.begun| && s.begun[i] && s.runs[i].Unsettled?
    requires !outcome.Unsettled?
    ensures var s, t := Run(events), Run(events + [Settles(i, outcome)]);
      t.runs == s.runs[i := outcome] && t.log == s.log + [End(i, outcome)]
  {
    RunKeeps(events);
    RunOneMore(events, Settles(i, outcome));
  }

  /**
   * No call settles before an earlier one: a callback that waits for a call
   * made after its own would wait for ever.
   */
  lemma {:induction false} SettledInCallOrder<T>(events: seq<Event<T>>, i: nat, j: nat)
    requires i < j < |Run(events).runs| && !Run(events).runs[j].Unsettled?
    ensures !Run(events).runs[i].Unsettled?
  {
    RunKeeps(events);
  }

  /** An outcome, once there, stays. */
  lemma {:induction false} OutcomesStand<T>(events: seq<Event<T>>, e: Event<T>, i: nat)
    requires i < |Run(events).runs| && !Run(events).runs[i].Unsettled?
    ensures i < |Run(events + [e]).runs| && Run(events + [e]).runs[i] == Run(events).runs[i]
  {
    assert (events + [e])[..|events|] == events;
  }

  // ---------------------------------------------------------------------
  // The wrapper in place
  // ---------------------------------------------------------------------

  /** `db` with its replaced `transaction`; promises are known by their place in `runs` and `tails`. */
  class Database<T> {
    var runs: seq<Promise<T>>
    var begun: seq<bool>
    var tails: seq<bool>
    /** `transactionTail`, as an index into `tails`. */
    var transactionTail: nat
    ghost var log: seq<Act<T>>

    ghost function Abstract(): State<T>
      reads this
    {
      State(runs, begun, tails, log)
    }

    ghost predicate Valid()
      reads this
    {
      Inv(Abstract()) && transactionTail == |runs|
    }

    constructor ()
      ensures Valid() && runs == []
    {
      runs, begun, tails, transactionTail, log := [], [], [true], 0, [];
    }

    /** Chain behind the current tail; both ways the call settles make the next tail. */
    method Transaction() returns (call: nat)
      requires Valid()
      modifies this
      ensures Valid() && call == old(|runs|) && Abstract() == Step(old(Abstract()), Call)
    {
      StepKeeps(Abstract(), Call);
      call := transactionTail;
      runs, begun, tails := runs + [Unsettled], begun + [false], tails + [false];
      transactionTail := call + 1;
    }
  }
}
