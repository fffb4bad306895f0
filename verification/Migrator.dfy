/**
 * The schema migrator: the retry loop that applies one migration and its
 * journal row all-or-nothing, and the boots built on it.
 */
module Migrator {
  import opened Optional

  /** What one SQL statement does to the schema it meets. */
  datatype Effect<+S> = Done(schema: S) | AlreadyThere | Fault

  /** The database engine: what a statement's text does to a schema. */
  type Engine<!S> = (string, S) -> Effect<S>

  datatype Row = Row(hash: string, createdAt: int)

  datatype Db<+S> = Db(schema: S, journal: seq<Row>)

  datatype Migration = Migration(sql: seq<string>, hash: string, folderMillis: int) {
    function Record(): Row {
      Row(hash, folderMillis)
    }
  }

  // ---------------------------------------------------------------------
  // The libSQL client
  // ---------------------------------------------------------------------

  /** One entry of a batch: a migration's statement or the journal insert. */
  datatype Step = Sql(statement: string) | Insert(row: Row)

  datatype Playback<+S> = Finished(db: Db<S>) | Stopped(at: nat, existing: bool)

  /** The batch played from entry `i` on, stopping at the first statement that fails. */
  function Straight<S>(engine: Engine<S>, steps: seq<Step>, i: nat, db: Db<S>): (p: Playback<S>)
    requires i <= |steps|
    ensures p.Stopped? ==> i <= p.at < |steps|
    decreases |steps| - i
  {
    if i == |steps| then Finished(db)
    else
      match steps[i]
      case Insert(row) => Straight(engine, steps, i + 1, Db(db.schema, db.journal + [row]))
      case Sql(statement) =>
        match engine(statement, db.schema)
        case Done(schema) => Straight(engine, steps, i + 1, Db(schema, db.journal))
        case AlreadyThere => Stopped(i, true)
        case Fault => Stopped(i, false)
  }

  /**
   * What happens to one call apart from its statements: nothing, a failure
   * before a given entry that rolls everything back, or a failure after COMMIT
   * that only loses the answer.
   */
  datatype Weather = Calm | BreaksBefore(step: nat) | LosesAnswer

  datatype Answer = Committed | Failed(at: Option<nat>, existing: bool)

  /** All-or-nothing, and a failing statement is named by its index. */
  function Batch<S>(engine: Engine<S>, steps: seq<Step>, db: Db<S>, weather: Weather): (r: (Db<S>, Answer))
    ensures r.0 == db || Straight(engine, steps, 0, db) == Finished(r.0)
  {
    match Straight(engine, steps, 0, db)
    case Stopped(at, existing) =>
      if weather.BreaksBefore? && weather.step <= at then (db, Failed(None, false))
      else (db, Failed(Some(at), existing))
    case Finished(done) =>
      match weather
      case Calm => (done, Committed)
      case BreaksBefore(_) => (db, Failed(None, false))
      case LosesAnswer => (done, Failed(None, false))
  }

  class Client<!S> {
    var db: Db<S>
    var calls: nat
    const engine: Engine<S>
    /** The weather of each call, by its number. */
    const weather: nat -> Weather

    constructor (db: Db<S>, engine: Engine<S>, weather: nat -> Weather)
      ensures this.db == db && this.engine == engine && this.weather == weather && calls == 0
    {
      this.db := db;
      this.engine := engine;
      this.weather := weather;
      calls := 0;
    }

    method Migrate(steps: seq<Step>) returns (answer: Answer)
      modifies this
      ensures (db, answer) == Batch(engine, steps, old(db), weather(old(calls)))
      ensures calls == old(calls) + 1
    {
      var (after, said) := Batch(engine, steps, db, weather(calls));
      db := after;
      calls := calls + 1;
      answer := said;
    }

    ghost predicate CalmFrom(call: nat) {
      forall i {:trigger weather(i)} :: call <= i ==> weather(i) == Calm
    }
  }

  // ---------------------------------------------------------------------
  // The reference: one statement after the other, skipping what exists
  // ---------------------------------------------------------------------

  datatype Replay<+S> = Replayed(schema: S, skipped: nat) | Stuck(at: nat, skipped: nat)

  function SkipReplay<S>(engine: Engine<S>, sql: seq<string>, i: nat, schema: S): (r: Replay<S>)
    requires i <= |sql|
    ensures r.Stuck? ==> i <= r.at < |sql| && r.skipped <= r.at - i
    decreases |sql| - i
  {
    if i == |sql| then Replayed(schema, 0)
    else
      match engine(sql[i], schema)
      case Done(next) => SkipReplay(engine, sql, i + 1, next)
      case AlreadyThere => Skipping(SkipReplay(engine, sql, i + 1, schema), 1)
      case Fault => Stuck(i, 0)
  }

  function Skipping<S>(r: Replay<S>, more: nat): Replay<S> {
    r.(skipped := r.skipped + more)
  }

  /** A migration's statements skipped through, plus its journal row. */
  function Applied<S>(engine: Engine<S>, m: Migration, db: Db<S>): Option<Db<S>> {
    match SkipReplay(engine, m.sql, 0, db.schema)
    case Replayed(schema, _) => Some(Db(schema, db.journal + [m.Record()]))
    case Stuck(_, _) => None
  }

  /** Where a migration fails: the statement's number among those not skipped, and its text. */
  function FailsAt<S>(engine: Engine<S>, m: Migration, schema: S): Option<(nat, string)> {
    match SkipReplay(engine, m.sql, 0, schema)
    case Replayed(_, _) => None
    case Stuck(at, skipped) => Some((at - skipped, m.sql[at]))
  }

  // ---------------------------------------------------------------------
  // The retry loop refines the reference
  // ---------------------------------------------------------------------

  /** A migration's statements played in order, without its journal row. */
  datatype Run<+S> = Through(schema: S) | Halts(at: nat, existing: bool)

  function Play<S>(engine: Engine<S>, sql: seq<string>, i: nat, schema: S): (r: Run<S>)
    requires i <= |sql|
    ensures r.Halts? ==> i <= r.at < |sql|
    decreases |sql| - i
  {
    if i == |sql| then Through(schema)
    else
      match engine(sql[i], schema)
      case Done(next) => Play(engine, sql, i + 1, next)
      case AlreadyThere => Halts(i, true)
      case Fault => Halts(i, false)
  }

  /** Nothing is skipped before the fault exactly when playing the statements plainly meets the fault first. */
  lemma {:induction false} NothingSkippedIff<S>(engine: Engine<S>, sql: seq<string>, i: nat, schema: S)
    requires i <= |sql| && SkipReplay(engine, sql, i, schema).Stuck?
    ensures var r := SkipReplay(engine, sql, i, schema);
      r.skipped == 0 <==> Play(engine, sql, i, schema) == Halts(r.at, false)
    decreases |sql| - i
  {
    if engine(sql[i], schema).Done? {
      NothingSkippedIff(engine, sql, i + 1, engine(sql[i], schema).schema);
    }
  }

  /**
   * The number in the error is the statement's number in the file if and only
   * if no statement before it met an existing object.
   */
  lemma {:induction false} NamedNumberIsFileNumberIff<S>(engine: Engine<S>, m: Migration, schema: S)
    requires SkipReplay(engine, m.sql, 0, schema).Stuck?
    ensures var at := SkipReplay(engine, m.sql, 0, schema).at;
      FailsAt(engine, m, schema).value.0 == at <==> Play(engine, m.sql, 0, schema) == Halts(at, false)
  {
    NothingSkippedIff(engine, m.sql, 0, schema);
  }

  /** Statement 0 adds what exists and statement 1 fails: the error speaks of number 0. */
  lemma {:induction false} NamedNumberDiffers()
    ensures var engine: Engine<int> := (text, _) => if text == "add" then AlreadyThere else Fault;
      var m := Migration(["add", "fail"], "", 1);
      && SkipReplay(engine, m.sql, 0, 0) == Stuck(1, 1)
      && FailsAt(engine, m, 0) == Some((0, "fail"))
  {
  }

  /** The whole batch of a migration: its statements, then a row that always goes in. */
  function BatchOf(sql: seq<string>, row: Row): (steps: seq<Step>)
    ensures |steps| == |sql| + 1 && steps[|sql|] == Insert(row)
    ensures forall i :: 0 <= i < |sql| ==> steps[i] == Sql(sql[i])
  {
    seq(|sql|, i requires 0 <= i < |sql| => Sql(sql[i])) + [Insert(row)]
  }

  lemma {:induction false} BatchMeaning<S>(engine: Engine<S>, sql: seq<string>, row: Row, i: nat, db: Db<S>)
    requires i <= |sql|
    ensures Straight(engine, BatchOf(sql, row), i, db) ==
      match Play(engine, sql, i, db.schema)
      case Through(schema) => Finished(Db(schema, db.journal + [row]))
      case Halts(at, existing) => Stopped(at, existing)
    decreases |sql| - i
  {
    if i < |sql| {
      var effect := engine(sql[i], db.schema);
      if effect.Done? {
        BatchMeaning(engine, sql, row, i + 1, Db(effect.schema, db.journal));
      }
    } else {
      assert Straight(engine, BatchOf(sql, row), i, db)
          == Straight(engine, BatchOf(sql, row), i + 1, Db(db.schema, db.journal + [row]));
    }
  }

  /** Where the first `k` statements lead when all of them succeed. */
  function Reach<S>(engine: Engine<S>, sql: seq<string>, k: nat, schema: S): Option<S>
    requires k <= |sql|
  {
    if k == 0 then Some(schema)
    else
      match Reach(engine, sql, k - 1, schema)
      case None => None
      case Some(before) =>
        var effect := engine(sql[k - 1], before);
        if effect.Done? then Some(effect.schema) else None
  }

  lemma {:induction false} ReachThenPlay<S>(engine: Engine<S>, sql: seq<string>, k: nat, schema: S)
    requires k <= |sql| && Reach(engine, sql, k, schema).Some?
    ensures Play(engine, sql, 0, schema) == Play(engine, sql, k, Reach(engine, sql, k, schema).value)
  {
    if k > 0 {
      ReachThenPlay(engine, sql, k - 1, schema);
    }
  }

  lemma {:induction false} ReachLooksNoFurther<S>(engine: Engine<S>, a: seq<string>, b: seq<string>, k: nat, schema: S)
    requires k <= |a| && k <= |b| && forall i :: 0 <= i < k ==> a[i] == b[i]
    ensures Reach(engine, a, k, schema) == Reach(engine, b, k, schema)
  {
    if k > 0 {
      ReachLooksNoFurther(engine, a, b, k - 1, schema);
    }
  }

  /**
   * The retry loop between two calls: `done` statements of the migration are
   * decided, `kept` of them open the batch and lead one after the other to
   * `now`, the others were skipped; the undecided ones follow in the batch.
   */
  ghost predicate Decided<S>(engine: Engine<S>, m: Migration, schema: S,
        pending: seq<string>, kept: nat, done: nat, now: S)
  {
    match m
    case Migration(sql, _, _) =>
      && kept <= done <= |sql|
      && kept <= |pending| && pending[kept..] == sql[done..]
      && Reach(engine, pending, kept, schema) == Some(now)
      && SkipReplay(engine, sql, 0, schema) == Skipping(SkipReplay(engine, sql, done, now), done - kept)
  }

  /** `pending.splice(at, 1)` */
  function Without(pending: seq<string>, at: nat): seq<string>
    requires at < |pending|
  {
    pending[..at] + pending[at + 1..]
  }

  /** The next statement succeeds: it is decided by keeping it. */
  lemma {:induction false} KeepOne<S>(engine: Engine<S>, m: Migration, schema: S,
        pending: seq<string>, kept: nat, done: nat, now: S)
    requires Decided(engine, m, schema, pending, kept, done, now)
    requires kept < |pending| && engine(pending[kept], now).Done?
    ensures Decided(engine, m, schema, pending, kept + 1, done + 1, engine(pending[kept], now).schema)
  {
  }

  /** The next statement's object exists: it is decided by dropping it. */
  lemma {:induction false} SkipOne<S>(engine: Engine<S>, m: Migration, schema: S,
        pending: seq<string>, kept: nat, done: nat, now: S)
    requires Decided(engine, m, schema, pending, kept, done, now)
    requires kept < |pending| && engine(pending[kept], now) == AlreadyThere
    ensures Decided(engine, m, schema, Without(pending, kept), kept, done + 1, now)
  {
    var dropped := Without(pending, kept);
    ReachLooksNoFurther(engine, pending, dropped, kept, schema);
  }

  /** One call decides every statement up to the one it ends at. */
  lemma {:induction false} DecideAll<S>(engine: Engine<S>, m: Migration, schema: S,
        pending: seq<string>, kept: nat, done: nat, now: S)
      returns (at: nat, next: S)
    requires Decided(engine, m, schema, pending, kept, done, now)
    ensures kept <= at <= |pending| && Decided(engine, m, schema, pending, at, done + at - kept, next)
    ensures at == |pending| ==> Play(engine, pending, kept, now) == Through(next)
    ensures at < |pending| ==>
      && !engine(pending[at], next).Done?
      && Play(engine, pending, kept, now) == Halts(at, engine(pending[at], next).AlreadyThere?)
    decreases |pending| - kept
  {
    if kept < |pending| && engine(pending[kept], now).Done? {
      KeepOne(engine, m, schema, pending, kept, done, now);
      at, next := DecideAll(engine, m, schema, pending, kept + 1, done + 1, engine(pending[kept], now).schema);
    } else {
      at, next := kept, now;
    }
  }

  /** What the reference says once a call ended at statement `at` of the batch. */
  lemma {:induction false} Concludes<S>(engine: Engine<S>, m: Migration, schema: S,
        pending: seq<string>, at: nat, done: nat, now: S)
    requires Decided(engine, m, schema, pending, at, done, now)
    ensures at == |pending| ==> SkipReplay(engine, m.sql, 0, schema) == Replayed(now, done - at)
    ensures at < |pending| && engine(pending[at], now) == Fault ==>
      FailsAt(engine, m, schema) == Some((at, pending[at]))
  {
  }

  /** A play that ends the migration or meets its fault ends it as the reference does. */
  lemma {:induction false} PlayEnds<S>(engine: Engine<S>, m: Migration, schema: S,
        pending: seq<string>, kept: nat, done: nat, now: S)
    requires Decided(engine, m, schema, pending, kept, done, now)
    ensures match Play(engine, pending, 0, schema)
      case Through(after) => SkipReplay(engine, m.sql, 0, schema) == Replayed(after, done - kept)
      case Halts(at, existing) =>
        kept <= at < |pending| && (!existing ==> FailsAt(engine, m, schema) == Some((at, pending[at])))
  {
    ReachThenPlay(engine, pending, kept, schema);
    var at, next := DecideAll(engine, m, schema, pending, kept, done, now);
    Concludes(engine, m, schema, pending, at, done + at - kept, next);
  }

  /** A play that meets an existing object decides every statement up to that one. */
  lemma {:induction false} PlayDrops<S>(engine: Engine<S>, m: Migration, schema: S,
        pending: seq<string>, kept: nat, done: nat, now: S, at: nat)
      returns (next: S)
    requires Decided(engine, m, schema, pending, kept, done, now)
    requires Play(engine, pending, 0, schema) == Halts(at, true)
    ensures kept <= at < |pending|
    ensures Decided(engine, m, schema, Without(pending, at), at, done + at - kept + 1, next)
  {
    ReachThenPlay(engine, pending, kept, schema);
    var k, reached := DecideAll(engine, m, schema, pending, kept, done, now);
    SkipOne(engine, m, schema, pending, k, done + k - kept, reached);
    next := reached;
  }

  /** A call's answer and database, by how its statements play and by the weather. */
  lemma {:induction false} BatchByPlay<S>(engine: Engine<S>, sql: seq<string>, row: Row, db: Db<S>, weather: Weather)
    ensures Batch(engine, BatchOf(sql, row), db, weather) ==
      match Play(engine, sql, 0, db.schema)
      case Through(schema) =>
        (if weather.BreaksBefore? then db else Db(schema, db.journal + [row]),
         if weather == Calm then Committed else Failed(None, false))
      case Halts(at, existing) =>
        (db, if weather.BreaksBefore? && weather.step <= at then Failed(None, false) else Failed(Some(at), existing))
  {
    BatchMeaning(engine, sql, row, 0, db);
  }

  /** A call that meets an existing object settles every statement up to that one. */
  lemma {:induction false} DropsOne<S>(engine: Engine<S>, m: Migration, before: Db<S>,
        pending: seq<string>, kept: nat, done: nat, now: S, weather: Weather, at: nat)
      returns (next: S)
    requires Decided(engine, m, before.schema, pending, kept, done, now)
    requires Batch(engine, BatchOf(pending, m.Record()), before, weather).1 == Failed(Some(at), true)
    ensures kept <= at < |pending| && Batch(engine, BatchOf(pending, m.Record()), before, weather).0 == before
    ensures Decided(engine, m, before.schema, Without(pending, at), at, done + at - kept + 1, next)
  {
    BatchByPlay(engine, pending, m.Record(), before, weather);
    next := PlayDrops(engine, m, before.schema, pending, kept, done, now, at);
  }

  /** A call that commits leaves the skip-replay and one row. */
  lemma {:induction false} Commits<S>(engine: Engine<S>, m: Migration, before: Db<S>,
        pending: seq<string>, kept: nat, done: nat, now: S, weather: Weather)
    requires Decided(engine, m, before.schema, pending, kept, done, now)
    requires Batch(engine, BatchOf(pending, m.Record()), before, weather).1 == Committed
    ensures Applied(engine, m, before) == Some(Batch(engine, BatchOf(pending, m.Record()), before, weather).0)
    ensures SkipReplay(engine, m.sql, 0, before.schema).skipped == done - kept
  {
    BatchByPlay(engine, pending, m.Record(), before, weather);
    PlayEnds(engine, m, before.schema, pending, kept, done, now);
  }

  /** A call that fails for good changes nothing, or only lost its answer; a named statement is the reference's. */
  lemma {:induction false} Fails<S>(engine: Engine<S>, m: Migration, before: Db<S>,
        pending: seq<string>, kept: nat, done: nat, now: S, weather: Weather)
    requires Decided(engine, m, before.schema, pending, kept, done, now)
    requires Batch(engine, BatchOf(pending, m.Record()), before, weather).1.Failed?
    ensures var (after, answer) := Batch(engine, BatchOf(pending, m.Record()), before, weather);
      && (answer.at.None? ==>
            && weather != Calm
            && (after == before || (weather == LosesAnswer && Applied(engine, m, before) == Some(after))))
      && (answer.at.Some? ==> after == before && answer.at.value < |pending|)
      && (answer.at.Some? && !answer.existing ==>
            FailsAt(engine, m, before.schema) == Some((answer.at.value, pending[answer.at.value])))
  {
    BatchByPlay(engine, pending, m.Record(), before, weather);
    PlayEnds(engine, m, before.schema, pending, kept, done, now);
  }

  /** How one migration ends: applied, or failed at a statement (its number in the batch, and its text). */
  datatype Outcome = Ok | Error(where: Option<(nat, string)>)

  /**
   * Apply one migration and its journal row all-or-nothing. A statement that
   * fails because its object exists is dropped and the batch played again.
   */
  method ApplyMigrationAtomically<S>(client: Client<S>, m: Migration) returns (r: Outcome)
    modifies client
    ensures client.calls > old(client.calls)
    // Success: exactly the skip-replay and one journal row, one call per skipped statement and one more.
    ensures r.Ok? ==>
      && Applied(client.engine, m, old(client.db)) == Some(client.db)
      && client.calls == old(client.calls) + SkipReplay(client.engine, m.sql, 0, old(client.db.schema)).skipped + 1
    // Failure: nothing happened, unless the answer to a COMMIT was lost.
    ensures r.Error? ==>
      || client.db == old(client.db)
      || (client.weather(client.calls - 1) == LosesAnswer
          && Applied(client.engine, m, old(client.db)) == Some(client.db))
    // A named statement is the one the skip-replay fails at, counted without the skipped ones.
    ensures r.Error? && r.where.Some? ==>
      client.db == old(client.db) && r.where == FailsAt(client.engine, m, old(client.db.schema))
    ensures client.CalmFrom(old(client.calls)) && r.Error? ==> r.where.Some?
  {
    var pending := m.sql;
    ghost var engine, before := client.engine, client.db;
    ghost var kept: nat, done: nat, now := 0, 0, before.schema;
    while true
      invariant Decided(engine, m, before.schema, pending, kept, done, now)
      invariant client.db == before && client.calls == old(client.calls) + done - kept
      decreases |pending|
    {
      ghost var weather := client.weather(client.calls);
      var answer := client.Migrate(BatchOf(pending, m.Record()));
      if answer == Committed {
        Commits(engine, m, before, pending, kept, done, now, weather);
        return Ok;
      }
      if answer.at.Some? && answer.at.value < |pending| && answer.existing {
        var index := answer.at.value;
        ghost var next := DropsOne(engine, m, before, pending, kept, done, now, weather, index);
        pending := Without(pending, index);
        kept, done, now := index, done + index - kept + 1, next;
      } else {
        Fails(engine, m, before, pending, kept, done, now, weather);
        return Error(if answer.at.Some? && answer.at.value < |pending|
                     then Some((answer.at.value, pending[answer.at.value])) else None);
      }
    }
  }

  // ---------------------------------------------------------------------
  // Boots: resuming from the journal's high-water mark
  // ---------------------------------------------------------------------

  /** The newest `created_at` of the journal, 0 when it is empty. */
  function HighWater(journal: seq<Row>): int {
    if journal == [] then 0 else Newest(journal)
  }

  function Newest(journal: seq<Row>): (r: int)
    requires journal != []
    ensures exists i :: 0 <= i < |journal| && journal[i].createdAt == r
    ensures forall i :: 0 <= i < |journal| ==> journal[i].createdAt <= r
  {
    var last := journal[|journal| - 1].createdAt;
    if |journal| == 1 then last
    else
      var before := Newest(journal[..|journal| - 1]);
      if before > last then before else last
  }

  /** The reference for a list: the first `k` migrations in order, those up to the mark left out. */
  function Upgraded<S>(engine: Engine<S>, ms: seq<Migration>, k: nat, mark: int, db: Db<S>): Option<Db<S>>
    requires k <= |ms|
  {
    if k == 0 then Some(db)
    else
      match Upgraded(engine, ms, k - 1, mark, db)
      case None => None
      case Some(before) => if ms[k - 1].folderMillis <= mark then Some(before) else Applied(engine, ms[k - 1], before)
  }

  lemma {:induction false} UpgradeStaysFailed<S>(engine: Engine<S>, ms: seq<Migration>, j: nat, k: nat,
        mark: int, db: Db<S>)
    requires j <= k <= |ms| && Upgraded(engine, ms, j, mark, db) == None
    ensures Upgraded(engine, ms, k, mark, db) == None
  {
    if j < k {
      UpgradeStaysFailed(engine, ms, j, k - 1, mark, db);
    }
  }

  /** What a boot, finished or cut short anywhere, leaves: some number of migrations fully applied. */
  ghost predicate Boot<S>(engine: Engine<S>, ms: seq<Migration>, before: Db<S>, after: Db<S>, ok: bool) {
    exists j: nat {:trigger Upgraded(engine, ms, j, HighWater(before.journal), before)} ::
      j <= |ms| && (ok ==> j == |ms|) && Upgraded(engine, ms, j, HighWater(before.journal), before) == Some(after)
  }

  /** Apply the migrations above the high-water mark one by one, each all-or-nothing. */
  method ApplyToleratingExistingObjects<S>(client: Client<S>, ms: seq<Migration>) returns (ok: bool)
    modifies client
    ensures Boot(client.engine, ms, old(client.db), client.db, ok)
    ensures client.CalmFrom(old(client.calls)) ==>
      (ok <==> Upgraded(client.engine, ms, |ms|, HighWater(old(client.db.journal)), old(client.db)).Some?)
  {
    var lastApplied := HighWater(client.db.journal);
    ghost var engine, before := client.engine, client.db;
    for i := 0 to |ms|
      invariant client.calls >= old(client.calls)
      invariant Upgraded(engine, ms, i, lastApplied, before) == Some(client.db)
    {
      if ms[i].folderMillis <= lastApplied {
        continue;
      }
      ghost var start := client.db;
      var r := ApplyMigrationAtomically(client, ms[i]);
      if r.Error? {
        if client.db != start {
          assert Upgraded(engine, ms, i + 1, lastApplied, before) == Some(client.db);
        } else if Applied(engine, ms[i], start) == None {
          UpgradeStaysFailed(engine, ms, i + 1, |ms|, lastApplied, before);
        }
        return false;
      }
    }
    return true;
  }

  /** The ordinary path's single batch: every migration above the mark, each followed by its row. */
  function WholeBatch(ms: seq<Migration>, k: nat, mark: int): seq<Step>
    requires k <= |ms|
  {
    if k == 0 then []
    else if ms[k - 1].folderMillis <= mark then WholeBatch(ms, k - 1, mark)
    else WholeBatch(ms, k - 1, mark) + BatchOf(ms[k - 1].sql, ms[k - 1].Record())
  }

  lemma {:induction false} StraightThroughFront<S>(engine: Engine<S>, a: seq<Step>, b: seq<Step>, i: nat, db: Db<S>)
    requires i <= |a|
    ensures match Straight(engine, a, i, db)
      case Stopped(_, _) => Straight(engine, a + b, i, db) == Straight(engine, a, i, db)
      case Finished(mid) => Straight(engine, a + b, i, db) == Straight(engine, a + b, |a|, mid)
    decreases |a| - i
  {
    if i < |a| {
      match a[i] {
        case Insert(row) => StraightThroughFront(engine, a, b, i + 1, Db(db.schema, db.journal + [row]));
        case Sql(statement) =>
          var effect := engine(statement, db.schema);
          if effect.Done? {
            StraightThroughFront(engine, a, b, i + 1, Db(effect.schema, db.journal));
          }
      }
    }
  }

  lemma {:induction false} StraightInBack<S>(engine: Engine<S>, a: seq<Step>, b: seq<Step>, i: nat, db: Db<S>)
    requires i <= |b|
    ensures Straight(engine, a + b, |a| + i, db) ==
      match Straight(engine, b, i, db)
      case Stopped(at, existing) => Stopped(|a| + at, existing)
      case Finished(_) => Straight(engine, b, i, db)
    decreases |b| - i
  {
    if i < |b| {
      match b[i] {
        case Insert(row) => StraightInBack(engine, a, b, i + 1, Db(db.schema, db.journal + [row]));
        case Sql(statement) =>
          var effect := engine(statement, db.schema);
          if effect.Done? {
            StraightInBack(engine, a, b, i + 1, Db(effect.schema, db.journal));
          }
      }
    }
  }

  /** Statements played without a retry: success is the reference's, and so is a fault. */
  lemma {:induction false} PlainPlay<S>(engine: Engine<S>, sql: seq<string>, i: nat, schema: S)
    requires i <= |sql|
    ensures match Play(engine, sql, i, schema)
      case Through(after) => SkipReplay(engine, sql, i, schema) == Replayed(after, 0)
      case Halts(_, existing) => existing || SkipReplay(engine, sql, i, schema).Stuck?
    decreases |sql| - i
  {
    if i < |sql| {
      var effect := engine(sql[i], schema);
      if effect.Done? {
        PlainPlay(engine, sql, i + 1, effect.schema);
      }
    }
  }

  /** The single batch agrees with the reference whenever it does not meet an existing object. */
  lemma {:induction false} WholeBatchMeaning<S>(engine: Engine<S>, ms: seq<Migration>, k: nat, mark: int, db: Db<S>)
    requires k <= |ms|
    ensures match Straight(engine, WholeBatch(ms, k, mark), 0, db)
      case Finished(after) => Upgraded(engine, ms, k, mark, db) == Some(after)
      case Stopped(_, existing) => existing || Upgraded(engine, ms, k, mark, db) == None
  {
    if k > 0 {
      WholeBatchMeaning(engine, ms, k - 1, mark, db);
      if ms[k - 1].folderMillis > mark {
        var front, back := WholeBatch(ms, k - 1, mark), BatchOf(ms[k - 1].sql, ms[k - 1].Record());
        StraightThroughFront(engine, front, back, 0, db);
        var p := Straight(engine, front, 0, db);
        if p.Finished? {
          StraightInBack(engine, front, back, 0, p.db);
          BatchMeaning(engine, ms[k - 1].sql, ms[k - 1].Record(), 0, p.db);
          PlainPlay(engine, ms[k - 1].sql, 0, p.db.schema);
        }
      }
    }
  }

  /** One boot: the ordinary single batch, and the tolerant path when that meets an existing object. */
  method RunMigrations<S>(client: Client<S>, ms: seq<Migration>) returns (ok: bool)
    requires forall m :: m in ms ==> 0 < m.folderMillis
    modifies client
    ensures Boot(client.engine, ms, old(client.db), client.db, ok)
    ensures client.CalmFrom(old(client.calls)) ==>
      (ok <==> Upgraded(client.engine, ms, |ms|, HighWater(old(client.db.journal)), old(client.db)).Some?)
  {
    var mark := HighWater(client.db.journal);
    ghost var before := client.db;
    WholeBatchMeaning(client.engine, ms, |ms|, mark, client.db);
    assert Upgraded(client.engine, ms, 0, mark, before) == Some(before);
    var answer := client.Migrate(WholeBatch(ms, |ms|, mark));
    if answer == Committed {
      return true;
    }
    if !answer.existing {
      return false;
    }
    ok := ApplyToleratingExistingObjects(client, ms);
  }

  // ---------------------------------------------------------------------
  // Any sequence of boots
  // ---------------------------------------------------------------------

  predicate Increasing(ms: seq<Migration>) {
    && (forall i :: 0 <= i < |ms| ==> 0 < ms[i].folderMillis)
    && (forall i, j :: 0 <= i < j < |ms| ==> ms[i].folderMillis < ms[j].folderMillis)
  }

  function Rows(ms: seq<Migration>, k: nat): (rows: seq<Row>)
    requires k <= |ms|
    ensures |rows| == k && forall i :: 0 <= i < k ==> rows[i] == ms[i].Record()
  {
    seq(k, i requires 0 <= i < k => ms[i].Record())
  }

  /** The journal is a prefix of the list, and the schema the skip-replay of exactly that prefix. */
  ghost predicate Consistent<S>(engine: Engine<S>, ms: seq<Migration>, base: Db<S>, db: Db<S>) {
    && |base.journal| <= |db.journal| <= |ms|
    && base.journal == Rows(ms, |base.journal|)
    && db.journal == Rows(ms, |db.journal|)
    && Upgraded(engine, ms, |db.journal|, HighWater(base.journal), base) == Some(db)
  }

  lemma {:induction false} MarkSplitsList(ms: seq<Migration>, k: nat)
    requires Increasing(ms) && k <= |ms|
    ensures forall i :: 0 <= i < |ms| ==> (ms[i].folderMillis <= HighWater(Rows(ms, k)) <==> i < k)
  {
    if k > 0 {
      assert Rows(ms, k)[k - 1] == ms[k - 1].Record();
    }
  }

  lemma {:induction false} SkipsUpToMark<S>(engine: Engine<S>, ms: seq<Migration>, mark: int, db: Db<S>, j: nat)
    requires j <= |ms| && forall i :: 0 <= i < j ==> ms[i].folderMillis <= mark
    ensures Upgraded(engine, ms, j, mark, db) == Some(db)
  {
    if j > 0 {
      SkipsUpToMark(engine, ms, mark, db, j - 1);
    }
  }

  lemma {:induction false} UpgradeSkips<S>(engine: Engine<S>, ms: seq<Migration>, base: Db<S>, j: nat)
    requires Increasing(ms) && j <= |base.journal| <= |ms| && base.journal == Rows(ms, |base.journal|)
    ensures Upgraded(engine, ms, j, HighWater(base.journal), base) == Some(base)
  {
    MarkSplitsList(ms, |base.journal|);
    SkipsUpToMark(engine, ms, HighWater(base.journal), base, j);
  }

  /** Above both marks two upgrades that agree go on agreeing. */
  lemma {:induction false} SameAboveMarks<S>(engine: Engine<S>, ms: seq<Migration>, k: nat, j: nat,
        markA: int, a: Db<S>, markB: int, b: Db<S>)
    requires k <= j <= |ms|
    requires forall i :: k <= i < j ==> markA < ms[i].folderMillis && markB < ms[i].folderMillis
    requires Upgraded(engine, ms, k, markA, a) == Upgraded(engine, ms, k, markB, b)
    ensures Upgraded(engine, ms, j, markA, a) == Upgraded(engine, ms, j, markB, b)
  {
    if k < j {
      SameAboveMarks(engine, ms, k, j - 1, markA, a, markB, b);
    }
  }

  /** Resuming from the mark is going on where the prefix ends. */
  lemma {:induction false} ResumeGoesOn<S>(engine: Engine<S>, ms: seq<Migration>, base: Db<S>, db: Db<S>, j: nat)
    requires Increasing(ms) && Consistent(engine, ms, base, db) && |db.journal| <= j <= |ms|
    ensures Upgraded(engine, ms, j, HighWater(db.journal), db) == Upgraded(engine, ms, j, HighWater(base.journal), base)
  {
    var k := |db.journal|;
    UpgradeSkips(engine, ms, db, k);
    MarkSplitsList(ms, k);
    MarkSplitsList(ms, |base.journal|);
    SameAboveMarks(engine, ms, k, j, HighWater(db.journal), db, HighWater(base.journal), base);
  }

  /** Above the mark every migration that goes in adds its row. */
  lemma {:induction false} JournalsAboveMark<S>(engine: Engine<S>, ms: seq<Migration>, mark: int, db: Db<S>,
        k: nat, j: nat)
    requires k <= j <= |ms| && forall i :: k <= i < j ==> mark < ms[i].folderMillis
    requires Upgraded(engine, ms, k, mark, db) == Some(db) && db.journal == Rows(ms, k)
    ensures var r := Upgraded(engine, ms, j, mark, db); r.Some? ==> r.value.journal == Rows(ms, j)
  {
    if k < j {
      JournalsAboveMark(engine, ms, mark, db, k, j - 1);
      assert Rows(ms, j - 1) + [ms[j - 1].Record()] == Rows(ms, j);
    }
  }

  lemma {:induction false} UpgradeJournals<S>(engine: Engine<S>, ms: seq<Migration>, base: Db<S>, j: nat)
    requires Increasing(ms) && |base.journal| <= j <= |ms| && base.journal == Rows(ms, |base.journal|)
    ensures var r := Upgraded(engine, ms, j, HighWater(base.journal), base);
      r.Some? ==> r.value.journal == Rows(ms, j)
  {
    MarkSplitsList(ms, |base.journal|);
    UpgradeSkips(engine, ms, base, |base.journal|);
    JournalsAboveMark(engine, ms, HighWater(base.journal), base, |base.journal|, j);
  }

  lemma {:induction false} UpgradeLooksNoFurther<S>(engine: Engine<S>, ms: seq<Migration>, n: nat, j: nat,
        mark: int, db: Db<S>)
    requires j <= n <= |ms|
    ensures Upgraded(engine, ms[..n], j, mark, db) == Upgraded(engine, ms, j, mark, db)
  {
    if j > 0 {
      UpgradeLooksNoFurther(engine, ms, n, j - 1, mark, db);
    }
  }

  /** One boot of a release that ships the first `n` migrations keeps the database consistent. */
  lemma {:induction false} BootKeepsConsistent<S>(engine: Engine<S>, ms: seq<Migration>, n: nat,
        base: Db<S>, db: Db<S>, after: Db<S>, ok: bool)
    requires Increasing(ms) && n <= |ms| && Consistent(engine, ms, base, db)
    requires Boot(engine, ms[..n], db, after, ok)
    ensures Consistent(engine, ms, base, after)
    ensures db.journal <= after.journal && (|after.journal| > |db.journal| ==> |after.journal| <= n)
    ensures ok ==> n <= |after.journal|
  {
    var j: nat :| j <= n && (ok ==> j == n) && Upgraded(engine, ms[..n], j, HighWater(db.journal), db) == Some(after);
    UpgradeLooksNoFurther(engine, ms, n, j, HighWater(db.journal), db);
    if j <= |db.journal| {
      UpgradeSkips(engine, ms, db, j);
    } else {
      ResumeGoesOn(engine, ms, base, db, j);
      UpgradeJournals(engine, ms, base, j);
    }
  }

  /** A life of a database: boots of any releases, each finished or cut short anywhere. */
  datatype BootRecord = BootRecord(release: nat, ok: bool)

  ghost predicate Life<S>(engine: Engine<S>, ms: seq<Migration>, dbs: seq<Db<S>>, boots: seq<BootRecord>) {
    && |dbs| == |boots| + 1
    && forall i :: 0 <= i < |boots| ==>
         boots[i].release <= |ms| && Boot(engine, ms[..boots[i].release], dbs[i], dbs[i + 1], boots[i].ok)
  }

  lemma {:induction false} EveryBootIsSafe<S>(engine: Engine<S>, ms: seq<Migration>,
        dbs: seq<Db<S>>, boots: seq<BootRecord>, i: nat)
    requires Increasing(ms) && Life(engine, ms, dbs, boots) && i < |dbs|
    requires |dbs[0].journal| <= |ms| && dbs[0].journal == Rows(ms, |dbs[0].journal|)
    ensures Consistent(engine, ms, dbs[0], dbs[i])
    ensures i > 0 && boots[i - 1].ok ==> boots[i - 1].release <= |dbs[i].journal|
    ensures i > 0 ==> dbs[i - 1].journal <= dbs[i].journal
  {
    if i == 0 {
      UpgradeSkips(engine, ms, dbs[0], |dbs[0].journal|);
    } else {
      EveryBootIsSafe(engine, ms, dbs, boots, i - 1);
      BootKeepsConsistent(engine, ms, boots[i - 1].release, dbs[0], dbs[i - 1], dbs[i], boots[i - 1].ok);
    }
  }

  /** Row i of the journal is migration i's: its file's hash, and the time the release gave it. */
  lemma {:induction false} JournalNamesMigrations<S>(engine: Engine<S>, ms: seq<Migration>, base: Db<S>, db: Db<S>,
        i: nat)
    requires Consistent(engine, ms, base, db) && i < |db.journal|
    ensures db.journal[i].hash == ms[i].hash && db.journal[i].createdAt == ms[i].folderMillis
  {
    assert db.journal[i] == Rows(ms, |db.journal|)[i];
  }

  /** No migration is journalled twice. */
  lemma {:induction false} NoneJournalledTwice<S>(engine: Engine<S>, ms: seq<Migration>, base: Db<S>, db: Db<S>)
    requires Increasing(ms) && Consistent(engine, ms, base, db)
    ensures forall i, j :: 0 <= i < j < |db.journal| ==> db.journal[i].createdAt < db.journal[j].createdAt
  {
    forall i, j | 0 <= i < j < |db.journal| ensures db.journal[i].createdAt < db.journal[j].createdAt {
      assert db.journal[i] == ms[i].Record() && db.journal[j] == ms[j].Record();
    }
  }
}
