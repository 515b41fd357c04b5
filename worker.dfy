/** The workers of tq/worker.py: `perform_job`, the forked `perform`, the
    `working` flag that the signal handler clears, the loop of the
    immediate worker, and the scheduled worker's handling of each due job
    (fallback or primary, then reschedule or retire).

    Process plumbing is abstracted: what the job's callable does (return a
    value or raise) is a parameter, `fork` runs the child on a copy of the
    job while the store is shared, the parent ignores the child's exit
    status, `sleep` does nothing, and whether a termination signal has
    arrived before a round of the loop is a parameter of that round. */
module Workers {
  import opened Types
  import opened Store
  import opened Jobs
  import opened Que
  import Utils

  // ---------------------------------------------------------------------
  // perform_job

  /** What `perform_job` reports, and the store after it. */
  datatype Performed = Performed(db: Db, success: bool)

  /** The record a successful run leaves in the job object: the returned
      value as `result`, and status Queued because `set_status` resets it. */
  function AfterSuccess(s: JobState, v: Value): JobState {
    s.(result := v, status := Some(Queued))
  }

  /** The writes of a successful `perform_job`: through a pipeline that is
      still empty (and so falsy), state Finished is written at once; then
      the whole record `q` is saved in a pipeline of its own. */
  function FinishWrites(db: Db, q: JobState): (p: Performed)
    ensures WellFormed(db) ==> WellFormed(p.db)
  {
    var st := Apply(db, HSet(q.id, "state", Blob(PStatus(Some(Finished)))));
    if st.err.Some? then Performed(st.db, false)
    else
      var sv := Apply(st.db, HMSet(q.id, ToDict(q)));
      Performed(sv.db, sv.err.None?)
  }

  /** `perform_job(job, fallback)` against the store `db`: call the job,
      then record the finish. Whatever raises inside the `try` is caught and
      reported as failure. */
  function PerformJobOf(db: Db, s: JobState, fallback: bool, outcome: CallOutcome): (p: Performed)
    ensures PerformOf(s, fallback, outcome).Err? ==> p == Performed(db, false)
    ensures WellFormed(db) ==> WellFormed(p.db)
  {
    match PerformOf(s, fallback, outcome)
    case Err(_) => Performed(db, false)
    case Ok(v) => FinishWrites(db, AfterSuccess(s, v))
  }

  /** A run that returns succeeds and stores its result, but the record's
      state ends up Queued: the full save comes after the Finished write and
      carries the in-memory status that `set_status` reset to Queued. Only
      the job's own key is written. */
  lemma PerformJobLeavesQueued(db: Db, s: JobState, fallback: bool, outcome: CallOutcome)
    requires s.id !in db.entries || HoldsHash(db, s.id)
    requires PerformOf(s, fallback, outcome).Ok?
    ensures var v := PerformOf(s, fallback, outcome).value;
      var p := PerformJobOf(db, s, fallback, outcome);
      && p.success
      && FetchOf(s.id, p.db) == Ok(Some(AfterSuccess(s, v)))
      && "state" in FieldsAt(p.db, s.id) && FieldsAt(p.db, s.id)["state"] == Blob(PStatus(Some(Queued)))
  {
    var q := AfterSuccess(s, PerformOf(s, fallback, outcome).value);
    var st := Apply(db, HSet(s.id, "state", Blob(PStatus(Some(Finished)))));
    assert st.err.None? && HoldsHash(st.db, s.id);
    FetchAfterHMSet(q, st.db);
  }

  /** A job stored exactly (no extra fields) stays stored exactly, as the
      job with its result and status Queued. */
  lemma PerformJobKeepsStored(db: Db, s: JobState, fallback: bool, outcome: CallOutcome)
    requires StoredAs(db, s)
    requires PerformOf(s, fallback, outcome).Ok?
    ensures StoredAs(PerformJobOf(db, s, fallback, outcome).db, AfterSuccess(s, PerformOf(s, fallback, outcome).value))
  {
    var q := AfterSuccess(s, PerformOf(s, fallback, outcome).value);
    var st := Apply(db, HSet(s.id, "state", Blob(PStatus(Some(Finished)))));
    assert st.err.None? && HoldsHash(st.db, s.id);
    assert FieldsAt(st.db, s.id).Keys == ToDict(q).Keys;
    var sv := Apply(st.db, HMSet(s.id, ToDict(q)));
    assert FieldsAt(sv.db, s.id) == FieldsAt(st.db, s.id) + ToDict(q);
    assert FieldsAt(sv.db, s.id) == ToDict(q);
  }

  /** A run that raises (or never reaches the callable) writes nothing and
      reports failure. In particular a late job with a fallback fails so,
      since its `perform` reads the undefined `fb_info`. */
  lemma PerformJobFailureWritesNothing(db: Db, s: JobState, fallback: bool, outcome: CallOutcome)
    requires s.id !in db.entries || HoldsHash(db, s.id)
    ensures !PerformJobOf(db, s, fallback, outcome).success <==> PerformOf(s, fallback, outcome).Err?
    ensures !PerformJobOf(db, s, fallback, outcome).success ==> PerformJobOf(db, s, fallback, outcome).db == db
    ensures fallback && s.fallbackRef.Some? ==> PerformJobOf(db, s, fallback, outcome) == Performed(db, false)
  {
    if PerformOf(s, fallback, outcome).Ok? {
      PerformJobLeavesQueued(db, s, fallback, outcome);
    }
  }

  /** `perform_job` writes nothing but the job's own key. */
  lemma PerformJobOnlyTouchesJob(db: Db, s: JobState, fallback: bool, outcome: CallOutcome)
    ensures SameExcept(db, PerformJobOf(db, s, fallback, outcome).db, s.id)
  {
    if PerformOf(s, fallback, outcome).Ok? {
      var q := AfterSuccess(s, PerformOf(s, fallback, outcome).value);
      var st := Apply(db, HSet(q.id, "state", Blob(PStatus(Some(Finished)))));
      var sv := Apply(st.db, HMSet(q.id, ToDict(q)));
      assert SameExcept(db, st.db, s.id) && SameExcept(st.db, sv.db, s.id);
    }
  }

  // ---------------------------------------------------------------------
  // One due job of the scheduled worker

  /** The job state the forked child stores: the refreshed record after a
      successful run, the record as it was after a failed one. */
  function StoredAfterRun(s: JobState, fallback: bool, outcome: CallOutcome): JobState {
    match PerformOf(s, fallback, outcome)
    case Ok(v) => AfterSuccess(s, v)
    case Err(_) => s
  }

  /** After the run: compute `next_runtime` from the refreshed job, then
      either set `ran_at` to the poll time and requeue at `next_runtime`
      (one transaction), or drop the id from the sorted set and give the
      record its TTL (each sent at once through the still empty pipeline). */
  function AfterRun(db: Db, qkey: string, key: string, s: JobState, queryAt: int, now: int): (r: Outcome)
    ensures WellFormed(db) ==> WellFormed(r.db)
  {
    match NextTsOf(s, now)
    case Err(e) => Outcome(db, Some(e))
    case Ok(next) =>
      match Reschedulable(s)
      case Err(e) => Outcome(db, Some(e))
      case Ok(again) =>
        if again && next.Some? then
          var ran := s.(execInfo := Some(s.execInfo.value.(ranAt := Some(queryAt))));
          var q := Requeued(ran, next.value).value;
          ApplyAll(db, [ZAdd(qkey, next.value, s.id), HMSet(s.id, ToDict(q))])
        else
          var z := Apply(db, ZRem(qkey, key));
          if z.err.Some? then z else Apply(z.db, Expire(s.id, JobTtl))
  }

  /** The body of `for key in jobs` in `ScheduledWorker.run`: fetch the job
      (a vanished record makes `should_run_fallback` read an attribute of
      None), decide the fallback from the poll time, run it in a child,
      refresh, and reschedule or retire. An error ends the step with the
      store as it is at that point. */
  function DueStep(db: Db, qkey: string, key: string, queryAt: int, outcome: CallOutcome, now: int): (r: Outcome)
    ensures WellFormed(db) ==> WellFormed(r.db)
  {
    match FetchOf(key, db)
    case Err(e) => Outcome(db, Some(e))
    case Ok(None) => Outcome(db, Some(AttributeError))
    case Ok(Some(s)) =>
      match ShouldRunFallbackOf(queryAt, s)
      case Err(e) => Outcome(db, Some(e))
      case Ok(fallback) =>
        var db1 := PerformJobOf(db, s, fallback, outcome).db;
        var r := RefreshOf(s, HGetAll(db1, s.id));
        if r.found.Err? then Outcome(db1, Some(r.found.error))
        else AfterRun(db1, qkey, key, r.state, queryAt, now)
  }

  /** The step on a job stored under its id, with a schedule the time
      calculator accepts. The fallback flag is `should_run_fallback` at the
      poll time. A reschedulable job with a next run stays in the sorted
      set, now scored at that run, and its record gets `scheduled_at` =
      that run and `ran_at` = the poll time, while the next run itself was
      computed from the `ran_at` stored before. Any other job leaves the
      sorted set and its record stays, with a five-hour TTL. */
  lemma DueStepOnStoredJob(db: Db, qkey: string, s: JobState, queryAt: int, outcome: CallOutcome, now: int)
    requires StoredAs(db, s) && s.id != qkey
    requires qkey !in db.entries || HoldsZSet(db, qkey)
    requires ShouldRunFallbackOf(queryAt, s).Ok?
    requires NextTsOf(s, now).Ok? && Reschedulable(s).Ok?
    ensures var fallback := ShouldRunFallbackOf(queryAt, s).value;
      var ran := StoredAfterRun(s, fallback, outcome);
      var next := NextTsOf(s, now).value;
      var r := DueStep(db, qkey, s.id, queryAt, outcome, now);
      && r.err.None?
      && (Reschedulable(s).value && next.Some? ==>
            && HoldsZSet(r.db, qkey)
            && ScoresAt(r.db, qkey) == ScoresAt(db, qkey)[s.id := next.value]
            && FetchOf(s.id, r.db) ==
                 Ok(Some(ran.(execInfo := Some(s.execInfo.value.(ranAt := Some(queryAt), scheduledAt := next))))))
      && (!(Reschedulable(s).value && next.Some?) ==>
            && ScoresAt(r.db, qkey) == ScoresAt(db, qkey) - {s.id}
            && FetchOf(s.id, r.db) == Ok(Some(ran))
            && s.id in r.db.ttl && r.db.ttl[s.id] == JobTtl)
  {
    var fallback := ShouldRunFallbackOf(queryAt, s).value;
    var ran := StoredAfterRun(s, fallback, outcome);
    var db1 := PerformJobOf(db, s, fallback, outcome).db;
    DueStepRunsStoredJob(db, qkey, s, queryAt, outcome, now);
    PerformJobOnlyTouchesJob(db, s, fallback, outcome);
    assert ScoresAt(db1, qkey) == ScoresAt(db, qkey);
    assert ran.execInfo == s.execInfo && ran.id == s.id;
    assert NextTsOf(ran, now) == NextTsOf(s, now) && Reschedulable(ran) == Reschedulable(s);
    AfterRunOnStoredJob(db1, qkey, ran, queryAt, now);
  }

  /** Up to the refresh, the step on a stored job runs it with the fallback
      flag of the poll time and reads back what the child stored. */
  lemma DueStepRunsStoredJob(db: Db, qkey: string, s: JobState, queryAt: int, outcome: CallOutcome, now: int)
    requires StoredAs(db, s)
    requires ShouldRunFallbackOf(queryAt, s).Ok?
    ensures var fallback := ShouldRunFallbackOf(queryAt, s).value;
      var ran := StoredAfterRun(s, fallback, outcome);
      var db1 := PerformJobOf(db, s, fallback, outcome).db;
      && StoredAs(db1, ran)
      && DueStep(db, qkey, s.id, queryAt, outcome, now) == AfterRun(db1, qkey, s.id, ran, queryAt, now)
  {
    StoredFetch(db, s);
    var fallback := ShouldRunFallbackOf(queryAt, s).value;
    var ran := StoredAfterRun(s, fallback, outcome);
    var db1 := PerformJobOf(db, s, fallback, outcome).db;
    if PerformOf(s, fallback, outcome).Ok? {
      PerformJobKeepsStored(db, s, fallback, outcome);
    }
    StoredFetch(db1, ran);
  }

  lemma AfterRunOnStoredJob(db: Db, qkey: string, s: JobState, queryAt: int, now: int)
    requires StoredAs(db, s) && s.id != qkey
    requires qkey !in db.entries || HoldsZSet(db, qkey)
    requires NextTsOf(s, now).Ok? && Reschedulable(s).Ok?
    ensures var next := NextTsOf(s, now).value;
      var r := AfterRun(db, qkey, s.id, s, queryAt, now);
      && r.err.None?
      && (Reschedulable(s).value && next.Some? ==>
            && HoldsZSet(r.db, qkey)
            && ScoresAt(r.db, qkey) == ScoresAt(db, qkey)[s.id := next.value]
            && FetchOf(s.id, r.db) ==
                 Ok(Some(s.(execInfo := Some(s.execInfo.value.(ranAt := Some(queryAt), scheduledAt := next))))))
      && (!(Reschedulable(s).value && next.Some?) ==>
            && ScoresAt(r.db, qkey) == ScoresAt(db, qkey) - {s.id}
            && FetchOf(s.id, r.db) == Ok(Some(s))
            && s.id in r.db.ttl && r.db.ttl[s.id] == JobTtl)
  {
    var next := NextTsOf(s, now).value;
    if Reschedulable(s).value && next.Some? {
      var ran := s.(execInfo := Some(s.execInfo.value.(ranAt := Some(queryAt))));
      var q := Requeued(ran, next.value).value;
      assert AfterRun(db, qkey, s.id, s, queryAt, now)
          == ApplyAll(db, [ZAdd(qkey, next.value, s.id), HMSet(s.id, ToDict(q))]);
      RequeueStoresJob(db, qkey, ran, next.value);
    } else {
      RetireStoredJob(db, qkey, s);
    }
  }

  /** Retiring: ZREM then EXPIRE leave the record as it was, with a TTL. */
  lemma RetireStoredJob(db: Db, qkey: string, s: JobState)
    requires StoredAs(db, s) && s.id != qkey
    requires qkey !in db.entries || HoldsZSet(db, qkey)
    ensures var z := Apply(db, ZRem(qkey, s.id)); var x := Apply(z.db, Expire(s.id, JobTtl));
      && z.err.None? && x.err.None?
      && ScoresAt(x.db, qkey) == ScoresAt(db, qkey) - {s.id}
      && FetchOf(s.id, x.db) == Ok(Some(s))
      && s.id in x.db.ttl && x.db.ttl[s.id] == JobTtl
  {
    var z := Apply(db, ZRem(qkey, s.id));
    assert z.err.None? && StoredAs(z.db, s);
    var x := Apply(z.db, Expire(s.id, JobTtl));
    assert StoredAs(x.db, s);
    StoredFetch(x.db, s);
  }

  /** `next_runtime` is computed before `ran_at` is updated, so it uses the
      `ran_at` stored by the previous run. An hourly job due at `t` whose
      stored `ran_at` is `t` - 1 hour is requeued at `t` + 1 hour; had
      `ran_at` been `t` + 3 hours, it would be `t` + 4 hours. */
  lemma NextRuntimeUsesPreviousRanAt(t: int, now: int)
    ensures var info := EmptyInfo.(timezone := Some(0), everyHour := Some(1), scheduledAt := Some(t),
                                   ranAt := Some(t - 3600));
      && Utils.GetNextTs(info, now) == Ok(Some(t + 3600))
      && Utils.GetNextTs(info.(ranAt := Some(t + 3 * 3600)), now) == Ok(Some(t + 4 * 3600))
  {
    var info := EmptyInfo.(timezone := Some(0), everyHour := Some(1), scheduledAt := Some(t),
                           ranAt := Some(t - 3600));
    assert Utils.GetHourOffset(info) == Ok(3600);
    assert (3 * 3600) / 3600 == 3;
    assert Utils.GetHourOffset(info.(ranAt := Some(t + 3 * 3600))) == Ok(4 * 3600);
  }

  /** The due jobs `keys[i..]` of one poll, handled in order; the first
      error ends the batch (it propagates out of `run`). */
  function DueSteps(db: Db, qkey: string, keys: seq<string>, i: nat, queryAt: int,
                    outcome: nat -> CallOutcome, clock: nat -> int): (r: Outcome)
    requires i <= |keys|
    ensures WellFormed(db) ==> WellFormed(r.db)
    decreases |keys| - i
  {
    if i == |keys| then Outcome(db, None)
    else
      var r := DueStep(db, qkey, keys[i], queryAt, outcome(i), clock(i));
      if r.err.Some? then r else DueSteps(r.db, qkey, keys, i + 1, queryAt, outcome, clock)
  }

  // ---------------------------------------------------------------------
  // The immediate worker's loop

  /** Why a worker's loop stopped: the signal handler ran, BLPOP waits for
      ever on empty lists, an exception escaped `run`, or the rounds given
      to the model were used up (the source loops until it is killed). */
  datatype Stop = Signalled | Waiting | Crashed(error: Error) | RoundsDone

  datatype Halt = Halt(db: Db, stop: Option<Stop>)

  /** One round of `Worker.run`: pop a job id from the first non-empty
      queue and run the job in a child. A popped id without a record makes
      the child raise (on `None.id`) and end without writing. */
  function WorkerRound(db: Db, keys: seq<string>, outcome: CallOutcome): (h: Halt)
    ensures WellFormed(db) ==> WellFormed(h.db)
    ensures h.stop.Some? ==> h.stop.value.Waiting? || h.stop.value.Crashed?
    ensures WellFormed(db) ==>
      (h.stop == Some(Waiting) <==> keys != [] && forall k :: k in keys ==> k !in db.entries)
  {
    assert WellFormed(db) ==> (BLPopCmd(db, keys).reply.Blocked? <==>
        keys != [] && forall k :: k in keys ==> k !in db.entries) by {
      if WellFormed(db) { BLPopCases(db, keys); }
    }
    var p := BLPopCmd(db, keys);
    match p.reply
    case Blocked => Halt(db, Some(Waiting))
    case PopFailed(e) => Halt(db, Some(Crashed(e)))
    case Popped(_, id) =>
      match FetchOf(id, p.db)
      case Err(e) => Halt(p.db, Some(Crashed(e)))
      case Ok(None) => Halt(p.db, None)
      case Ok(Some(s)) => Halt(PerformJobOf(p.db, s, false, outcome).db, None)
  }

  /** Rounds `i` to `rounds - 1` of `Worker.run`, `signalled(i)` telling
      whether the termination signal arrives before round `i`. */
  function WorkerRounds(db: Db, keys: seq<string>, i: nat, rounds: nat, signalled: nat -> bool,
                        outcome: nat -> CallOutcome): (h: Halt)
    ensures WellFormed(db) ==> WellFormed(h.db)
    decreases rounds - i
  {
    if i >= rounds then Halt(db, None)
    else if signalled(i) then Halt(db, Some(Signalled))
    else
      var h := WorkerRound(db, keys, outcome(i));
      if h.stop.Some? then h else WorkerRounds(h.db, keys, i + 1, rounds, signalled, outcome)
  }

  /** The key a round's child writes after popping `id`: the id field of
      the record fetched, which `refresh` reads from the hash itself. */
  function WrittenKey(db: Db, id: string): string {
    match FetchOf(id, db)
    case Ok(Some(s)) => s.id
    case _ => id
  }

  /** A round pops exactly the head of the first non-empty list and
      changes no other queue. */
  lemma WorkerRoundTakesHead(db: Db, keys: seq<string>, outcome: CallOutcome)
    requires WellFormed(db) && BLPopCmd(db, keys).reply.Popped?
    ensures var p := BLPopCmd(db, keys); var k, id := p.reply.key, p.reply.value;
      var h := WorkerRound(db, keys, outcome); var w := WrittenKey(p.db, id);
      && k in keys && ListAt(db, k) != [] && id == ListAt(db, k)[0]
      && (w != k ==> ListAt(h.db, k) == ListAt(db, k)[1..])
      && (forall j :: 0 <= j < |keys| && keys[j] != k && keys[j] != w ==> ListAt(h.db, keys[j]) == ListAt(db, keys[j]))
  {
    var p := BLPopCmd(db, keys);
    var id := p.reply.value;
    BLPopTakesFirstHead(db, keys);
    var f := FetchOf(id, p.db);
    if f.Ok? && f.value.Some? {
      PerformJobOnlyTouchesJob(p.db, f.value.value, false, outcome);
    }
  }

  /** A job that a round pops and runs to completion is stored with its
      result and status Queued, never Finished. */
  lemma WorkerRoundStoresResult(db: Db, keys: seq<string>, outcome: CallOutcome, s: JobState)
    requires WellFormed(db) && BLPopCmd(db, keys).reply.Popped?
    requires StoredAs(BLPopCmd(db, keys).db, s) && s.id == BLPopCmd(db, keys).reply.value
    requires PerformOf(s, false, outcome).Ok?
    ensures var h := WorkerRound(db, keys, outcome);
      && h.stop.None?
      && FetchOf(s.id, h.db) == Ok(Some(AfterSuccess(s, PerformOf(s, false, outcome).value)))
  {
    StoredFetch(BLPopCmd(db, keys).db, s);
    PerformJobLeavesQueued(BLPopCmd(db, keys).db, s, false, outcome);
  }

  // ---------------------------------------------------------------------
  // The worker objects

  /** `[Queue(connection, queue) for queue in queues]` */
  method MakeQueues(names: seq<string>, connection: Redis) returns (qs: seq<Queue>)
    ensures |qs| == |names|
    ensures forall i :: 0 <= i < |names| ==> qs[i].connection == connection && qs[i].name == QueueKey(names[i])
  {
    qs := [];
    var i := 0;
    while i < |names|
      invariant 0 <= i <= |names| && |qs| == i
      invariant forall j :: 0 <= j < i ==> qs[j].connection == connection && qs[j].name == QueueKey(names[j])
    {
      var q := new Queue(connection, names[i]);
      qs := qs + [q];
      i := i + 1;
    }
  }

  class Worker {
    var working: bool
    const connection: Redis
    const qnames: seq<string>
    const queues: seq<Queue>
    const name: string

    predicate Valid() {
      forall i :: 0 <= i < |queues| ==> queues[i].connection == connection
    }

    /** `Worker(queues, connection, name)`: the worker's name is the class
        name unless a non-empty one is given. */
    constructor(qnames: seq<string>, connection: Redis, name: Option<string>, className: string)
      ensures Valid() && working
      ensures this.connection == connection && this.qnames == qnames
      ensures Keys(queues) == seq(|qnames|, i requires 0 <= i < |qnames| => QueueKey(qnames[i]))
      ensures this.name == if name.None? || name.value == "" then className else name.value
    {
      var qs := MakeQueues(qnames, connection);
      working := true;
      this.connection := connection;
      this.qnames := qnames;
      queues := qs;
      this.name := if name.None? || name.value == "" then className else name.value;
    }

    /** `graceful_exit`, the handler of SIGTERM and SIGINT: stop working
        (the process then exits). Running it again changes nothing more. */
    method GracefulExit()
      modifies this`working
      ensures !working
    {
      working := false;
    }

    /** `perform_job(job, fallback)`: true exactly when the job ran and both
        store writes went through. */
    method PerformJob(job: Job, fallback: bool, outcome: CallOutcome) returns (success: bool)
      requires job.connection == connection
      modifies job, connection
      ensures var p := PerformJobOf(old(connection.db), old(job.State()), fallback, outcome);
        success == p.success && connection.db == p.db
    {
      var r := job.Perform(fallback, outcome);
      if r.Err? {
        return false;
      }
      var pipe := new Pipeline(connection);
      var e := job.SetStatus(Finished, pipe);
      if e.Some? {
        return false;
      }
      assert job.State() == AfterSuccess(old(job.State()), r.value);
      e := job.Save(pipe);
      success := e.None?;
    }

    /** `perform(job, fallback)`: fork; the child runs `perform_job` on its
        own copy of the job, the parent waits and keeps its job unchanged.
        A job of None makes the child raise before anything is written. */
    method Perform(job: Option<Job>, fallback: bool, outcome: CallOutcome)
      requires job.Some? ==> job.value.connection == connection
      modifies connection
      ensures job.None? ==> connection.db == old(connection.db)
      ensures job.Some? ==> connection.db == PerformJobOf(old(connection.db), job.value.State(), fallback, outcome).db
    {
      if job.None? {
        return;
      }
      var child := job.value.Copy();
      var _ := PerformJob(child, fallback, outcome);
    }

    /** `run()`, for `rounds` rounds at most. */
    method Run(rounds: nat, signalled: nat -> bool, outcome: nat -> CallOutcome) returns (stop: Stop)
      requires Valid() && working
      modifies this`working, connection
      ensures var h := WorkerRounds(old(connection.db), Keys(queues), 0, rounds, signalled, outcome);
        connection.db == h.db && stop == h.stop.GetOr(RoundsDone)
      ensures !working <==> stop == Signalled
    {
      var i := 0;
      var halted: Option<Stop> := None;
      while i < rounds && halted.None?
        invariant 0 <= i <= rounds
        invariant WorkerRounds(old(connection.db), Keys(queues), 0, rounds, signalled, outcome) ==
          if halted.Some? then Halt(connection.db, halted)
          else WorkerRounds(connection.db, Keys(queues), i, rounds, signalled, outcome)
        invariant working <==> halted != Some(Signalled)
        decreases rounds - i
      {
        if signalled(i) {
          GracefulExit();
          halted := Some(Signalled);
        } else {
          var d := Queue.DequeAny(queues, connection);
          match d
          case WouldBlock => halted := Some(Waiting);
          case Raised(e) => halted := Some(Crashed(e));
          case Fetched(job) => Perform(job, false, outcome(i));
        }
        i := i + 1;
      }
      stop := halted.GetOr(RoundsDone);
    }
  }

  /** A scheduled worker: the base worker's state plus the one queue whose
      sorted set it polls and its poll latency. `FailedWorker` is the same
      with latency 30. */
  class ScheduledWorker {
    const base: Worker
    const queue: Queue
    const latency: int

    predicate Valid() {
      base.Valid() && queue.connection == base.connection
    }

    constructor(qnames: seq<string>, connection: Redis, latency: int, className: string)
      requires |qnames| > 0
      ensures Valid() && fresh(base) && base.working
      ensures base.connection == connection && base.qnames == qnames && base.name == className
      ensures queue.name == QueueKey(qnames[0]) && this.latency == latency
    {
      base := new Worker(qnames, connection, Some(className), className);
      queue := new Queue(connection, qnames[0]);
      this.latency := latency;
    }

    /** `ScheduledWorker(queues, connection, latency=1)`: it listens on the
        first queue only; with no queue `queues[0]` raises IndexError. */
    static method New(qnames: seq<string>, connection: Redis, latency: int) returns (r: Result<ScheduledWorker>)
      ensures qnames == [] <==> r.Err?
      ensures r.Err? ==> r.error == IndexError
      ensures r.Ok? ==>
        && r.value.Valid() && fresh(r.value.base) && r.value.base.working
        && r.value.base.connection == connection && r.value.base.name == "ScheduledWorker"
        && r.value.queue.name == QueueKey(qnames[0]) && r.value.latency == latency
    {
      if qnames == [] {
        return Err(IndexError);
      }
      var w := new ScheduledWorker(qnames, connection, latency, "ScheduledWorker");
      r := Ok(w);
    }

    /** `FailedWorker(queues, connection)`: the same engine polling every
        30 seconds, named after its own class. */
    static method NewFailed(qnames: seq<string>, connection: Redis) returns (r: Result<ScheduledWorker>)
      ensures qnames == [] <==> r.Err?
      ensures r.Err? ==> r.error == IndexError
      ensures r.Ok? ==>
        && r.value.Valid() && fresh(r.value.base) && r.value.base.working
        && r.value.base.connection == connection && r.value.base.name == "FailedWorker"
        && r.value.queue.name == QueueKey(qnames[0]) && r.value.latency == 30
    {
      if qnames == [] {
        return Err(IndexError);
      }
      var w := new ScheduledWorker(qnames, connection, 30, "FailedWorker");
      r := Ok(w);
    }

    /** One pass of the `for key in jobs` loop. */
    method ProcessDue(key: string, queryAt: int, outcome: CallOutcome, now: int) returns (err: Option<Error>)
      requires Valid()
      modifies base.connection
      ensures var r := DueStep(old(base.connection.db), queue.name, key, queryAt, outcome, now);
        base.connection.db == r.db && err == r.err
    {
      var connection := base.connection;
      var f := Job.Fetch(key, connection);
      if f.Err? {
        return Some(f.error);
      }
      if f.value.None? {
        return Some(AttributeError);
      }
      var job := f.value.value;
      var fallback := ShouldRunFallbackOf(queryAt, job.State());
      if fallback.Err? {
        return Some(fallback.error);
      }
      base.Perform(Some(job), fallback.value, outcome);
      var found := job.Refresh();
      if found.Err? {
        return Some(found.error);
      }
      err := Finish(job, key, queryAt, now);
    }

    /** The rest of the pass, after `job.refresh()`: `next_runtime`, then
        reschedule or retire. */
    method Finish(job: Job, key: string, queryAt: int, now: int) returns (err: Option<Error>)
      requires Valid() && job.connection == base.connection
      modifies base.connection, job`execInfo
      ensures var r := AfterRun(old(base.connection.db), queue.name, key, old(job.State()), queryAt, now);
        base.connection.db == r.db && err == r.err
    {
      var connection := base.connection;
      var next := NextTsOf(job.State(), now);
      if next.Err? {
        return Some(next.error);
      }
      var pipe := new Pipeline(connection);
      var again := Reschedulable(job.State());
      if again.Err? {
        return Some(again.error);
      }
      if again.value && next.value.Some? {
        ghost var s := job.State();
        var _ := job.SetRanAt(queryAt);
        ghost var ran := s.(execInfo := Some(s.execInfo.value.(ranAt := Some(queryAt))));
        assert job.State() == ran;
        ghost var q := Requeued(ran, next.value.value).value;
        // `self.reschedule(job, next_runtime, pipeline)`
        err := queue.RequeueScheduled(job, next.value.value, pipe);
        assert [] + [ZAdd(queue.name, next.value.value, s.id), HMSet(s.id, ToDict(q))]
            == [ZAdd(queue.name, next.value.value, s.id), HMSet(s.id, ToDict(q))];
        return;
      }
      err := queue.DeleteScheduled(key, pipe);
      if err.Some? {
        return;
      }
      err := job.Expire(pipe);
      if err.Some? {
        return;
      }
      err := pipe.Run();
    }

    /** One round of `run()`: poll the sorted set at `queryAt` and handle
        each due job in score order; `outcome(i)` and `clock(i)` are the
        i-th job's run and the time `get_next_ts` reads. */
    method Poll(queryAt: int, outcome: nat -> CallOutcome, clock: nat -> int)
      returns (due: Result<seq<string>>, err: Option<Error>)
      requires Valid()
      modifies base.connection
      ensures var range := ZRangeByScore(old(base.connection.db), queue.name, 0, queryAt);
        && (range.Err? ==>
              due == Err(ResponseError) && err == Some(ResponseError) && base.connection.db == old(base.connection.db))
        && (range.Ok? ==> due.Ok? && forall k :: k in due.value <==> k in range.value)
      ensures due.Ok? ==>
        && Distinct(due.value) && ByScore(due.value, ScoresAt(old(base.connection.db), queue.name))
        && var r := DueSteps(old(base.connection.db), queue.name, due.value, 0, queryAt, outcome, clock);
           base.connection.db == r.db && err == r.err
    {
      var queryTime;
      queryTime, due := queue.GetScheduled(queryAt);
      if due.Err? {
        return due, Some(ResponseError);
      }
      var jobs := due.value;
      ghost var db0 := base.connection.db;
      err := None;
      var i := 0;
      while i < |jobs| && err.None?
        invariant 0 <= i <= |jobs|
        invariant DueSteps(db0, queue.name, jobs, 0, queryAt, outcome, clock) ==
          if err.Some? then Outcome(base.connection.db, err)
          else DueSteps(base.connection.db, queue.name, jobs, i, queryAt, outcome, clock)
        decreases |jobs| - i
      {
        err := ProcessDue(jobs[i], queryTime, outcome(i), clock(i));
        i := i + 1;
      }
    }

    /** `run()`, for `rounds` rounds at most: the store stays well formed,
        and the loop ends with the signal, at an error, or after the rounds
        given. */
    method Run(rounds: nat, signalled: nat -> bool, pollAt: nat -> int,
               outcome: nat -> nat -> CallOutcome, clock: nat -> nat -> int) returns (stop: Stop)
      requires Valid() && base.working
      modifies base`working, base.connection
      ensures WellFormed(old(base.connection.db)) ==> WellFormed(base.connection.db)
      ensures !base.working <==> stop == Signalled
      ensures stop == Signalled || stop.Crashed? || stop == RoundsDone
    {
      var i := 0;
      stop := RoundsDone;
      while i < rounds && stop == RoundsDone
        invariant 0 <= i <= rounds
        invariant WellFormed(old(base.connection.db)) ==> WellFormed(base.connection.db)
        invariant !base.working <==> stop == Signalled
        invariant stop == Signalled || stop.Crashed? || stop == RoundsDone
        decreases rounds - i
      {
        if signalled(i) {
          base.GracefulExit();
          stop := Signalled;
        } else {
          var due, err := Poll(pollAt(i), outcome(i), clock(i));
          if err.Some? {
            stop := Crashed(err.value);
          }
        }
        i := i + 1;
      }
    }
  }
}
