/** A named queue (tq/que.py): immediate jobs are ids in a Redis list,
    scheduled jobs are ids in a sorted set scored by their run time, both
    under the one key 'tq:queue:<name>'; each job's record is a hash under
    its id. */
module Que {
  import opened Types
  import opened Store
  import opened Jobs

  const Prefix: string := "tq:queue:"

  /** `'tq:queue:{}'.format(name)` */
  function QueueKey(name: string): (k: string)
    ensures |k| == |Prefix| + |name| && k[..|Prefix|] == Prefix && k[|Prefix|..] == name
  {
    Prefix + name
  }

  /** Distinct queue names never share a key. */
  lemma QueueKeyInjective(a: string, b: string)
    ensures QueueKey(a) == QueueKey(b) ==> a == b
  {
    if QueueKey(a) == QueueKey(b) {
      assert a == QueueKey(a)[|Prefix|..];
      assert b == QueueKey(b)[|Prefix|..];
    }
  }

  /** `add_job`: a truthy `scheduled_at` sends the id to the sorted set with
      that score, anything else to the tail of the list; reading
      `scheduled_at` of a job without `exec_info` raises. */
  function AddCommand(qkey: string, s: JobState): (r: Result<Command>)
    ensures s.execInfo.None? ==> r == Err(AttributeError)
    ensures s.execInfo.Some? ==> r.Ok?
    ensures r.Ok? ==> r.value.key == qkey && (r.value.ZAdd? <==> TruthyInt(s.execInfo.value.scheduledAt))
    ensures r.Ok? && r.value.ZAdd? ==> r.value == ZAdd(qkey, s.execInfo.value.scheduledAt.value, s.id)
    ensures r.Ok? && !r.value.ZAdd? ==> r.value == RPush(qkey, s.id)
  {
    if s.execInfo.None? then Err(AttributeError)
    else if TruthyInt(s.execInfo.value.scheduledAt) then Ok(ZAdd(qkey, s.execInfo.value.scheduledAt.value, s.id))
    else Ok(RPush(qkey, s.id))
  }

  /** The transaction `enqueue` sends for a created job `s`: place the id,
      set the 'state' field to Queued, save the whole record (whose status
      `set_status` has just made Queued). */
  function EnqueueCommands(qkey: string, s: JobState): (cs: seq<Command>)
    requires s.execInfo.Some?
    ensures |cs| == 3 && cs[0].key == qkey && cs[1].key == s.id && cs[2].key == s.id
  {
    [AddCommand(qkey, s).value, HSet(s.id, "state", Blob(PStatus(Some(Queued)))),
     HMSet(s.id, ToDict(s.(status := Some(Queued))))]
  }

  /** Three commands in one transaction, one by one. */
  lemma ApplyThree(db: Db, a: Command, b: Command, c: Command)
    ensures var ra := Apply(db, a); var rb := Apply(ra.db, b); var rc := Apply(rb.db, c);
      ApplyAll(db, [a, b, c]) ==
        Outcome(rc.db, if ra.err.Some? then ra.err else if rb.err.Some? then rb.err else rc.err)
  {
    var ra := Apply(db, a);
    var rb := Apply(ra.db, b);
    var rc := Apply(rb.db, c);
    assert [c][1..] == [];
    assert ApplyAll(rb.db, [c]) == Outcome(rc.db, rc.err);
    assert [b, c][1..] == [c];
    assert ApplyAll(ra.db, [b, c]) == Outcome(rc.db, if rb.err.Some? then rb.err else rc.err);
    assert [a, b, c][1..] == [b, c];
  }

  /** Enqueueing a new job on a queue whose key is free or holds the right
      kind of value succeeds; the record is then fetched back exactly, with
      status Queued, and the id is at the tail of the list or in the sorted
      set with its `scheduled_at` as score, never both. */
  lemma EnqueueStoresJob(db: Db, qkey: string, s: JobState)
    requires WellFormed(db) && s.execInfo.Some?
    requires s.id !in db.entries && s.id != qkey
    requires TruthyInt(s.execInfo.value.scheduledAt) ==> qkey !in db.entries || HoldsZSet(db, qkey)
    requires !TruthyInt(s.execInfo.value.scheduledAt) ==> qkey !in db.entries || HoldsList(db, qkey)
    ensures var r := ApplyAll(db, EnqueueCommands(qkey, s));
      && r.err.None?
      && FetchOf(s.id, r.db) == Ok(Some(s.(status := Some(Queued))))
      && (TruthyInt(s.execInfo.value.scheduledAt) ==>
            && HoldsZSet(r.db, qkey)
            && ScoresAt(r.db, qkey) == ScoresAt(db, qkey)[s.id := s.execInfo.value.scheduledAt.value])
      && (!TruthyInt(s.execInfo.value.scheduledAt) ==>
            HoldsList(r.db, qkey) && ListAt(r.db, qkey) == ListAt(db, qkey) + [s.id])
  {
    var cs := EnqueueCommands(qkey, s);
    ApplyThree(db, cs[0], cs[1], cs[2]);
    var ra := Apply(db, cs[0]);
    var rb := Apply(ra.db, cs[1]);
    var q := s.(status := Some(Queued));
    assert ra.err.None? && s.id !in ra.db.entries;
    PlaceThenRecord(ra.db, qkey, q);
  }

  /** Writing a fresh job's 'state' field and then its record changes
      nothing under the queue key and makes the record fetchable. */
  lemma PlaceThenRecord(db: Db, qkey: string, q: JobState)
    requires q.id !in db.entries && q.id != qkey
    ensures var rb := Apply(db, HSet(q.id, "state", Blob(PStatus(Some(Queued)))));
      var rc := Apply(rb.db, HMSet(q.id, ToDict(q)));
      && rb.err.None? && rc.err.None?
      && FetchOf(q.id, rc.db) == Ok(Some(q))
      && (qkey in rc.db.entries <==> qkey in db.entries)
      && (qkey in db.entries ==> rc.db.entries[qkey] == db.entries[qkey])
  {
    var rb := Apply(db, HSet(q.id, "state", Blob(PStatus(Some(Queued)))));
    assert HoldsHash(rb.db, q.id);
    FetchAfterHMSet(q, rb.db);
  }

  /** The list and the sorted set share the queue's key: a scheduled job
      enqueued while immediate jobs wait on the same queue is refused with a
      WRONGTYPE error and never placed, yet the rest of the transaction
      still stores its record. */
  lemma EnqueueScheduledOnListFails(db: Db, qkey: string, s: JobState)
    requires WellFormed(db) && s.execInfo.Some? && TruthyInt(s.execInfo.value.scheduledAt)
    requires s.id !in db.entries && s.id != qkey
    requires HoldsList(db, qkey)
    ensures var r := ApplyAll(db, EnqueueCommands(qkey, s));
      && r.err == Some(ResponseError)
      && qkey in r.db.entries && r.db.entries[qkey] == db.entries[qkey]
      && FetchOf(s.id, r.db) == Ok(Some(s.(status := Some(Queued))))
  {
    var cs := EnqueueCommands(qkey, s);
    ApplyThree(db, cs[0], cs[1], cs[2]);
    assert Apply(db, cs[0]) == Outcome(db, Some(ResponseError));
    PlaceThenRecord(db, qkey, s.(status := Some(Queued)));
  }

  /** `requeue_scheduled`: the job's `exec_info` with `scheduled_at`
      replaced (`{**job.exec_info, **schedule}` raises on None). */
  function Requeued(s: JobState, timestamp: int): (r: Result<JobState>)
    ensures s.execInfo.None? ==> r == Err(TypeError)
    ensures r.Ok? ==> r.value.execInfo.Some? && r.value.execInfo.value.scheduledAt == Some(timestamp)
    ensures r.Ok? ==> r.value.(execInfo := s.execInfo) == s
    ensures r.Ok? ==> r.value.execInfo.value.(scheduledAt := s.execInfo.value.scheduledAt) == s.execInfo.value
  {
    if s.execInfo.None? then Err(TypeError)
    else Ok(s.(execInfo := Some(s.execInfo.value.(scheduledAt := Some(timestamp)))))
  }

  /** Requeueing moves the id to its new score, leaving it in the sorted set
      once, and stores the record with only `scheduled_at` changed. */
  lemma RequeueStoresJob(db: Db, qkey: string, s: JobState, timestamp: int)
    requires Requeued(s, timestamp).Ok?
    requires s.id != qkey && (qkey !in db.entries || HoldsZSet(db, qkey))
    requires s.id !in db.entries || HoldsHash(db, s.id)
    ensures var q := Requeued(s, timestamp).value;
      var r := ApplyAll(db, [ZAdd(qkey, timestamp, s.id), HMSet(s.id, ToDict(q))]);
      && r.err.None?
      && HoldsZSet(r.db, qkey) && ScoresAt(r.db, qkey) == ScoresAt(db, qkey)[s.id := timestamp]
      && s.id in ScoresAt(r.db, qkey)
      && FetchOf(s.id, r.db) == Ok(Some(q))
  {
    var q := Requeued(s, timestamp).value;
    var ra := Apply(db, ZAdd(qkey, timestamp, s.id));
    ApplyTwo(db, ZAdd(qkey, timestamp, s.id), HMSet(s.id, ToDict(q)));
    assert ra.err.None? && (s.id !in ra.db.entries || HoldsHash(ra.db, s.id));
    FetchAfterHMSet(q, ra.db);
    var rb := Apply(ra.db, HMSet(s.id, ToDict(q)));
    assert rb.db.entries[qkey] == ra.db.entries[qkey];
  }

  /** Two commands in one transaction, one after the other. */
  lemma ApplyTwo(db: Db, a: Command, b: Command)
    ensures var ra := Apply(db, a); var rb := Apply(ra.db, b);
      ApplyAll(db, [a, b]) == Outcome(rb.db, if ra.err.Some? then ra.err else rb.err)
  {
    var ra := Apply(db, a);
    assert [b][1..] == [];
    assert ApplyAll(ra.db, [b]) == Apply(ra.db, b);
    assert [a, b][1..] == [b];
  }

  /** An immediate job enqueued on a queue with nothing waiting is what a
      dequeue from that queue pops and fetches, with status Queued. */
  lemma EnqueueDequeRoundTrip(db: Db, qkey: string, s: JobState)
    requires WellFormed(db) && s.execInfo.Some? && !TruthyInt(s.execInfo.value.scheduledAt)
    requires s.id !in db.entries && s.id != qkey && qkey !in db.entries
    ensures var e := ApplyAll(db, EnqueueCommands(qkey, s));
      var p := BLPopCmd(e.db, [qkey]);
      && e.err.None?
      && p.reply == Popped(qkey, s.id)
      && qkey !in p.db.entries
      && FetchOf(s.id, p.db) == Ok(Some(s.(status := Some(Queued))))
  {
    var e := ApplyAll(db, EnqueueCommands(qkey, s));
    EnqueueStoresJob(db, qkey, s);
    assert ListAt(e.db, qkey) == [s.id];
    var p := BLPopCmd(e.db, [qkey]);
    assert p.db == Remove(e.db, qkey);
    assert FieldsAt(p.db, s.id) == FieldsAt(e.db, s.id);
  }

  /** What `deque_any` comes back with: the fetched job (None for a popped
      id without a record), the error raised, or `WouldBlock` when every
      list is empty and BLPOP waits. */
  datatype Dequeued = WouldBlock | Fetched(job: Option<Job>) | Raised(error: Error)

  class Queue {
    const connection: Redis
    /** The queue's key, 'tq:queue:<name>' (the `name` property). */
    const name: string

    constructor(connection: Redis, name: string)
      ensures this.connection == connection && this.name == QueueKey(name)
    {
      this.connection := connection;
      this.name := QueueKey(name);
    }

    /** `add_job(pipe, job)`: buffer the placing command. */
    method AddJob(pipe: Pipeline, job: Job) returns (err: Option<Error>)
      modifies pipe
      ensures var a := AddCommand(name, job.State());
        && (a.Err? ==> err == Some(a.error) && pipe.commands == old(pipe.commands))
        && (a.Ok? ==> err.None? && pipe.commands == old(pipe.commands) + [a.value])
    {
      if job.execInfo.None? {
        return Some(AttributeError);
      }
      var at := job.execInfo.value.scheduledAt;
      if TruthyInt(at) {
        pipe.Add(ZAdd(name, at.value, job.id));
        return None;
      }
      pipe.Add(RPush(name, job.id));
      err := None;
    }

    /** `enqueue(...)`: create the job under `jobId` (the uuid4 the source
        draws) and send placement, status and record in one transaction. */
    method Enqueue(methodRef: Option<FuncRef>, args: Option<seq<Value>>, kwargs: Option<map<string, Value>>,
                   execInfo: Option<ExecInfo>, fallbackRef: Option<FuncRef>,
                   fallbackInfo: Option<ExecInfo>, jobId: string)
      returns (job: Job, err: Option<Error>)
      modifies connection
      ensures fresh(job) && job.connection == connection
      ensures var s := Created(jobId, methodRef, args, kwargs, fallbackRef, execInfo, fallbackInfo);
        && job.State() == s.(status := Some(Queued))
        && connection.db == ApplyAll(old(connection.db), EnqueueCommands(name, s)).db
        && err == ApplyAll(old(connection.db), EnqueueCommands(name, s)).err
    {
      job := Job.Create(jobId, methodRef, args, kwargs, connection, fallbackRef, execInfo, fallbackInfo);
      ghost var s := Created(jobId, methodRef, args, kwargs, fallbackRef, execInfo, fallbackInfo);
      var pipe := new Pipeline(connection);
      var _ := AddJob(pipe, job);
      assert pipe.commands == [AddCommand(name, s).value];
      var _ := job.SetStatus(Queued, pipe);
      assert pipe.commands == EnqueueCommands(name, s)[..2];
      err := job.Save(pipe);
      assert pipe.commands == [] && connection.db == ApplyAll(old(connection.db), EnqueueCommands(name, s)).db;
    }

    /** `deque_any(queues, connection)`: pop from the first non-empty queue,
        in the given order, and fetch the job whose id was popped. */
    static method DequeAny(queues: seq<Queue>, connection: Redis) returns (d: Dequeued)
      modifies connection
      ensures var p := BLPopCmd(old(connection.db), Keys(queues));
        && connection.db == p.db
        && (p.reply.Blocked? ==> d == WouldBlock)
        && (p.reply.PopFailed? ==> d == Raised(p.reply.error))
        && (p.reply.Popped? ==>
              var f := FetchOf(p.reply.value, p.db);
              && (f.Err? ==> d == Raised(f.error))
              && (f == Ok(None) ==> d == Fetched(None))
              && (f.Ok? && f.value.Some? ==>
                    && d.Fetched? && d.job.Some? && fresh(d.job.value)
                    && d.job.value.connection == connection && d.job.value.State() == f.value.value))
    {
      var reply := connection.BLPop(Keys(queues));
      match reply
      case Blocked => d := WouldBlock;
      case PopFailed(e) => d := Raised(e);
      case Popped(_, jobId) =>
        var r := Job.Fetch(jobId, connection);
        match r
        case Err(e) => d := Raised(e);
        case Ok(j) => d := Fetched(j);
    }

    /** `get_scheduled()`: the query time (`now`, the current UTC timestamp)
        and the ids whose score is in [0, now], in score order. */
    method GetScheduled(now: int) returns (queryAt: int, jobs: Result<seq<string>>)
      ensures queryAt == now
      ensures var due := ZRangeByScore(connection.db, name, 0, now);
        && (due.Err? ==> jobs == Err(ResponseError))
        && (due.Ok? ==> jobs.Ok? && forall k :: k in jobs.value <==> k in due.value)
      ensures jobs.Ok? ==> Distinct(jobs.value) && ByScore(jobs.value, ScoresAt(connection.db, name))
    {
      queryAt := now;
      jobs := connection.ZRangeByScoreOrdered(name, 0, now);
    }

    /** `requeue_scheduled(job, timestamp, pipeline)`: buffer the id at its
        new score, then save the job with the new `scheduled_at`, executing
        the pipeline. */
    method RequeueScheduled(job: Job, timestamp: int, pipe: Pipeline) returns (err: Option<Error>)
      requires pipe.store == connection && job.connection == connection
      modifies pipe, connection, job`execInfo
      ensures var q := Requeued(old(job.State()), timestamp);
        && (q.Err? ==>
              && err == Some(q.error) && job.State() == old(job.State())
              && connection.db == old(connection.db)
              && pipe.commands == old(pipe.commands) + [ZAdd(name, timestamp, job.id)])
        && (q.Ok? ==>
              var cs := old(pipe.commands) + [ZAdd(name, timestamp, job.id), HMSet(job.id, ToDict(q.value))];
              && job.State() == q.value
              && connection.db == ApplyAll(old(connection.db), cs).db
              && err == ApplyAll(old(connection.db), cs).err
              && pipe.commands == [])
    {
      pipe.Add(ZAdd(name, timestamp, job.id));
      if job.execInfo.None? {
        return Some(TypeError);
      }
      job.SetExecInfo(Some(job.execInfo.value.(scheduledAt := Some(timestamp))));
      assert job.State() == Requeued(old(job.State()), timestamp).value;
      assert Buffering(pipe);
      ghost var before := pipe.commands;
      err := job.Save(pipe);
      assert before + [HMSet(job.id, ToDict(job.State()))]
          == old(pipe.commands) + [ZAdd(name, timestamp, job.id), HMSet(job.id, ToDict(job.State()))];
    }

    /** `delete_scheduled(job_id, pipeline)`: drop the id from the sorted set,
        at once or buffered as `Send` decides. */
    method DeleteScheduled(jobId: string, pipe: Pipeline?) returns (err: Option<Error>)
      requires pipe != null ==> pipe.store == connection
      modifies connection, pipe
      ensures !old(Buffering(pipe)) ==>
        connection.db == Apply(old(connection.db), ZRem(name, jobId)).db
        && err == Apply(old(connection.db), ZRem(name, jobId)).err
      ensures !old(Buffering(pipe)) && pipe != null ==> pipe.commands == []
      ensures old(Buffering(pipe)) ==>
        connection.db == old(connection.db) && pipe.commands == old(pipe.commands) + [ZRem(name, jobId)] && err.None?
    {
      err := Send(connection, pipe, ZRem(name, jobId));
    }
  }

  /** `[queue.name for queue in queues]` */
  function Keys(queues: seq<Queue>): (ks: seq<string>)
    ensures |ks| == |queues| && forall i :: 0 <= i < |queues| ==> ks[i] == queues[i].name
  {
    seq(|queues|, i requires 0 <= i < |queues| => queues[i].name)
  }
}
