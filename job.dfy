/** The job record of tq/job.py: its fields, `create` defaults, the hash it
    is saved as, `refresh`/`fetch`, status, TTL and delete, `perform`, the
    lazily loaded result and the `exec_info` accessors. */
module Jobs {
  import opened Types
  import opened Store
  import Utils

  /** `job_ttl`: five hours. */
  const JobTtl: int := (60 * 60) * 5

  /** What the job's callable does when called: return a value or raise. */
  datatype CallOutcome = Returns(v: Value) | Raises

  /** The attributes of a `Job` object (the connection aside). */
  datatype JobState = JobState(
    id: string,
    methodRef: Option<FuncRef>,
    fallbackRef: Option<FuncRef>,
    args: Option<seq<Value>>,
    kwargs: Option<map<string, Value>>,
    result: Value,
    status: Option<JobStatus>,
    execInfo: Option<ExecInfo>,
    fbInfo: Option<ExecInfo>)

  /** `Job(job_id, connection)`: everything but the id is None. */
  function Blank(id: string): JobState {
    JobState(id, None, None, None, None, PyNone, None, None, None)
  }

  /** `Job.create(...)`: None arguments, keyword arguments, `exec_info`
      and fallback info become (), {}, {} and {}. */
  function Created(id: string, methodRef: Option<FuncRef>, args: Option<seq<Value>>,
                   kwargs: Option<map<string, Value>>, fallbackRef: Option<FuncRef>,
                   execInfo: Option<ExecInfo>, fallbackInfo: Option<ExecInfo>): (s: JobState)
    ensures s.id == id && s.methodRef == methodRef && s.fallbackRef == fallbackRef
    ensures s.args.Some? && s.kwargs.Some? && s.execInfo.Some? && s.fbInfo.Some?
    ensures args.Some? ==> s.args == args
    ensures args.None? ==> s.args == Some([])
    ensures kwargs.Some? ==> s.kwargs == kwargs
    ensures kwargs.None? ==> s.kwargs == Some(map[])
    ensures fallbackInfo.Some? ==> s.fbInfo == fallbackInfo
    ensures fallbackInfo.None? ==> s.fbInfo == Some(EmptyInfo)
    ensures execInfo.Some? ==> s.execInfo == execInfo
    ensures execInfo.None? ==> s.execInfo == Some(EmptyInfo)
    ensures s.status.None? && s.result == PyNone
  {
    JobState(id, methodRef, fallbackRef, Some(args.GetOr([])), Some(kwargs.GetOr(map[])),
             PyNone, None, Some(execInfo.GetOr(EmptyInfo)), Some(fallbackInfo.GetOr(EmptyInfo)))
  }

  /** `data()`: the pickled tuple of the job's immutable parts. */
  function Data(s: JobState): Field {
    Blob(PData(s.args, s.kwargs, s.methodRef, s.fallbackRef, s.execInfo, s.fbInfo))
  }

  /** `to_dict()`: the hash a job is saved as. */
  function ToDict(s: JobState): (h: map<string, Field>)
    ensures h.Keys == {"id", "data", "result", "state"}
  {
    map["id" := Text(s.id), "data" := Data(s), "result" := Blob(PValue(s.result)),
        "state" := Blob(PStatus(s.status))]
  }

  /** The job after `refresh()` from the hash read, and what refresh
      returned: True, None (here `false`) for an empty hash, or the error
      raised. Fields are assigned in the source's order, so an error leaves
      the earlier ones updated. */
  datatype Refreshed = Refreshed(state: JobState, found: Result<bool>)

  function RefreshOf(s: JobState, read: Result<map<string, Field>>): (r: Refreshed)
    ensures read.Err? ==> r == Refreshed(s, Err(read.error))
    ensures read == Ok(map[]) ==> r == Refreshed(s, Ok(false))
    ensures r.found.Ok? && read.Ok? ==> (r.found.value <==> read.value != map[])
  {
    if read.Err? then Refreshed(s, Err(read.error))
    else
      var h := read.value;
      if h == map[] then Refreshed(s, Ok(false))
      else if "data" !in h then Refreshed(s, Err(KeyError))
      else if !(h["data"].Blob? && h["data"].pickle.PData?) then Refreshed(s, Err(DecodeError))
      else
        var d := h["data"].pickle;
        var s1 := s.(args := d.args, kwargs := d.kwargs, methodRef := d.methodRef,
                     fallbackRef := d.fallbackRef, execInfo := d.execInfo, fbInfo := d.fbInfo);
        if "id" !in h then Refreshed(s1, Err(KeyError))
        else if !h["id"].Text? then Refreshed(s1, Err(DecodeError))
        else
          var s2 := s1.(id := h["id"].text);
          if "result" !in h then Refreshed(s2, Err(KeyError))
          else if !(h["result"].Blob? && h["result"].pickle.PValue?) then Refreshed(s2, Err(DecodeError))
          else
            var s3 := s2.(result := h["result"].pickle.v);
            if "state" !in h then Refreshed(s3, Err(KeyError))
            else if !(h["state"].Blob? && h["state"].pickle.PStatus?) then Refreshed(s3, Err(DecodeError))
            else Refreshed(s3.(status := h["state"].pickle.status), Ok(true))
  }

  /** Save then refresh: whatever the job held before and whatever other
      fields the hash has, refreshing from a hash that `save` wrote gives
      back exactly the saved job. */
  lemma SaveRefreshRoundTrip(saved: JobState, before: JobState, other: map<string, Field>)
    ensures RefreshOf(before, Ok(other + ToDict(saved))) == Refreshed(saved, Ok(true))
  {
    var h := other + ToDict(saved);
    assert h["data"] == Data(saved) && h["id"] == Text(saved.id);
    assert h["result"] == Blob(PValue(saved.result)) && h["state"] == Blob(PStatus(saved.status));
  }

  /** `Job.fetch(key)`: a blank job refreshed from the store; None when there
      is no hash under the key. */
  function FetchOf(key: string, db: Db): Result<Option<JobState>> {
    var r := RefreshOf(Blank(key), HGetAll(db, key));
    match r.found
    case Err(e) => Err(e)
    case Ok(found) => if found then Ok(Some(r.state)) else Ok(None)
  }

  /** Fetch finds nothing exactly when the store holds nothing under the id
      (and fails when the key holds a list or a sorted set). */
  lemma FetchNoneIffMissing(key: string, db: Db)
    requires WellFormed(db)
    ensures FetchOf(key, db) == Ok(None) <==> key !in db.entries
    ensures FetchOf(key, db).Err? && HGetAll(db, key).Ok? ==> key in db.entries
    ensures key in db.entries && !HoldsHash(db, key) ==> FetchOf(key, db) == Err(ResponseError)
  {
  }

  /** HMSET of a job's record into a key that is free or already a hash
      succeeds, and fetching the key then gives the job back unchanged. */
  lemma FetchAfterHMSet(s: JobState, db: Db)
    requires s.id !in db.entries || HoldsHash(db, s.id)
    ensures var r := Apply(db, HMSet(s.id, ToDict(s)));
      r.err.None? && FetchOf(s.id, r.db) == Ok(Some(s))
  {
    var r := Apply(db, HMSet(s.id, ToDict(s)));
    assert r == HSetCmd(db, s.id, ToDict(s));
    assert "id" in ToDict(s);
    SaveRefreshRoundTrip(s, Blank(s.id), FieldsAt(db, s.id));
  }

  /** A job saved into a store that has no other value under its id is
      fetched back unchanged. */
  lemma SaveFetchRoundTrip(s: JobState, db: Db)
    requires s.id !in db.entries || HoldsHash(db, s.id)
    ensures var saved := ApplyAll(db, [HMSet(s.id, ToDict(s))]);
      saved.err.None? && FetchOf(s.id, saved.db) == Ok(Some(s))
  {
    var cs := [HMSet(s.id, ToDict(s))];
    assert cs[1..] == [];
    FetchAfterHMSet(s, db);
  }

  /** The job's hash is exactly the record `save` writes for `s`. */
  predicate StoredAs(db: Db, s: JobState) {
    HoldsHash(db, s.id) && FieldsAt(db, s.id) == ToDict(s)
  }

  /** A stored record is fetched back as it was saved. */
  lemma StoredFetch(db: Db, s: JobState)
    requires StoredAs(db, s)
    ensures FetchOf(s.id, db) == Ok(Some(s))
    ensures forall before :: RefreshOf(before, HGetAll(db, s.id)) == Refreshed(s, Ok(true))
  {
    assert map[] + ToDict(s) == ToDict(s);
    forall before ensures RefreshOf(before, HGetAll(db, s.id)) == Refreshed(s, Ok(true)) {
      SaveRefreshRoundTrip(s, before, map[]);
    }
  }

  /** `perform(run_fallback)`: with a fallback requested and set, the source
      reads `self.fb_info`, an attribute no Job has. Otherwise it calls
      `method(*args, **kwargs)`, which raises if any of them is None. */
  function PerformOf(s: JobState, runFallback: bool, outcome: CallOutcome): (r: Result<Value>)
    ensures runFallback && s.fallbackRef.Some? ==> r == Err(AttributeError)
    ensures r.Ok? ==> outcome == Returns(r.value) && !(runFallback && s.fallbackRef.Some?)
    ensures !(runFallback && s.fallbackRef.Some?) && s.methodRef.Some? && s.args.Some? && s.kwargs.Some?
      ==> r == (if outcome.Returns? then Ok(outcome.v) else Err(JobRaised))
    ensures !(runFallback && s.fallbackRef.Some?) && (s.methodRef.None? || s.args.None? || s.kwargs.None?)
      ==> r == Err(TypeError)
  {
    if runFallback && s.fallbackRef.Some? then Err(AttributeError)
    else if s.methodRef.None? || s.args.None? || s.kwargs.None? then Err(TypeError)
    else
      match outcome
      case Returns(v) => Ok(v)
      case Raises => Err(JobRaised)
  }

  /** The `exec_info` dictionary, for the accessors (`self._exec_info.get`
      raises AttributeError on None). */
  function InfoOf(s: JobState): Result<ExecInfo> {
    if s.execInfo.None? then Err(AttributeError) else Ok(s.execInfo.value)
  }

  /** `reschedulable`: a truthy `every_hour`, or any `days` list at all, or
      more than one timeslot. `len(self.timeslots)` is evaluated whenever
      `every_hour` is falsy, so a missing timeslot list raises even when
      `days` is present. */
  function Reschedulable(s: JobState): (r: Result<bool>)
    ensures s.execInfo.None? ==> r == Err(AttributeError)
    ensures s.execInfo.Some? && TruthyInt(s.execInfo.value.everyHour) ==> r == Ok(true)
    ensures s.execInfo.Some? && !TruthyInt(s.execInfo.value.everyHour) ==>
      var info := s.execInfo.value;
      if info.timeslots.None? then r == Err(TypeError)
      else r == Ok(info.days.Some? || |info.timeslots.value| > 1)
  {
    match InfoOf(s)
    case Err(e) => Err(e)
    case Ok(info) =>
      if TruthyInt(info.everyHour) then Ok(true)
      else if info.timeslots.None? then Err(TypeError)
      else Ok(info.days.Some? || |info.timeslots.value| > 1)
  }

  /** A single date at a single slot runs once; a days list, even of one
      day or of none at all, recurs. */
  lemma ReschedulableExamples(s: JobState, day: int, slot: string)
    requires s.execInfo.Some? && !TruthyInt(s.execInfo.value.everyHour)
    ensures var info := s.execInfo.value;
      && Reschedulable(s.(execInfo := Some(info.(date := Some(day), days := None, timeslots := Some([slot]))))) == Ok(false)
      && Reschedulable(s.(execInfo := Some(info.(days := Some([0, 1]), timeslots := Some([slot]))))) == Ok(true)
      && Reschedulable(s.(execInfo := Some(info.(days := Some([3]), timeslots := Some([slot]))))) == Ok(true)
      && Reschedulable(s.(execInfo := Some(info.(days := Some([]), timeslots := Some([slot]))))) == Ok(true)
  {
  }

  /** `should_run_fallback(query_at, job)` on a job record. */
  function ShouldRunFallbackOf(tsNow: int, s: JobState): Result<bool> {
    match InfoOf(s)
    case Err(e) => Err(e)
    case Ok(info) => Utils.ShouldRunFallback(tsNow, info)
  }

  /** `get_next_ts(job)` on a job record. */
  function NextTsOf(s: JobState, now: int): Result<Option<int>> {
    match InfoOf(s)
    case Err(e) => Err(e)
    case Ok(info) => Utils.GetNextTs(info, now)
  }

  /** The `result` property: the cached value if truthy; otherwise the
      stored 'result' field, cached when present (Redis returns non-empty
      bytes for a pickle). The new cached value and what is returned. */
  datatype Loaded = Loaded(cache: Value, r: Result<Value>)

  function ResultOf(s: JobState, read: Result<Option<Field>>): (l: Loaded)
    ensures Truthy(s.result) ==> l == Loaded(s.result, Ok(s.result))
    ensures l.r.Ok? ==> l.r.value == l.cache
    ensures !Truthy(s.result) && read.Ok? && read.value.None? ==> l == Loaded(s.result, Ok(s.result))
    ensures (!Truthy(s.result) && read.Ok? && read.value.Some? && read.value.value.Blob?
             && read.value.value.pickle.PValue?) ==> l == Loaded(read.value.value.pickle.v, Ok(read.value.value.pickle.v))
  {
    if Truthy(s.result) then Loaded(s.result, Ok(s.result))
    else if read.Err? then Loaded(s.result, Err(read.error))
    else if read.value.None? || read.value.value == Text("") then Loaded(s.result, Ok(s.result))
    else if !(read.value.value.Blob? && read.value.value.pickle.PValue?) then Loaded(s.result, Err(DecodeError))
    else Loaded(read.value.value.pickle.v, Ok(read.value.value.pickle.v))
  }

  /** A job object, bound to the connection it was created or fetched with. */
  class Job {
    var id: string
    var methodRef: Option<FuncRef>
    var fallbackRef: Option<FuncRef>
    var args: Option<seq<Value>>
    var kwargs: Option<map<string, Value>>
    var result: Value
    var status: Option<JobStatus>
    var execInfo: Option<ExecInfo>
    var fbInfo: Option<ExecInfo>
    const connection: Redis

    function State(): JobState
      reads this
    {
      JobState(id, methodRef, fallbackRef, args, kwargs, result, status, execInfo, fbInfo)
    }

    /** `Job(job_id, connection)` */
    constructor(jobId: string, connection: Redis)
      ensures State() == Blank(jobId) && this.connection == connection
    {
      id := jobId;
      methodRef, fallbackRef := None, None;
      args, kwargs := None, None;
      result, status := PyNone, None;
      execInfo, fbInfo := None, None;
      this.connection := connection;
    }

    /** `Job.create(...)`; nothing is stored. */
    static method Create(jobId: string, methodRef: Option<FuncRef>, args: Option<seq<Value>>,
                         kwargs: Option<map<string, Value>>, connection: Redis,
                         fallbackRef: Option<FuncRef>, execInfo: Option<ExecInfo>,
                         fallbackInfo: Option<ExecInfo>)
      returns (job: Job)
      ensures fresh(job) && job.connection == connection
      ensures job.State() == Created(jobId, methodRef, args, kwargs, fallbackRef, execInfo, fallbackInfo)
    {
      job := new Job(jobId, connection);
      job.methodRef := methodRef;
      job.fallbackRef := fallbackRef;
      job.args := Some(args.GetOr([]));
      job.kwargs := Some(kwargs.GetOr(map[]));
      job.execInfo := Some(execInfo.GetOr(EmptyInfo));
      job.fbInfo := Some(fallbackInfo.GetOr(EmptyInfo));
    }

    /** The copy of the job a forked child process works on. */
    method Copy() returns (c: Job)
      ensures fresh(c) && c.State() == State() && c.connection == connection
    {
      c := new Job(id, connection);
      c.methodRef, c.fallbackRef, c.args, c.kwargs := methodRef, fallbackRef, args, kwargs;
      c.result, c.status, c.execInfo, c.fbInfo := result, status, execInfo, fbInfo;
    }

    /** `resolve_data(dump)`: unpickle the data tuple into the job. */
    method ResolveData(dump: Field) returns (err: Option<Error>)
      modifies this
      ensures !(dump.Blob? && dump.pickle.PData?) ==> err == Some(DecodeError) && State() == old(State())
      ensures dump.Blob? && dump.pickle.PData? ==> err.None?
      ensures dump.Blob? && dump.pickle.PData? ==>
        State() == old(State()).(args := dump.pickle.args, kwargs := dump.pickle.kwargs,
          methodRef := dump.pickle.methodRef, fallbackRef := dump.pickle.fallbackRef,
          execInfo := dump.pickle.execInfo, fbInfo := dump.pickle.fbInfo)
    {
      if !(dump.Blob? && dump.pickle.PData?) {
        return Some(DecodeError);
      }
      var d := dump.pickle;
      args, kwargs, methodRef, fallbackRef, execInfo, fbInfo :=
        d.args, d.kwargs, d.methodRef, d.fallbackRef, d.execInfo, d.fbInfo;
      err := None;
    }

    /** `refresh()`: reload data, id, result and status from the hash; an
        empty hash leaves the job alone and answers None. */
    method Refresh() returns (found: Result<bool>)
      modifies this
      ensures var r := RefreshOf(old(State()), HGetAll(connection.db, old(id)));
        State() == r.state && found == r.found
    {
      var read := HGetAll(connection.db, id);
      if read.Err? {
        return Err(read.error);
      }
      var h := read.value;
      if h == map[] {
        return Ok(false);
      }
      if "data" !in h {
        return Err(KeyError);
      }
      var e := ResolveData(h["data"]);
      if e.Some? {
        return Err(e.value);
      }
      if "id" !in h {
        return Err(KeyError);
      }
      if !h["id"].Text? {
        return Err(DecodeError);
      }
      id := h["id"].text;
      if "result" !in h {
        return Err(KeyError);
      }
      if !(h["result"].Blob? && h["result"].pickle.PValue?) {
        return Err(DecodeError);
      }
      result := h["result"].pickle.v;
      if "state" !in h {
        return Err(KeyError);
      }
      if !(h["state"].Blob? && h["state"].pickle.PStatus?) {
        return Err(DecodeError);
      }
      status := h["state"].pickle.status;
      found := Ok(true);
    }

    /** `Job.fetch(key, connection)` */
    static method Fetch(key: string, connection: Redis) returns (r: Result<Option<Job>>)
      ensures var f := FetchOf(key, connection.db);
        && (r.Err? <==> f.Err?)
        && (r.Err? ==> r.error == f.error)
        && (r.Ok? ==> (r.value.Some? <==> f.value.Some?))
        && (r.Ok? && r.value.Some? ==>
              fresh(r.value.value) && r.value.value.connection == connection
              && r.value.value.State() == f.value.value)
    {
      var job := new Job(key, connection);
      var found := job.Refresh();
      match found
      case Err(e) => r := Err(e);
      case Ok(b) => r := if b then Ok(Some(job)) else Ok(None);
    }

    /** `set_status(status, pipeline)`: writes `status` to the 'state' field
        but leaves the object's own status Queued, whatever `status` is. */
    method SetStatus(s: JobStatus, pipe: Pipeline?) returns (err: Option<Error>)
      requires pipe != null ==> pipe.store == connection
      modifies this, connection, pipe
      ensures var c := HSet(id, "state", Blob(PStatus(Some(s))));
        && (!old(Buffering(pipe)) ==> connection.db == Apply(old(connection.db), c).db && err == Apply(old(connection.db), c).err)
        && (!old(Buffering(pipe)) && pipe != null ==> pipe.commands == [])
        && (old(Buffering(pipe)) ==> connection.db == old(connection.db) && pipe.commands == old(pipe.commands) + [c] && err.None?)
      ensures State() == if err.None? then old(State()).(status := Some(Queued)) else old(State())
    {
      err := Send(connection, pipe, HSet(id, "state", Blob(PStatus(Some(s)))));
      if err.Some? {
        return;
      }
      status := Some(Queued);
    }

    /** `expire(pipeline)`: a five-hour TTL on the job's key. */
    method Expire(pipe: Pipeline?) returns (err: Option<Error>)
      requires pipe != null ==> pipe.store == connection
      modifies connection, pipe
      ensures var c := Store.Expire(id, JobTtl);
        && (!old(Buffering(pipe)) ==> connection.db == Apply(old(connection.db), c).db && err == Apply(old(connection.db), c).err)
        && (!old(Buffering(pipe)) && pipe != null ==> pipe.commands == [])
        && (old(Buffering(pipe)) ==> connection.db == old(connection.db) && pipe.commands == old(pipe.commands) + [c] && err.None?)
    {
      err := Send(connection, pipe, Store.Expire(id, JobTtl));
    }

    /** `delete(pipeline)`: remove the job's key. */
    method Delete(pipe: Pipeline?) returns (err: Option<Error>)
      requires pipe != null ==> pipe.store == connection
      modifies connection, pipe
      ensures var c := Store.Delete(id);
        && (!old(Buffering(pipe)) ==> connection.db == Apply(old(connection.db), c).db && err == Apply(old(connection.db), c).err)
        && (!old(Buffering(pipe)) && pipe != null ==> pipe.commands == [])
        && (old(Buffering(pipe)) ==> connection.db == old(connection.db) && pipe.commands == old(pipe.commands) + [c] && err.None?)
    {
      err := Send(connection, pipe, Store.Delete(id));
    }

    /** `save(pipeline)`: HMSET the whole record, then execute the pipeline,
        so commands buffered before it run too. A missing or empty pipeline
        is replaced by a fresh one. */
    method Save(pipe: Pipeline?) returns (err: Option<Error>)
      requires pipe != null ==> pipe.store == connection
      modifies connection, pipe
      ensures var cs := (if old(Buffering(pipe)) then old(pipe.commands) else []) + [HMSet(id, ToDict(State()))];
        connection.db == ApplyAll(old(connection.db), cs).db && err == ApplyAll(old(connection.db), cs).err
      ensures pipe != null ==> pipe.commands == []
    {
      var p := pipe;
      if !Buffering(p) {
        p := new Pipeline(connection);
      }
      p.Add(HMSet(id, ToDict(State())));
      err := p.Run();
    }

    /** `perform(run_fallback)`: call the callable and cache what it returns. */
    method Perform(runFallback: bool, outcome: CallOutcome) returns (r: Result<Value>)
      modifies this`result
      ensures r == PerformOf(old(State()), runFallback, outcome)
      ensures State() == if r.Ok? then old(State()).(result := r.value) else old(State())
    {
      if runFallback && fallbackRef.Some? {
        return Err(AttributeError);
      }
      if methodRef.None? || args.None? || kwargs.None? {
        return Err(TypeError);
      }
      match outcome
      case Returns(v) =>
        result := v;
        r := Ok(v);
      case Raises =>
        r := Err(JobRaised);
    }

    /** The `result` property. */
    method GetResult() returns (r: Result<Value>)
      modifies this`result
      ensures var l := ResultOf(old(State()), HGet(connection.db, id, "result"));
        r == l.r && State() == old(State()).(result := l.cache)
    {
      if Truthy(result) {
        return Ok(result);
      }
      var read := HGet(connection.db, id, "result");
      if read.Err? {
        return Err(read.error);
      }
      if read.value.None? || read.value.value == Text("") {
        return Ok(result);
      }
      var f := read.value.value;
      if !(f.Blob? && f.pickle.PValue?) {
        return Err(DecodeError);
      }
      result := f.pickle.v;
      r := Ok(result);
    }

    /** The `ran_at` setter: `self._exec_info['ran_at'] = value`. */
    method SetRanAt(ranAt: int) returns (err: Option<Error>)
      modifies this`execInfo
      ensures old(execInfo).None? ==> err == Some(TypeError) && State() == old(State())
      ensures old(execInfo).Some? ==> err.None?
      ensures old(execInfo).Some? ==>
        State() == old(State()).(execInfo := Some(old(execInfo).value.(ranAt := Some(ranAt))))
    {
      if execInfo.None? {
        return Some(TypeError);
      }
      execInfo := Some(execInfo.value.(ranAt := Some(ranAt)));
      err := None;
    }

    /** The `exec_info` setter. */
    method SetExecInfo(info: Option<ExecInfo>)
      modifies this`execInfo
      ensures State() == old(State()).(execInfo := info)
    {
      execInfo := info;
    }
  }
}
