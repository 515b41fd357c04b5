/** Shared values of the job queue: Python's None as Option, raised
    exceptions as Result, the opaque values a job carries, its status, and
    the schedule metadata dictionary `exec_info`. */
module Types {

  datatype Option<+T> = None | Some(value: T) {
    function GetOr(default: T): T {
      match this
      case Some(v) => v
      case None => default
    }
  }

  /** The exceptions the modelled code can raise, by Python class. */
  datatype Error =
    | KeyError          // d['k'] on a missing key
    | IndexError        // xs[i] out of range
    | ValueError        // int('x'), time(hour=25)
    | TypeError         // None used as a number, a list or a callable
    | AttributeError    // an attribute of None, or Job.fb_info (never defined)
    | UnknownTimeZone   // pytz.timezone(None)
    | ResponseError     // a Redis error reply (WRONGTYPE, wrong number of arguments)
    | DecodeError       // a stored field that does not unpickle to what is expected
    | JobRaised         // the job's own callable raised

  datatype Result<+T> = Ok(value: T) | Err(error: Error)

  /** Arguments, keyword arguments and return values of job callables. */
  datatype Value = PyNone | PyInt(i: int) | PyStr(s: string)

  /** Python truthiness of a value. */
  predicate Truthy(v: Value) {
    match v
    case PyNone => false
    case PyInt(i) => i != 0
    case PyStr(s) => s != ""
  }

  /** Python truthiness of an optional integer (`if job.every_hour:`). */
  predicate TruthyInt(x: Option<int>) {
    x.Some? && x.value != 0
  }

  /** A reference to a callable: opaque, and always truthy. */
  type FuncRef = string

  datatype JobStatus = Queued | Finished

  /** The `exec_info` dictionary. A key that is absent and a key bound to
      None are both `None` here. `date` is a day number (days since
      1970-01-01), `timezone` a fixed offset from UTC in seconds, `days`
      Monday=0 weekday numbers, `timeslots` 'HH:MM' strings. */
  datatype ExecInfo = ExecInfo(
    scheduledAt: Option<int>,
    date: Option<int>,
    days: Option<seq<int>>,
    timeslots: Option<seq<string>>,
    timezone: Option<int>,
    everyHour: Option<int>,
    ranAt: Option<int>)

  /** `{}` */
  const EmptyInfo: ExecInfo := ExecInfo(None, None, None, None, None, None, None)

  /** What pickle.dumps can produce in this model; the encoding is the
      constructor and decoding is pattern matching, so it is injective. */
  datatype Pickled =
    | PData(args: Option<seq<Value>>, kwargs: Option<map<string, Value>>,
            methodRef: Option<FuncRef>, fallbackRef: Option<FuncRef>,
            execInfo: Option<ExecInfo>, fbInfo: Option<ExecInfo>)
    | PValue(v: Value)
    | PStatus(status: Option<JobStatus>)

  /** A field of a job hash in the store: plain text (the id) or a pickle. */
  datatype Field = Text(text: string) | Blob(pickle: Pickled)
}
