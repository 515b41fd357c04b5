# tq — a Redis-backed job queue, modelled in Dafny

tq stores each job as a Redis hash under its id. The hash holds `id`,
`data`, `result` and `state`; `data` is a pickled tuple of the callable,
its arguments, the fallback and the two schedule dictionaries. A job is
queued by its id:

- an immediate job is pushed onto the list `tq:queue:<name>`;
- a scheduled job is added to the sorted set of the same name, scored by
  its due timestamp.

A `Worker` pops ids from its lists with BLPOP. It forks, and the child
calls the job and then writes state Finished and the whole record.

A `ScheduledWorker` polls its sorted set for ids that are due. For each
one it:

1. fetches the job;
2. decides whether the job is more than five minutes late, in which case
   the fallback should run;
3. runs the job in a child;
4. refreshes the job;
5. computes the next run.

It requeues the job when it is reschedulable (an hourly job, or one with
scheduled weekdays or several time slots) and `get_next_ts` gives a next
run. Otherwise it removes the job from the set and sets a five-hour TTL
on the record. An error in either computation ends the worker: an hourly
job that has never run raises TypeError (`NextTsHourlyWithoutRanAt`). A `FailedWorker` is the same worker
polling every 30 seconds.

The model has six modules:

- `Types`: values, errors and the schedule dictionary (`ExecInfo`).
- `Utils` (tq/utils.py): the time calculator, as pure functions.
- `Store`: the part of Redis tq uses. It is a typed keyspace with lists,
  sorted sets, hashes and TTLs, with `Redis` and `Pipeline` classes.
- `Jobs` (tq/job.py): the job record as a value, with the `Job` class
  around it.
- `Que` (tq/que.py): the `Queue` class.
- `Workers` (tq/worker.py): `Worker` and `ScheduledWorker` as classes.
  Each loop step is specified by a function over the store.

Time and dates:

- A date is a day number. Day 0 is 1 January 1970, a Thursday.
- A timezone is a fixed UTC offset in seconds.
- "Now" is always a parameter.

Three behaviours of the source are modelled as written, and lemmas state
them:

- `set_status` always resets the in-memory status to Queued. As a result,
  a successful run leaves its record in state Queued, not Finished
  (`PerformJobLeavesQueued`).
- A late job that has a fallback reads `fb_info`, which `Job` never
  defines, so that run always fails (`PerformJobFailureWritesNothing`).
- `next_runtime` is computed from the `ran_at` stored before the run,
  not from the poll time that the requeue then stores as `ran_at`
  (`NextRuntimeUsesPreviousRanAt`).

Three further points:

- `reschedulable` accepts any weekday list, even an empty one
  (`ReschedulableExamples`).
- `get_next_ts` never checks whether today is a scheduled weekday
  (`NextTsBySlots`).
- When no slot is left today, `_get_next_ts` takes the first slot as
  given, not the smallest (`FirstGivenSlotNotSmallest`).

## Model

| member | source | states |
|---|---|---|
| Utils.Ts | tq/utils.py:51-52 | `timegm` of a date and a time of day. It has no contract of its own; stated by `TsDecompose` and `LocalClockSplit`. |
| Utils.TsDecompose | tq/utils.py:51-52 | For a time of day in 0..86399, the date and the time are recovered from the timestamp by division and remainder. |
| Utils.LocalClockSplit | tq/utils.py:51-52 | Splitting an instant into local date and time of day and converting back to UTC gives the instant again. |
| Utils.ShouldRunFallback | tq/utils.py:55-57 | The fallback runs exactly when the poll time is more than 300 s after `scheduled_at`. A missing `scheduled_at` raises TypeError. |
| Utils.FallbackThresholdIsStrict | tq/utils.py:7-57 | Exactly 300 s late does not trigger the fallback; 301 s late does. |
| Utils.GetHourOffset | tq/utils.py:60-69 | Fails with TypeError exactly when `every_hour`, `ran_at` or `scheduled_at` is missing. |
| Utils.HourOffsetShape | tq/utils.py:60-69 | The offset is a whole number of hours and at least `every_hour` hours. It is exactly `every_hour` hours when the job ran at most 5 minutes late. Otherwise it adds the whole hours of lateness, truncated. |
| Utils.HourOffsetExample | tq/utils.py:60-69 | A two-hourly job that ran 3 h 10 min late gets an offset of 5 hours. |
| Utils.ToWeekdays | tq/utils.py:72-73 | Succeeds exactly when every name is a weekday name, and maps each name in place. Otherwise it raises KeyError. |
| Utils.ToWeekdaysInRange | tq/utils.py:13-21 | Every converted weekday lies in 0..6. |
| Utils.SplitJoin | tq/utils.py:86 | `split(':')` loses nothing: joining the fields gives the string back, and no field contains ':'. |
| Utils.ParseFields | tq/utils.py:86 | The list comprehension of `int()` succeeds exactly when every field parses, keeping order and length. Otherwise it raises ValueError. |
| Utils.MakeTime | tq/utils.py:84-87 | A parsed time is a whole minute of the day. |
| Utils.MakeTimeOfHourMinute | tq/utils.py:84-87 | "HH:MM" gives HH hours plus MM minutes. |
| Utils.MakeTimeIgnoresExtraFields | tq/utils.py:84-87 | Integer fields after the minutes are parsed, then ignored. |
| Utils.MakeTimeRejectsNonIntegerField | tq/utils.py:86 | A non-integer field in any position makes `make_time` raise ValueError. |
| Utils.MakeTimeCases | tq/utils.py:84-87 | For any string: a non-integer field raises ValueError, and fewer than two fields raise IndexError. An hour outside 0..23 or a minute outside 0..59 raises ValueError. Otherwise the time is the first field in hours plus the second in minutes. |
| Utils.MakeTimeOneDigitHour | tq/utils.py:84-87 | "9:05" parses to 9 hours 5 minutes, like "09:05". |
| Utils.Sort | tq/utils.py:91 | `sorted` gives an ascending permutation of its input. |
| Utils.SortedPermutationUnique | tq/utils.py:91 | Two ascending permutations of the same list are equal. |
| Utils.MakeTimes | tq/utils.py:91 | `map(make_time, …)` succeeds exactly when every slot parses, slot by slot. A failure carries the error of some failing slot. |
| Utils.SortedSlots | tq/utils.py:90-91 | Succeeds exactly when every slot parses. The result is the parsed slots in ascending order, as a permutation. |
| Utils.IndexOf | tq/utils.py:105 | `list.index` gives the first position holding the value. |
| Utils.GetNextDay | tq/utils.py:94-118 | Raises IndexError exactly on an empty day list. |
| Utils.GetNextDayAdvances | tq/utils.py:94-118 | With weekdays in 0..6, the next date is 1 to 7 days later, and falls on the weekday at the chosen index. |
| Utils.NextDayIndexCases | tq/utils.py:99-108 | If the last weekday is not listed, the list's first day is chosen. Otherwise the day after its first occurrence is chosen, wrapping to the start. |
| Utils.SingleDayNextWeek | tq/utils.py:110-118 | A job scheduled only on today's weekday next runs exactly 7 days later. |
| Utils.FirstSlotAfter | tq/utils.py:132-136 | Finds a slot exactly when some slot is later than the local time now. The slot found is one of them. |
| Utils.FirstSlotAfterIsLeast | tq/utils.py:127-136 | On sorted slots, the slot found is the earliest later one. |
| Utils.NextTimeslot | tq/utils.py:121-138 | `next_timeslot`. It has no contract of its own; stated by `NextTimeslotNone` and `NextTimeslotSome`. |
| Utils.NextTimeslotNone | tq/utils.py:121-138 | Returns None exactly when no slot is later than the local time now. |
| Utils.NextTimeslotSome | tq/utils.py:121-138 | Otherwise returns today's earliest later slot, converted to UTC. It lies within the next 24 hours. |
| Utils.NextDayAtFirstSlot | tq/utils.py:141-147 | On success, the result falls on the next listed day after today's local date, at the local time of the first slot as given. Without a day list it raises TypeError, and an empty day list raises IndexError. With days but no slot list it raises TypeError, and an empty slot list raises IndexError. An unparsable first slot passes its error on. |
| Utils.FirstGivenSlotNotSmallest | tq/utils.py:141-177 | A Monday-and-Wednesday job at ["17:00", "09:00"], asked on a Monday at 18:00 UTC, first runs on Wednesday at 17:00, not 09:00. |
| Utils.SlotsExampleParse | tq/utils.py:84-91 | In that example, "17:00" and "09:00" parse to 17 and 9 hours, in the given order. |
| Utils.ExampleSlotsPassed | tq/utils.py:121-138 | In that example, no slot is left on the Monday. |
| Utils.ExampleNextDay | tq/utils.py:141-147 | In that example, `_get_next_ts` gives Wednesday at the first given slot. |
| Utils.GetScheduledAt | tq/utils.py:150-177 | `get_scheduled_at`. It has no contract of its own; stated by `ScheduledAtOnDate`, `ScheduledAtWithoutDate` and `FirstGivenSlotNotSmallest`. |
| Utils.ScheduledAtOnDate | tq/utils.py:150-165 | A job with a date runs on that date at its earliest slot. |
| Utils.ScheduledAtWithoutDate | tq/utils.py:168-177 | Without a date, the job runs at today's next slot if today is a listed weekday and a slot remains. Otherwise it runs on the next listed day at the unsorted first slot. |
| Utils.GetNextTs | tq/utils.py:180-198 | `get_next_ts`. It has no contract of its own; stated by `NextTsHourly`, `NextTsHourlyWithoutRanAt` and `NextTsBySlots`. |
| Utils.NextTsHourly | tq/utils.py:180-187 | An hourly job next runs at `scheduled_at` plus the hour offset. |
| Utils.NextTsHourlyWithoutRanAt | tq/utils.py:60-63 | An hourly job that has never run raises TypeError. |
| Utils.NextTsBySlots | tq/utils.py:189-198 | A slot job next runs at today's next slot if one remains, without a weekday check. Otherwise a dated job gets today's value back unchanged: None, or a slot at epoch 0. An undated job runs on the next listed day. |
| Store.RPushCmd | tq/que.py:34 | RPUSH appends the id, or fails with WRONGTYPE on a key of another type. No other key changes. |
| Store.ZAddCmd | tq/que.py:32 | ZADD sets the member's score, or fails with WRONGTYPE. No other key changes. The same command requeues at tq/que.py:60. |
| Store.ZRemCmd | tq/que.py:69-71 | ZREM drops the member, or fails with WRONGTYPE. No other key changes. |
| Store.HSetCmd | tq/job.py:85-87 | HSET/HMSET merge the fields into the hash, or fail with WRONGTYPE. No other key changes. |
| Store.ExpireCmd | tq/job.py:90-92 | EXPIRE sets a TTL on an existing key, and never fails. |
| Store.HGetAll | tq/job.py:71-76 | HGETALL gives the hash's fields. It is empty exactly when the key is absent. |
| Store.HGet | tq/job.py:122-125 | HGET gives the field exactly when the hash has it. |
| Store.ZRangeByScore | tq/que.py:53 | ZRANGEBYSCORE gives exactly the members whose score lies in the range. |
| Store.Redis.ZRangeByScoreOrdered | tq/que.py:53 | Lists those members once each, ascending by score. |
| Store.Redis.BLPop | tq/que.py:41 | The connection's BLPOP: the new keyspace and the reply are those of `BLPopCmd`, which `BLPopCases` and `BLPopTakesFirstHead` state. |
| Store.BLPopCases | tq/que.py:41 | BLPOP waits exactly when no listed key is present. It fails with WRONGTYPE exactly when the key list is empty or the first present key is not a list. It pops exactly when the first present key holds a list. |
| Store.BLPopTakesFirstHead | tq/que.py:41 | When BLPOP pops, it takes the head of the first non-empty list in key order. Every earlier list is empty, and no other key changes. |
| Store.Pipeline.Run | tq/job.py:101 | EXECUTE applies the buffered commands in order, reports the first error, and empties the pipeline. |
| Store.Send | tq/job.py:86-87 | `pipeline or connection`: an empty pipeline is falsy, so the command is sent at once. Otherwise it is buffered. |
| Jobs.Created | tq/job.py:22-32 | `create` keeps the id, callable and fallback. Arguments, keyword arguments, schedule and fallback schedule are kept when given. When missing they default to `()`, `{}`, `{}` and `{}`. Result and status are None. |
| Jobs.ToDict | tq/job.py:46-52 | The record has exactly the fields id, data, result and state. |
| Jobs.RefreshOf | tq/job.py:71-83 | An empty hash gives None and leaves the job as it was. A read error propagates. |
| Jobs.SaveRefreshRoundTrip | tq/job.py:46-83 | Refreshing from a hash that `save` wrote gives back exactly the saved job, whatever the job held before. |
| Jobs.FetchOf | tq/job.py:62-69 | `fetch` as a function of the keyspace. It has no contract of its own; stated by `FetchNoneIffMissing`, `SaveFetchRoundTrip` and `StoredFetch`. |
| Jobs.FetchNoneIffMissing | tq/job.py:62-69 | `fetch` returns None exactly when no key has that id. A key of another type raises WRONGTYPE. |
| Jobs.SaveFetchRoundTrip | tq/job.py:62-101 | After `save`, `fetch` by id returns the saved job. |
| Jobs.StoredFetch | tq/job.py:62-83 | A job stored exactly is fetched, and refreshed into any job object, as itself. |
| Jobs.PerformOf | tq/job.py:103-115 | A late run with a fallback raises AttributeError, because `fb_info` does not exist. A missing callable, argument tuple or keyword dictionary raises TypeError. Otherwise the callable's result or exception is passed through. |
| Jobs.Reschedulable | tq/job.py:145-152 | True for a truthy `every_hour`. Otherwise true for any day list or more than one slot, and TypeError without a slot list. |
| Jobs.ReschedulableExamples | tq/job.py:145-152 | A day list of one day, or of none at all, counts as reschedulable. A single slot on a date without days does not. |
| Jobs.ResultOf | tq/job.py:117-127 | A truthy cached result is returned unread. Otherwise the stored result is loaded and cached. |
| Jobs.Job.Create | tq/job.py:22-32 | Returns a fresh job on the given connection whose state is `Created` of the arguments, with its defaults. |
| Jobs.Job.ResolveData | tq/job.py:58-60 | Unpickling the data tuple sets exactly the arguments, keyword arguments, callable, fallback and both schedules. Anything that is not a pickled data tuple raises and leaves the job as it was. |
| Jobs.Job.Refresh | tq/job.py:71-83 | The object becomes what `RefreshOf` gives for the hash read. |
| Jobs.Job.Fetch | tq/job.py:62-69 | Returns a fresh job holding the fetched record, None, or the error. |
| Jobs.Job.SetStatus | tq/job.py:85-88 | Sends HSET of the given state, but the object's status becomes Queued whatever state was written. |
| Jobs.Job.Expire | tq/job.py:90-92 | Sends EXPIRE with a five-hour TTL, at once or buffered. |
| Jobs.Job.Delete | tq/job.py:94-96 | Sends DEL of the record, at once or buffered. |
| Jobs.Job.Save | tq/job.py:98-101 | Executes HMSET of the whole record after whatever the pipeline already buffered. |
| Jobs.Job.Perform | tq/job.py:103-115 | Returns `PerformOf`, and caches the result only on success. |
| Jobs.Job.GetResult | tq/job.py:117-127 | The `result` property agrees with `ResultOf`. |
| Jobs.Job.SetRanAt | tq/job.py:174-176 | Sets `ran_at` in the schedule. It raises TypeError when there is none. |
| Jobs.Job.SetExecInfo | tq/job.py:185-187 | The `exec_info` setter replaces the schedule and nothing else. |
| Que.QueueKey | tq/que.py:9-11 | The key is the prefix `tq:queue:` followed by the name. |
| Que.QueueKeyInjective | tq/que.py:9-11 | Different queue names give different keys. |
| Que.AddCommand | tq/que.py:29-34 | A truthy `scheduled_at` adds the id to the sorted set at that score. Otherwise the id is pushed onto the list. |
| Que.EnqueueStoresJob | tq/que.py:13-27 | On a fresh id, enqueueing succeeds. It places the id once and stores the record, which fetches back with status Queued. |
| Que.EnqueueScheduledOnListFails | tq/que.py:13-34 | A scheduled job sent to a queue whose list is non-empty fails with WRONGTYPE, because the list and the sorted set share one key. |
| Que.Requeued | tq/que.py:58-67 | Requeueing changes only `scheduled_at`. |
| Que.RequeueStoresJob | tq/que.py:58-67 | After requeueing, the id is in the sorted set once, at the new score, and the record is fetched with the new `scheduled_at`. |
| Que.EnqueueDequeRoundTrip | tq/que.py:13-47 | An immediate job enqueued on an empty queue is popped by `deque_any` and fetched as queued. |
| Que.Queue.AddJob | tq/que.py:29-34 | Appends the command `AddCommand` chooses to the pipeline: ZADD for a truthy `scheduled_at`, RPUSH otherwise. On an error nothing is buffered. |
| Que.Queue.Enqueue | tq/que.py:13-27 | Creates the job and runs the three commands of `EnqueueCommands` in one transaction. |
| Que.Queue.DequeAny | tq/que.py:36-47 | Pops as BLPOP does, then fetches the popped id. |
| Que.Queue.GetScheduled | tq/que.py:49-56 | Returns the query time and every due id exactly once, ordered by score. A WRONGTYPE error is passed through. |
| Que.Queue.RequeueScheduled | tq/que.py:58-67 | Buffers ZADD, then saves the requeued record in the same transaction. |
| Que.Queue.DeleteScheduled | tq/que.py:69-71 | Sends ZREM of the id, at once or buffered. |
| Workers.PerformJobOf | tq/worker.py:65-90 | A run that raises writes nothing and reports failure. |
| Workers.PerformJobLeavesQueued | tq/worker.py:65-90 | A successful run reports success and stores its result. The stored state is Queued, not Finished. |
| Workers.PerformJobKeepsStored | tq/worker.py:71-76 | A job stored exactly stays stored exactly after a successful run, with its result. |
| Workers.PerformJobFailureWritesNothing | tq/worker.py:65-90 | Failure happens exactly when the call raises, and then nothing is written. A late job with a fallback always fails. |
| Workers.PerformJobOnlyTouchesJob | tq/worker.py:72-76 | `perform_job` writes only the job's own key. |
| Workers.AfterRun | tq/worker.py:132-146 | Every step after the refresh keeps the store well formed. |
| Workers.DueStep | tq/worker.py:124-146 | A due-job step keeps the store well formed. |
| Workers.DueStepOnStoredJob | tq/worker.py:124-146 | For a stored job, a reschedulable job with a next run stays in the set at that score, with `ran_at` set to the poll time. Any other job leaves the set, and its record keeps the run's result with a five-hour TTL. |
| Workers.DueStepRunsStoredJob | tq/worker.py:124-130 | The job is run with the fallback flag for the poll time, and refresh reads back what the child stored. |
| Workers.AfterRunOnStoredJob | tq/worker.py:132-146 | Reschedule or retire, as above, on the refreshed job. |
| Workers.RetireStoredJob | tq/worker.py:142-144 | ZREM then EXPIRE keep the record and set its TTL. |
| Workers.NextRuntimeUsesPreviousRanAt | tq/worker.py:132-139 | An hourly job due at `t`, whose stored `ran_at` is `t` - 1 hour, is requeued at `t` + 1 hour. Had `ran_at` been `t` + 3 hours, it would be `t` + 4 hours. |
| Workers.DueSteps | tq/worker.py:124-146 | The `for key in jobs` loop keeps the store well formed. |
| Workers.WorkerRound | tq/worker.py:53-55 | A round ends the loop only because BLPOP waits or something raises. It waits exactly when every queue is empty. |
| Workers.WorkerRoundTakesHead | tq/worker.py:53-55 | A round pops the head of the first non-empty queue. It changes no other queue except the key the child writes. |
| Workers.WorkerRoundStoresResult | tq/worker.py:53-90 | A job popped and run to completion is stored with its result and state Queued. |
| Workers.MakeQueues | tq/worker.py:29 | One queue per name, on the worker's connection. |
| Workers.Worker.constructor | tq/worker.py:25-31 | The worker starts working. Its name is the class name unless a non-empty name is given. |
| Workers.Worker.GracefulExit | tq/worker.py:40-45 | The signal handler clears `working`. |
| Workers.Worker.PerformJob | tq/worker.py:65-90 | Agrees with `PerformJobOf`. |
| Workers.Worker.Perform | tq/worker.py:57-63 | The child runs on a copy of the job; only the store is shared. No job means no write. |
| Workers.Worker.Run | tq/worker.py:50-55 | Runs `WorkerRound` until a signal, a wait on empty queues, an error, or the end of the given rounds. The loop stopped on a signal exactly when `working` is cleared. |
| Workers.ScheduledWorker.constructor | tq/worker.py:93-102 | The worker listens on the first queue name, with the given latency. |
| Workers.ScheduledWorker.New | tq/worker.py:93-102 | Construction raises IndexError exactly when no queue name is given. |
| Workers.ScheduledWorker.NewFailed | tq/worker.py:151-155 | A `FailedWorker` is a scheduled worker with latency 30, under its own class name. |
| Workers.ScheduledWorker.ProcessDue | tq/worker.py:124-146 | One pass of the loop agrees with `DueStep`. |
| Workers.ScheduledWorker.Finish | tq/worker.py:132-146 | The part of that pass after the refresh agrees with `AfterRun`. |
| Workers.ScheduledWorker.Poll | tq/worker.py:114-148 | One poll handles the due ids in score order, as `DueSteps` does, and stops at the first error. |
| Workers.ScheduledWorker.Run | tq/worker.py:108-148 | The store stays well formed. The loop stopped on a signal exactly when `working` is cleared. |

## Left out

- The Redis server and network are replaced by a value model of the keyspace. Blocking, connection errors and concurrent clients are not modelled. BLPOP on empty lists returns "would block" instead of waiting.
- Pickle is an injective constructor. Byte encoding, `to_text` and `decode` are the identity, because ids and field names are strings here.
- Timezones are fixed UTC offsets. pytz's daylight-saving rules and `is_dst=None` are not modelled.
- Dates in `exec_info` are day numbers. Parsing `'%m/%d/%Y'` with `strptime` is not modelled.
- `int()` in `make_time` accepts an optional ASCII sign and ASCII digits only. Python also accepts surrounding whitespace, underscores and other Unicode digits.
- `datetime.now`, `datetime.utcnow`, `uuid4` and the job's callable are parameters. The callable's outcome is a given value, and it writes nothing to the store.
- `os.fork`, `os.waitpid`, `os._exit` and signal delivery are not modelled. The child runs on a copy of the job before the parent goes on. A signal is a per-round flag that clears `working`, and the process exit is not modelled.
- `sleep(latency)` is not modelled; the latency is only stored.
- Utils.CatchUpHours: `int(latency / hour)` is a float division, then truncation. The model divides integers exactly. The two agree for every lateness below 2^53 seconds, where the float quotient cannot cross a whole hour.
- Workers.ScheduledWorker.New: takes the latency as an argument. The source's default of one second is not a default here; callers pass it.
- TTLs never elapse: EXPIRE records the TTL, and no key disappears with time.
- A missing `exec_info` key and a key holding None are both `None` in the model. `job.timezone` indexes the dictionary, so a missing key raises KeyError, and `GetNextTs` gives KeyError in both cases. With the key present but None, the source instead raises UnknownTimeZoneError from `pytz.timezone(None)`.
- The redis-py client is taken with its 2.x behaviour, which this code relies on. `zadd(name, score, member)` adds `member` at `score`. An empty `Pipeline` is falsy through `__len__`, so `pipeline or connection` sends a command straight to the server (`Send`). Other client versions are not modelled.
- Workers.Worker.Run: runs a given number of rounds, while the source loops until it is killed.
- Workers.ScheduledWorker.Run: its contract states only that the store stays well formed and why the loop stopped. The due ids of each round come from a fresh poll, and their effect is stated per round by `Poll`.
- ZRANGEBYSCORE orders members with equal scores lexicographically. The model leaves that order among equal scores open.
- `time_from_ts`, `decode_hash`, `to_weekdays`'s callers, logging (tq/logger.py) and the command line (cli.py) are not part of this model. `to_weekdays` itself is modelled.
- `Job.state`, `scheduled_days`, `has_date`, `timezone` and the other one-line properties are read directly from the record. They need no members of their own.
