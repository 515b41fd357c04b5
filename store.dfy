/** The Redis server the queue runs against, reduced to the commands the
    core issues: lists (RPUSH, BLPOP), sorted sets (ZADD, ZRANGEBYSCORE,
    ZREM), hashes (HSET, HMSET, HGET, HGETALL), EXPIRE and DEL, and
    MULTI/EXEC pipelines. As in Redis, one key holds one type of value, a
    command on a key of another type is answered with a WRONGTYPE error, an
    emptied list or sorted set disappears, and deleting a key drops its TTL.
    Time does not pass: a TTL is recorded, never fired. */
module Store {
  import opened Types

  datatype Entry =
    | ListEntry(items: seq<string>)
    | ZSetEntry(scores: map<string, int>)
    | HashEntry(fields: map<string, Field>)

  /** The keyspace and the TTL (in seconds) of the keys that have one. */
  datatype Db = Db(entries: map<string, Entry>, ttl: map<string, int>)

  const EmptyDb: Db := Db(map[], map[])

  predicate NonEmpty(e: Entry) {
    match e
    case ListEntry(items) => |items| > 0
    case ZSetEntry(scores) => |scores| > 0
    case HashEntry(fields) => |fields| > 0
  }

  /** What Redis maintains: no empty values, and TTLs only on existing keys. */
  predicate WellFormed(db: Db) {
    && db.ttl.Keys <= db.entries.Keys
    && forall k :: k in db.entries ==> NonEmpty(db.entries[k])
  }

  /** `db'` agrees with `db` on every key but `key`. */
  ghost predicate SameExcept(db: Db, db': Db, key: string) {
    && (forall k :: k != key ==> (k in db.entries <==> k in db'.entries))
    && (forall k :: k != key && k in db.entries ==> db'.entries[k] == db.entries[k])
    && (forall k :: k != key ==> (k in db.ttl <==> k in db'.ttl))
    && (forall k :: k != key && k in db.ttl ==> db'.ttl[k] == db.ttl[k])
  }

  /** The write commands a job or a queue issues, directly or in a pipeline. */
  datatype Command =
    | RPush(key: string, item: string)
    | ZAdd(key: string, score: int, member: string)
    | ZRem(key: string, member: string)
    | HSet(key: string, field: string, fieldValue: Field)
    | HMSet(key: string, fields: map<string, Field>)
    | Expire(key: string, seconds: int)
    | Delete(key: string)

  /** The keyspace after a command, and the error reply if there was one. */
  datatype Outcome = Outcome(db: Db, err: Option<Error>)

  predicate HoldsList(db: Db, key: string) { key in db.entries && db.entries[key].ListEntry? }
  predicate HoldsZSet(db: Db, key: string) { key in db.entries && db.entries[key].ZSetEntry? }
  predicate HoldsHash(db: Db, key: string) { key in db.entries && db.entries[key].HashEntry? }

  function ListAt(db: Db, key: string): seq<string> {
    if HoldsList(db, key) then db.entries[key].items else []
  }

  function ScoresAt(db: Db, key: string): map<string, int> {
    if HoldsZSet(db, key) then db.entries[key].scores else map[]
  }

  function FieldsAt(db: Db, key: string): map<string, Field> {
    if HoldsHash(db, key) then db.entries[key].fields else map[]
  }

  /** Setting a value keeps the key's TTL (as HSET, RPUSH and ZADD do). */
  function Put(db: Db, key: string, e: Entry): Db {
    db.(entries := db.entries[key := e])
  }

  /** The key and its TTL are gone. */
  function Remove(db: Db, key: string): (r: Db)
    ensures key !in r.entries && key !in r.ttl && SameExcept(db, r, key)
    ensures WellFormed(db) ==> WellFormed(r)
  {
    Db(db.entries - {key}, db.ttl - {key})
  }

  /** RPUSH: append to the tail of the list, creating it if need be. */
  function RPushCmd(db: Db, key: string, value: string): (r: Outcome)
    ensures r.err.Some? <==> key in db.entries && !HoldsList(db, key)
    ensures r.err.Some? ==> r.err.value == ResponseError && r.db == db
    ensures r.err.None? ==> HoldsList(r.db, key) && ListAt(r.db, key) == ListAt(db, key) + [value]
    ensures SameExcept(db, r.db, key)
    ensures WellFormed(db) ==> WellFormed(r.db)
  {
    if key in db.entries && !HoldsList(db, key) then Outcome(db, Some(ResponseError))
    else Outcome(Put(db, key, ListEntry(ListAt(db, key) + [value])), None)
  }

  /** ZADD: set the member's score, adding it if it is new. */
  function ZAddCmd(db: Db, key: string, score: int, member: string): (r: Outcome)
    ensures r.err.Some? <==> key in db.entries && !HoldsZSet(db, key)
    ensures r.err.Some? ==> r.err.value == ResponseError && r.db == db
    ensures r.err.None? ==> HoldsZSet(r.db, key) && ScoresAt(r.db, key) == ScoresAt(db, key)[member := score]
    ensures SameExcept(db, r.db, key)
    ensures WellFormed(db) ==> WellFormed(r.db)
  {
    if key in db.entries && !HoldsZSet(db, key) then Outcome(db, Some(ResponseError))
    else Outcome(Put(db, key, ZSetEntry(ScoresAt(db, key)[member := score])), None)
  }

  /** ZREM: remove the member; an emptied set is deleted. */
  function ZRemCmd(db: Db, key: string, member: string): (r: Outcome)
    ensures r.err.Some? <==> key in db.entries && !HoldsZSet(db, key)
    ensures r.err.Some? ==> r.err.value == ResponseError && r.db == db
    ensures r.err.None? ==> ScoresAt(r.db, key) == ScoresAt(db, key) - {member}
    ensures r.err.None? && key !in db.entries ==> r.db == db
    ensures SameExcept(db, r.db, key)
    ensures WellFormed(db) ==> WellFormed(r.db)
  {
    if key !in db.entries then Outcome(db, None)
    else if !HoldsZSet(db, key) then Outcome(db, Some(ResponseError))
    else
      var rest := ScoresAt(db, key) - {member};
      if |rest| == 0 then Outcome(Remove(db, key), None)
      else Outcome(Put(db, key, ZSetEntry(rest)), None)
  }

  /** HSET and HMSET: write the given fields, keeping the others. HMSET with
      no fields is refused (redis-py raises before sending it). */
  function HSetCmd(db: Db, key: string, fields: map<string, Field>): (r: Outcome)
    ensures r.err.Some? <==> (key in db.entries && !HoldsHash(db, key)) || |fields| == 0
    ensures r.err.Some? ==> r.db == db
    ensures r.err.None? ==> HoldsHash(r.db, key) && FieldsAt(r.db, key) == FieldsAt(db, key) + fields
    ensures SameExcept(db, r.db, key)
    ensures WellFormed(db) ==> WellFormed(r.db)
  {
    if key in db.entries && !HoldsHash(db, key) then Outcome(db, Some(ResponseError))
    else if |fields| == 0 then Outcome(db, Some(ResponseError))
    else Outcome(Put(db, key, HashEntry(FieldsAt(db, key) + fields)), None)
  }

  /** EXPIRE: give an existing key a TTL (a non-positive one deletes it at
      once); a missing key is left alone. */
  function ExpireCmd(db: Db, key: string, seconds: int): (r: Outcome)
    ensures r.err.None?
    ensures key !in db.entries ==> r.db == db
    ensures key in db.entries && seconds > 0 ==>
      r.db.entries == db.entries && key in r.db.ttl && r.db.ttl[key] == seconds
    ensures SameExcept(db, r.db, key)
    ensures WellFormed(db) ==> WellFormed(r.db)
  {
    if key !in db.entries then Outcome(db, None)
    else if seconds <= 0 then Outcome(Remove(db, key), None)
    else Outcome(db.(ttl := db.ttl[key := seconds]), None)
  }

  /** Every command changes only its own key and keeps the keyspace well
      formed. */
  function Apply(db: Db, c: Command): (r: Outcome)
    ensures SameExcept(db, r.db, c.key)
    ensures WellFormed(db) ==> WellFormed(r.db)
  {
    match c
    case RPush(k, v) => RPushCmd(db, k, v)
    case ZAdd(k, score, m) => ZAddCmd(db, k, score, m)
    case ZRem(k, m) => ZRemCmd(db, k, m)
    case HSet(k, f, v) => HSetCmd(db, k, map[f := v])
    case HMSet(k, fs) => HSetCmd(db, k, fs)
    case Expire(k, secs) => ExpireCmd(db, k, secs)
    case Delete(k) => Outcome(Remove(db, k), None)
  }

  /** EXEC of a MULTI block: every queued command runs, in order, whether or
      not an earlier one failed; the first error reply is reported. */
  function ApplyAll(db: Db, cs: seq<Command>): (r: Outcome)
    ensures WellFormed(db) ==> WellFormed(r.db)
    decreases |cs|
  {
    if |cs| == 0 then Outcome(db, None)
    else
      var first := Apply(db, cs[0]);
      var rest := ApplyAll(first.db, cs[1..]);
      Outcome(rest.db, if first.err.Some? then first.err else rest.err)
  }

  /** A transaction of one command is that command. */
  lemma ApplyAllSingle(db: Db, c: Command)
    ensures ApplyAll(db, [c]) == Apply(db, c)
  {
    assert [c][1..] == [];
  }

  /** Running `a` then `b` is running `a + b`. */
  lemma {:induction false} ApplyAllAppend(db: Db, a: seq<Command>, b: seq<Command>)
    ensures var ra := ApplyAll(db, a); var rb := ApplyAll(ra.db, b);
      ApplyAll(db, a + b) == Outcome(rb.db, if ra.err.Some? then ra.err else rb.err)
    decreases |a|
  {
    if |a| == 0 {
      assert a + b == b;
    } else {
      assert (a + b)[0] == a[0] && (a + b)[1..] == a[1..] + b;
      ApplyAllAppend(Apply(db, a[0]).db, a[1..], b);
    }
  }

  /** Commands on other keys leave a key's value and TTL alone. */
  lemma {:induction false} ApplyAllOtherKeys(db: Db, cs: seq<Command>, key: string)
    requires forall i :: 0 <= i < |cs| ==> cs[i].key != key
    ensures var r := ApplyAll(db, cs).db;
      && (key in r.entries <==> key in db.entries)
      && (key in db.entries ==> r.entries[key] == db.entries[key])
      && (key in r.ttl <==> key in db.ttl)
      && (key in db.ttl ==> r.ttl[key] == db.ttl[key])
    decreases |cs|
  {
    if |cs| > 0 {
      ApplyAllOtherKeys(Apply(db, cs[0]).db, cs[1..], key);
    }
  }

  // ---------------------------------------------------------------------
  // Reads

  /** HGETALL: the hash's fields; a missing key reads as an empty hash. */
  function HGetAll(db: Db, key: string): (r: Result<map<string, Field>>)
    ensures r.Err? <==> key in db.entries && !HoldsHash(db, key)
    ensures r.Ok? ==> r.value == FieldsAt(db, key)
    ensures WellFormed(db) && r.Ok? ==> (r.value == map[] <==> key !in db.entries)
  {
    if key in db.entries && !HoldsHash(db, key) then Err(ResponseError) else Ok(FieldsAt(db, key))
  }

  /** HGET: the field, or None when the key or the field is missing. */
  function HGet(db: Db, key: string, field: string): (r: Result<Option<Field>>)
    ensures r.Err? <==> key in db.entries && !HoldsHash(db, key)
    ensures r.Ok? ==> (r.value.Some? <==> field in FieldsAt(db, key))
    ensures r.Ok? && r.value.Some? ==> r.value.value == FieldsAt(db, key)[field]
  {
    if key in db.entries && !HoldsHash(db, key) then Err(ResponseError)
    else if field in FieldsAt(db, key) then Ok(Some(FieldsAt(db, key)[field]))
    else Ok(None)
  }

  /** ZRANGEBYSCORE key lo hi, as a set of members (the order is left to the
      caller). */
  function ZRangeByScore(db: Db, key: string, lo: int, hi: int): (r: Result<set<string>>)
    ensures r.Err? <==> key in db.entries && !HoldsZSet(db, key)
    ensures r.Ok? ==> forall m :: m in r.value <==> m in ScoresAt(db, key) && lo <= ScoresAt(db, key)[m] <= hi
  {
    if key in db.entries && !HoldsZSet(db, key) then Err(ResponseError)
    else
      var scores := ScoresAt(db, key);
      Ok(set m | m in scores && lo <= scores[m] <= hi)
  }

  /** `xs` lists members in ascending score order. */
  predicate ByScore(xs: seq<string>, scores: map<string, int>) {
    forall i, j :: 0 <= i < j < |xs| && xs[i] in scores && xs[j] in scores ==> scores[xs[i]] <= scores[xs[j]]
  }

  predicate Distinct(xs: seq<string>) {
    forall i, j :: 0 <= i < j < |xs| ==> xs[i] != xs[j]
  }

  /** A non-empty set of scored members has one of least score. */
  lemma {:induction false} LeastScoreExists(ms: set<string>, scores: map<string, int>)
    requires ms != {} && ms <= scores.Keys
    ensures exists m :: m in ms && forall n :: n in ms ==> scores[m] <= scores[n]
    decreases |ms|
  {
    var a :| a in ms;
    if ms != {a} {
      var rest := ms - {a};
      LeastScoreExists(rest, scores);
      var m :| m in rest && forall n :: n in rest ==> scores[m] <= scores[n];
      if scores[a] <= scores[m] {
        assert forall n :: n in ms ==> scores[a] <= scores[n];
      } else {
        assert forall n :: n in ms ==> scores[m] <= scores[n];
      }
    } else {
      assert forall n :: n in ms ==> n == a;
    }
  }

  datatype PopReply = Popped(key: string, value: string) | Blocked | PopFailed(error: Error)

  datatype PopOutcome = PopOutcome(db: Db, reply: PopReply)

  /** BLPOP keys 0: the head of the first key, in argument order, that holds
      a non-empty list; an earlier key of another type is an error, and so
      is an empty key list. `Blocked` is the case where the real command
      waits (for ever, with timeout 0). */
  function BLPopCmd(db: Db, keys: seq<string>): (r: PopOutcome)
    ensures keys == [] ==> r.reply == PopFailed(ResponseError)
    ensures WellFormed(db) ==> WellFormed(r.db)
  {
    if keys == [] then PopOutcome(db, PopFailed(ResponseError)) else FirstPop(db, keys)
  }

  function FirstPop(db: Db, keys: seq<string>): (r: PopOutcome)
    ensures !r.reply.Popped? ==> r.db == db
    ensures r.reply.Popped? ==> r.reply.key in keys && ListAt(db, r.reply.key) != []
    ensures WellFormed(db) ==> WellFormed(r.db)
  {
    if keys == [] then PopOutcome(db, Blocked)
    else
      var k := keys[0];
      if k !in db.entries || (HoldsList(db, k) && db.entries[k].items == []) then FirstPop(db, keys[1..])
      else if !HoldsList(db, k) then PopOutcome(db, PopFailed(ResponseError))
      else
        var items := db.entries[k].items;
        var db' := if |items| == 1 then Remove(db, k) else Put(db, k, ListEntry(items[1..]));
        PopOutcome(db', Popped(k, items[0]))
  }

  /** The first key of `keys` that is present in the store, if any: the key
      BLPOP stops at, since every present key holds a non-empty value. */
  ghost predicate FirstPresentAt(db: Db, keys: seq<string>, i: int) {
    0 <= i < |keys| && keys[i] in db.entries && forall j :: 0 <= j < i ==> keys[j] !in db.entries
  }

  /** BLPOP waits exactly when no listed key is present; it fails with
      WRONGTYPE exactly when the first present key does not hold a list; and
      it pops exactly when the first present key holds a list. */
  lemma {:induction false} BLPopCases(db: Db, keys: seq<string>)
    requires WellFormed(db)
    ensures var r := BLPopCmd(db, keys);
      && (r.reply.Blocked? <==> keys != [] && forall k :: k in keys ==> k !in db.entries)
      && (r.reply.PopFailed? <==> keys == [] || exists i :: FirstPresentAt(db, keys, i) && !HoldsList(db, keys[i]))
      && (r.reply.PopFailed? ==> r.reply.error == ResponseError)
      && (r.reply.Popped? <==> exists i :: FirstPresentAt(db, keys, i) && HoldsList(db, keys[i]))
  {
    if keys != [] {
      FirstPopCases(db, keys);
    }
  }

  lemma {:induction false} FirstPopCases(db: Db, keys: seq<string>)
    requires WellFormed(db)
    ensures var r := FirstPop(db, keys);
      && (r.reply.Blocked? <==> forall k :: k in keys ==> k !in db.entries)
      && (r.reply.PopFailed? <==> exists i :: FirstPresentAt(db, keys, i) && !HoldsList(db, keys[i]))
      && (r.reply.PopFailed? ==> r.reply.error == ResponseError)
      && (r.reply.Popped? <==> exists i :: FirstPresentAt(db, keys, i) && HoldsList(db, keys[i]))
    decreases |keys|
  {
    if keys == [] {
      return;
    }
    var k := keys[0];
    assert FirstPresentAt(db, keys, 0) <==> k in db.entries;
    if k !in db.entries || (HoldsList(db, k) && db.entries[k].items == []) {
      assert k !in db.entries;
      FirstPopCases(db, keys[1..]);
      assert forall x :: x in keys <==> x == k || x in keys[1..];
      forall i ensures FirstPresentAt(db, keys, i) <==> i >= 1 && FirstPresentAt(db, keys[1..], i - 1) {
        if FirstPresentAt(db, keys, i) {
          assert i != 0;
          forall j | 0 <= j < i - 1 ensures keys[1..][j] !in db.entries {
            assert keys[1..][j] == keys[j + 1];
          }
        }
        if i >= 1 && FirstPresentAt(db, keys[1..], i - 1) {
          forall j | 0 <= j < i ensures keys[j] !in db.entries {
            if j > 0 { assert keys[j] == keys[1..][j - 1]; }
          }
        }
      }
      if FirstPop(db, keys).reply.Popped? {
        var i :| FirstPresentAt(db, keys[1..], i) && HoldsList(db, keys[1..][i]);
        assert FirstPresentAt(db, keys, i + 1);
      }
      if FirstPop(db, keys).reply.PopFailed? {
        var i :| FirstPresentAt(db, keys[1..], i) && !HoldsList(db, keys[1..][i]);
        assert FirstPresentAt(db, keys, i + 1);
      }
    } else {
      assert k in db.entries && k in keys;
      assert FirstPresentAt(db, keys, 0);
    }
  }

  /** A pop takes exactly the head of one list, from the first key in order
      whose list is non-empty, and changes nothing else. */
  lemma {:induction false} BLPopTakesFirstHead(db: Db, keys: seq<string>)
    requires WellFormed(db)
    requires BLPopCmd(db, keys).reply.Popped?
    ensures var r := BLPopCmd(db, keys); var k := r.reply.key;
      && (exists i :: 0 <= i < |keys| && keys[i] == k && forall j :: 0 <= j < i ==> keys[j] !in db.entries)
      && ListAt(db, k) != [] && r.reply.value == ListAt(db, k)[0]
      && ListAt(r.db, k) == ListAt(db, k)[1..]
      && SameExcept(db, r.db, k)
  {
    FirstPopTakesFirstHead(db, keys);
  }

  lemma {:induction false} FirstPopTakesFirstHead(db: Db, keys: seq<string>)
    requires WellFormed(db)
    requires FirstPop(db, keys).reply.Popped?
    ensures var r := FirstPop(db, keys); var k := r.reply.key;
      && (exists i :: 0 <= i < |keys| && keys[i] == k && forall j :: 0 <= j < i ==> keys[j] !in db.entries)
      && ListAt(db, k) != [] && r.reply.value == ListAt(db, k)[0]
      && ListAt(r.db, k) == ListAt(db, k)[1..]
      && SameExcept(db, r.db, k)
  {
    var k := keys[0];
    if k !in db.entries || (HoldsList(db, k) && db.entries[k].items == []) {
      assert k !in db.entries;
      FirstPopTakesFirstHead(db, keys[1..]);
      var r := FirstPop(db, keys[1..]);
      var i :| 0 <= i < |keys[1..]| && keys[1..][i] == r.reply.key && forall j :: 0 <= j < i ==> keys[1..][j] !in db.entries;
      assert keys[i + 1] == r.reply.key;
      forall j | 0 <= j < i + 1 ensures keys[j] !in db.entries {
        if j > 0 { assert keys[j] == keys[1..][j - 1]; }
      }
    } else {
      assert keys[0] == FirstPop(db, keys).reply.key;
    }
  }

  // ---------------------------------------------------------------------
  // The server and its pipelines

  /** The Redis connection: one keyspace, updated command by command. */
  class Redis {
    var db: Db

    constructor()
      ensures db == EmptyDb
    {
      db := EmptyDb;
    }

    /** A command sent outside any pipeline. */
    method Execute(c: Command) returns (err: Option<Error>)
      modifies this
      ensures db == Apply(old(db), c).db && err == Apply(old(db), c).err
    {
      var r := Apply(db, c);
      db, err := r.db, r.err;
    }

    /** ZRANGEBYSCORE key lo hi as the server replies: every member scored
        in [lo, hi], once each, in ascending score order. */
    method ZRangeByScoreOrdered(key: string, lo: int, hi: int) returns (r: Result<seq<string>>)
      ensures ZRangeByScore(db, key, lo, hi).Err? ==> r == Err(ResponseError)
      ensures ZRangeByScore(db, key, lo, hi).Ok? ==> r.Ok?
      ensures r.Ok? ==> forall m :: m in r.value <==> m in ZRangeByScore(db, key, lo, hi).value
      ensures r.Ok? ==> Distinct(r.value) && ByScore(r.value, ScoresAt(db, key))
    {
      var due := ZRangeByScore(db, key, lo, hi);
      if due.Err? {
        return Err(ResponseError);
      }
      var scores := ScoresAt(db, key);
      var rest := due.value;
      var out: seq<string> := [];
      while rest != {}
        invariant rest <= scores.Keys
        invariant forall m :: m in due.value <==> m in rest || m in out
        invariant forall i :: 0 <= i < |out| ==> out[i] !in rest && out[i] in scores
        invariant Distinct(out) && ByScore(out, scores)
        invariant forall i, m :: 0 <= i < |out| && m in rest ==> scores[out[i]] <= scores[m]
        decreases |rest|
      {
        LeastScoreExists(rest, scores);
        var m :| m in rest && forall n :: n in rest ==> scores[m] <= scores[n];
        out := out + [m];
        rest := rest - {m};
      }
      r := Ok(out);
    }

    /** BLPOP, with the blocking case reported as `Blocked`. */
    method BLPop(keys: seq<string>) returns (reply: PopReply)
      modifies this
      ensures db == BLPopCmd(old(db), keys).db && reply == BLPopCmd(old(db), keys).reply
    {
      var r := BLPopCmd(db, keys);
      db, reply := r.db, r.reply;
    }
  }

  /** A MULTI/EXEC pipeline: commands are buffered and sent together. */
  class Pipeline {
    const store: Redis
    var commands: seq<Command>

    constructor(store: Redis)
      ensures this.store == store && commands == []
    {
      this.store := store;
      commands := [];
    }

    method Add(c: Command)
      modifies this
      ensures commands == old(commands) + [c]
    {
      commands := commands + [c];
    }

    /** `pipeline.execute()`: run the buffered commands in order and empty
        the buffer; the first error reply is raised. */
    method Run() returns (err: Option<Error>)
      modifies this, store
      ensures store.db == ApplyAll(old(store.db), old(commands)).db
      ensures err == ApplyAll(old(store.db), old(commands)).err
      ensures commands == []
    {
      var cs := commands;
      ghost var db0 := store.db;
      err := None;
      var i := 0;
      while i < |cs|
        invariant 0 <= i <= |cs|
        invariant store.db == ApplyAll(db0, cs[..i]).db
        invariant err == ApplyAll(db0, cs[..i]).err
      {
        var e := store.Execute(cs[i]);
        ApplyAllAppend(db0, cs[..i], [cs[i]]);
        assert cs[..i + 1] == cs[..i] + [cs[i]];
        if err.None? {
          err := e;
        }
        i := i + 1;
      }
      assert cs[..i] == cs;
      commands := [];
    }
  }

  /** `pipe` is a pipeline with commands buffered, so `pipe or ...` picks it. */
  predicate Buffering(pipe: Pipeline?)
    reads pipe
  {
    pipe != null && pipe.commands != []
  }

  /** `con = pipeline or self.connection; con.<command>(...)`. redis-py's
      Pipeline has `__len__` (the number of buffered commands), so a pipeline
      with nothing buffered is falsy and the command is then sent to the
      connection at once; otherwise it is buffered. */
  method Send(store: Redis, pipe: Pipeline?, c: Command) returns (err: Option<Error>)
    requires pipe != null ==> pipe.store == store
    modifies store, pipe
    ensures !old(Buffering(pipe)) ==>
      store.db == Apply(old(store.db), c).db && err == Apply(old(store.db), c).err
    ensures !old(Buffering(pipe)) && pipe != null ==> pipe.commands == []
    ensures old(Buffering(pipe)) ==>
      store.db == old(store.db) && pipe.commands == old(pipe.commands) + [c] && err.None?
  {
    if !Buffering(pipe) {
      err := store.Execute(c);
    } else {
      pipe.Add(c);
      err := None;
    }
  }
}
