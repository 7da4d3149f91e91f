/**
 * The Redis prober: the process-wide holder `RedisConnection` and the tester
 * `redis_test`, whose cycle sets a sentinel key, reads it back, increments a
 * counter, deletes both keys and checks that the sentinel is gone. The Redis
 * server is a keyspace (`KeyValueStore`) that may drop writes or deletes and
 * whose commands may raise from some point of the cycle on.
 */
module Redis {
  import opened Values
  import opened Driver
  import opened Metrics

  /** `self.key`, `self.payload` and the counter key of `test_redis`. */
  const TestKey: string := "DEVOPS_TEST_KEY"
  const Payload: string := "DEVOPS_TEST_VALUE"
  const Counter: string := "SRE_TEST_COUNTER"

  /** The range of a Redis integer value: INCR beyond it fails. */
  const Int64Min: int := -0x8000_0000_0000_0000
  const Int64Max: int := 0x7fff_ffff_ffff_ffff

  /**
   * The attributes `RedisConnection.__new__` sets: `password` from
   * `authentication.get('password', None)` and `db` from
   * `int(authentication.get("db", 0))`, which raises for a value `int`
   * rejects; kept in `Target.database` as an int.
   */
  function InitTarget(authentication: Value, fqdn: Value, port: Value): (r: Result<Target>)
    ensures !authentication.VDict? ==> r == Err(AttributeError)
    ensures authentication.VDict? ==> (r.Ok? <==> PyInt(DictGet(authentication, "db", VInt(0)).value).Ok?)
    ensures r.Ok? ==> Ok(r.value.password) == DictGet(authentication, "password", VNone)
    ensures r.Ok? ==> r.value.database == VInt(PyInt(DictGet(authentication, "db", VInt(0)).value).value)
    ensures r.Ok? && Lookup(authentication.entries, "db").None? ==> r.value.database == VInt(0)
    ensures r.Ok? ==> r.value.username == VNone && r.value.fqdn == fqdn && r.value.port == port
  {
    if !authentication.VDict? then Err(AttributeError)
    else
      var password := DictGet(authentication, "password", VNone).value;
      match PyInt(DictGet(authentication, "db", VInt(0)).value)
      case Err(e) => Err(e)
      case Ok(db) => Ok(Target(VNone, password, VInt(db), fqdn, port))
  }

  // ----- the server -----

  /** How the server treats writes (SET, INCR) and deletes (DEL): carried out, or silently dropped. */
  datatype Server = Server(appliesWrites: bool, appliesDeletes: bool)

  /** A server that carries out every command it accepts. */
  predicate Honest(server: Server) {
    server.appliesWrites && server.appliesDeletes
  }

  /** A string Redis accepts as an integer: exactly the text `str` gives some 64-bit integer. */
  function IsRedisInt(s: string): (b: bool)
    ensures b ==> |s| > 0 && (s[0] == '-' || IsDigit(s[0]))
    ensures b && |s| > 1 ==> s[0] != '0'
  {
    ParseInt(s).Some? && IntToString(ParseInt(s).value) == s && Int64Min <= ParseInt(s).value <= Int64Max
  }

  /** Every 64-bit integer, written out as `INCR` stores it, is text Redis accepts as an integer. */
  lemma IntTextIsRedisInt(i: int)
    requires Int64Min <= i <= Int64Max
    ensures IsRedisInt(IntToString(i))
  {
    IntToStringRoundTrip(i);
  }

  /** The keyspace after `SET k v`. */
  function SetData(server: Server, data: map<string, string>, k: string, v: string): (d: map<string, string>)
    ensures server.appliesWrites ==> k in d && d[k] == v
    ensures forall j :: j != k ==> (j in d <==> j in data) && (j in d ==> d[j] == data[j])
  {
    if server.appliesWrites then data[k := v] else data
  }

  /** The keyspace after `INCRBY k n`, or the error Redis replies with. */
  function IncrData(server: Server, data: map<string, string>, k: string, n: int): (r: Result<map<string, string>>)
    ensures r.Err? <==> (k in data && !IsRedisInt(data[k])) ||
                        !(Int64Min <= (if k in data then ParseInt(data[k]).value else 0) + n <= Int64Max)
    ensures r.Ok? && server.appliesWrites ==>
              k in r.value && ParseInt(r.value[k]) == Some((if k in data then ParseInt(data[k]).value else 0) + n)
    ensures r.Ok? ==> forall j :: j != k ==> (j in r.value <==> j in data) && (j in r.value ==> r.value[j] == data[j])
  {
    if k in data && !IsRedisInt(data[k]) then Err(DriverError)
    else
      var v := (if k in data then ParseInt(data[k]).value else 0) + n;
      if !(Int64Min <= v <= Int64Max) then Err(DriverError)
      else
        IntToStringRoundTrip(v);
        Ok(if server.appliesWrites then data[k := IntToString(v)] else data)
  }

  /** The keyspace after `DEL k`. */
  function DelData(server: Server, data: map<string, string>, k: string): (d: map<string, string>)
    ensures server.appliesDeletes ==> k !in d
    ensures !server.appliesDeletes ==> d == data
    ensures forall j :: j != k ==> (j in d <==> j in data) && (j in d ==> d[j] == data[j])
  {
    if server.appliesDeletes then data - {k} else data
  }

  /** The Redis server a holder's connection talks to. */
  class KeyValueStore {
    var data: map<string, string>
    const server: Server

    constructor (data: map<string, string>, server: Server)
      ensures this.data == data && this.server == server
    {
      this.data := data;
      this.server := server;
    }

    /** `SET k v`; `raises` stands for a connection or protocol error on this command. */
    method Set(k: string, v: string, raises: bool) returns (err: Option<Error>)
      modifies this`data
      ensures err == if raises then Some(DriverError) else None
      ensures data == if raises then old(data) else SetData(server, old(data), k, v)
    {
      if raises {
        return Some(DriverError);
      }
      data := SetData(server, data, k, v);
      err := None;
    }

    /** `GET k`: the value, or None for a missing key. */
    method Get(k: string, raises: bool) returns (r: Result<Option<string>>)
      ensures raises ==> r == Err(DriverError)
      ensures !raises ==> r == Ok(if k in data then Some(data[k]) else None)
    {
      if raises {
        return Err(DriverError);
      }
      r := Ok(if k in data then Some(data[k]) else None);
    }

    /** `INCRBY k n`. */
    method Incr(k: string, n: int, raises: bool) returns (err: Option<Error>)
      modifies this`data
      ensures raises ==> err == Some(DriverError) && data == old(data)
      ensures !raises && IncrData(server, old(data), k, n).Ok? ==> err.None? && data == IncrData(server, old(data), k, n).value
      ensures !raises && IncrData(server, old(data), k, n).Err? ==> err == Some(DriverError) && data == old(data)
    {
      if raises {
        return Some(DriverError);
      }
      var r := IncrData(server, data, k, n);
      if r.Err? {
        return Some(r.error);
      }
      data := r.value;
      err := None;
    }

    /** `DEL k`: the number of keys removed. */
    method Delete(k: string, raises: bool) returns (r: Result<nat>)
      modifies this`data
      ensures raises ==> r == Err(DriverError) && data == old(data)
      ensures !raises ==> data == DelData(server, old(data), k)
      ensures !raises ==> r == Ok(if k in old(data) && server.appliesDeletes then 1 else 0)
    {
      if raises {
        return Err(DriverError);
      }
      r := Ok(if k in data && server.appliesDeletes then 1 else 0);
      data := DelData(server, data, k);
    }

    /** `EXISTS k`: 1 if the key is present, 0 if not. */
    method Exists(k: string, raises: bool) returns (r: Result<nat>)
      ensures raises ==> r == Err(DriverError)
      ensures !raises ==> r == Ok(if k in data then 1 else 0)
    {
      if raises {
        return Err(DriverError);
      }
      r := Ok(if k in data then 1 else 0);
    }
  }

  /**
   * The `try` body of `test_redis` once a connection is at hand, as
   * `(result, keyspace afterwards)`. Its commands are numbered 0 (SET),
   * 1 (GET key), 2 (INCR), 3 (GET counter), 4 (DEL key), 5 (DEL counter),
   * 6 (EXISTS); command `k` raises iff `k >= failsFrom`, and any exception
   * makes the result False. A read-back that is missing or differs from the
   * payload gives False without any further command; a counter that cannot
   * be read back after INCR (`None.decode`) raises too.
   */
  function Exercise(server: Server, data: map<string, string>, failsFrom: nat): (o: (bool, map<string, string>))
    ensures o.0 ==> TestKey !in o.1
    ensures !server.appliesDeletes ==> !o.0
    ensures o.0 ==> failsFrom > 6
    ensures forall j :: j != TestKey && j != Counter ==> (j in o.1 <==> j in data) && (j in o.1 ==> o.1[j] == data[j])
    ensures failsFrom >= 1 && !(TestKey in SetData(server, data, TestKey, Payload) &&
                                SetData(server, data, TestKey, Payload)[TestKey] == Payload)
            ==> o == (false, SetData(server, data, TestKey, Payload))
  {
    if failsFrom == 0 then (false, data)
    else
      var d1 := SetData(server, data, TestKey, Payload);
      if failsFrom == 1 || !(TestKey in d1 && d1[TestKey] == Payload) then (false, d1)
      else if failsFrom == 2 then (false, d1)
      else
        match IncrData(server, d1, Counter, 1)
        case Err(_) => (false, d1)
        case Ok(d2) =>
          if failsFrom == 3 || Counter !in d2 || failsFrom == 4 then (false, d2)
          else
            var d3 := DelData(server, d2, TestKey);
            if failsFrom == 5 then (false, d3)
            else
              var d4 := DelData(server, d3, Counter);
              if failsFrom == 6 then (false, d4)
              else (TestKey !in d4, d4)
  }

  /**
   * The probe succeeds against a server that carries out every command and
   * does not fail, provided the counter key is absent or holds an integer
   * Redis can increment: the result is True, neither test key is left, and
   * no other key is touched.
   */
  lemma HonestServerPasses(server: Server, data: map<string, string>, failsFrom: nat)
    requires Honest(server) && failsFrom > 6
    requires Counter in data ==> IsRedisInt(data[Counter]) && ParseInt(data[Counter]).value < Int64Max
    ensures Exercise(server, data, failsFrom).0
    ensures TestKey !in Exercise(server, data, failsFrom).1 && Counter !in Exercise(server, data, failsFrom).1
  {
    var d1 := SetData(server, data, TestKey, Payload);
    assert Counter in d1 ==> d1[Counter] == data[Counter];
  }

  // ----- the tester -----

  /** The environment of one cycle: what `connect` does if called, where commands start to raise, a stop request. */
  datatype CycleEnv = CycleEnv(connect: ConnectOutcome, failsFrom: nat, stopAfter: bool)

  /** What one cycle reads and writes: the cached connection, `result`, the gauge, the server's keyspace. */
  datatype ProbeState = ProbeState(connection: Option<Handle>, result: bool, gauge: int, data: map<string, string>)

  datatype CycleOutcome = CycleOutcome(state: ProbeState, escaped: Option<Error>)

  /**
   * One pass of `test_redis`'s loop: every exception of the `try` body is
   * caught (a missing connection makes `None.set` raise), so the cycle always
   * writes the gauge; only the sleep after it can raise.
   */
  function Step(complete: bool, server: Server, interval: Value, s: ProbeState, env: CycleEnv): (o: CycleOutcome)
    ensures o.state.gauge == if o.state.result then 1 else 0
    ensures o.escaped == SleepError(interval)
    ensures o.state.result ==> complete && TestKey !in o.state.data && env.failsFrom > 6
    ensures complete && s.connection.Some? ==> o.state.connection == s.connection
    ensures complete && s.connection.None? && env.connect.Opened? ==> o.state.connection == Some(env.connect.h)
  {
    var got := Reconnect(complete, s.connection.None?, s.connection, env.connect, true);
    var conn := if got.Ok? then got.value else s.connection;
    var o := if got.Ok? && got.value.Some? then Exercise(server, s.data, env.failsFrom) else (false, s.data);
    CycleOutcome(ProbeState(conn, o.0, if o.0 then 1 else 0, o.1), SleepError(interval))
  }

  datatype RunOutcome = RunOutcome(state: ProbeState, cycles: nat, escaped: Option<Error>)

  /** `while not self.stop_event.is_set(): ...` over successive cycles' environments. */
  function Run(complete: bool, server: Server, interval: Value, s: ProbeState, stopped: bool,
               envs: seq<CycleEnv>): (r: RunOutcome)
    decreases |envs|
    ensures r.cycles <= |envs|
    ensures r.escaped.Some? ==> r.escaped == SleepError(interval) && r.cycles == 1
  {
    if stopped || |envs| == 0 then RunOutcome(s, 0, None)
    else
      var o := Step(complete, server, interval, s, envs[0]);
      if o.escaped.Some? then RunOutcome(o.state, 1, o.escaped)
      else
        var rest := Run(complete, server, interval, o.state, envs[0].stopAfter, envs[1..]);
        RunOutcome(rest.state, rest.cycles + 1, rest.escaped)
  }

  /**
   * No Redis or connection failure ends the loop: with a valid
   * `check_interval` it runs one cycle per environment until stopped, and
   * the gauge always shows the last result.
   */
  lemma {:induction false} RunNeverEndsOnBackendError(complete: bool, server: Server, interval: Value,
                                                      s: ProbeState, envs: seq<CycleEnv>)
    requires SleepError(interval).None?
    requires forall k :: 0 <= k < |envs| ==> !envs[k].stopAfter
    ensures Run(complete, server, interval, s, false, envs).escaped.None?
    ensures Run(complete, server, interval, s, false, envs).cycles == |envs|
    ensures |envs| > 0 ==> var r := Run(complete, server, interval, s, false, envs).state;
                           r.gauge == if r.result then 1 else 0
    decreases |envs|
  {
    if |envs| > 0 {
      var o := Step(complete, server, interval, s, envs[0]);
      RunNeverEndsOnBackendError(complete, server, interval, o.state, envs[1..]);
    }
  }

  /**
   * Conversely, a cycle that has a connection (cached, or opened now) to a
   * server carrying out every command and never raising reports healthy:
   * `result` True, the gauge at 1, and neither test key left behind.
   */
  lemma HonestCyclePasses(server: Server, interval: Value, s: ProbeState, env: CycleEnv)
    requires Honest(server) && env.failsFrom > 6
    requires s.connection.Some? || env.connect.Opened?
    requires Counter in s.data ==> IsRedisInt(s.data[Counter]) && ParseInt(s.data[Counter]).value < Int64Max
    ensures var o := Step(true, server, interval, s, env);
            o.state.result && o.state.gauge == 1 && TestKey !in o.state.data && Counter !in o.state.data
  {
    HonestServerPasses(server, s.data, env.failsFrom);
  }

  /** One Redis connection holder: the credentials and the cached client. */
  class RedisConnection {
    var password: Value
    var db: Value
    var fqdn: Value
    var port: Value
    var connection: Option<Handle>
    /** False for the half-built instance `__new__` leaves behind when it raises. */
    var complete: bool

    function Credentials(): Target
      reads this
    {
      Target(VNone, password, db, fqdn, port)
    }

    /** What the holder's class slot shows of this instance. */
    function Kind(): Slot
      reads this
    {
      if complete then Built(Credentials()) else HalfBuilt
    }

    constructor (t: Target)
      ensures Credentials() == t.(username := VNone) && connection == None && complete
    {
      password, db, fqdn, port := t.password, t.database, t.fqdn, t.port;
      connection := None;
      complete := true;
    }

    /** The instance stored in `_instance` before `__new__` raised. */
    constructor Partial()
      ensures connection == None && !complete
    {
      password, db, fqdn, port := VNone, VNone, VNone, VNone;
      connection := None;
      complete := false;
    }

    /**
     * `connect()`: catches every exception, so a failure is logged and
     * leaves the cached client as it was; nothing escapes.
     */
    method Connect(outcome: ConnectOutcome)
      requires complete
      modifies this`connection
      ensures connection == if outcome.Opened? then Some(outcome.h) else old(connection)
    {
      connection := Driver.Connect(connection, outcome, true).value;
    }

    /** `get_connection()`: connects only when nothing is cached. */
    method GetConnection(outcome: ConnectOutcome) returns (r: Result<Option<Handle>>)
      modifies this`connection
      ensures r == Reconnect(complete, old(connection).None?, old(connection), outcome, true)
      ensures connection == if r.Ok? then r.value else old(connection)
      ensures complete && old(connection).Some? ==> r == Ok(old(connection))
    {
      if !complete {
        return Err(AttributeError);
      }
      if connection.None? {
        Connect(outcome);
      }
      r := Ok(connection);
    }
  }

  /** The class attribute `RedisConnection._instance`. */
  class RedisConnectionClass {
    var instance: RedisConnection?

    function Current(): Slot
      reads this, instance
    {
      if instance == null then Empty else instance.Kind()
    }

    constructor ()
      ensures instance == null
    {
      instance := null;
    }

    /**
     * `RedisConnection(authentication, fqdn, port)`: the first call stores a
     * holder built from its arguments; later calls return it unchanged.
     */
    method New(authentication: Value, fqdn: Value, port: Value) returns (r: Result<RedisConnection>)
      modifies this
      ensures old(instance) != null ==> r == Ok(old(instance)) && instance == old(instance) && unchanged(instance)
      ensures old(instance) == null ==> instance != null && fresh(instance) && instance.connection == None
      ensures old(instance) == null ==> (r.Ok? <==> InitTarget(authentication, fqdn, port).Ok?)
      ensures old(instance) == null && r.Ok? ==>
                r.value == instance && instance.complete &&
                instance.Credentials() == InitTarget(authentication, fqdn, port).value
      ensures old(instance) == null && r.Err? ==>
                r.error == InitTarget(authentication, fqdn, port).error && !instance.complete
      ensures Current() == Instantiate(old(Current()), InitTarget(authentication, fqdn, port)).0
      ensures Instantiate(old(Current()), InitTarget(authentication, fqdn, port)).1 == if r.Err? then Some(r.error) else None
    {
      if instance == null {
        var t := InitTarget(authentication, fqdn, port);
        if t.Err? {
          instance := new RedisConnection.Partial();
          return Err(t.error);
        }
        instance := new RedisConnection(t.value);
      }
      r := Ok(instance);
    }
  }

  /** `redis_test`: the prober of one configured Redis service. */
  class RedisTest {
    const holder: RedisConnection
    const checkInterval: Value
    var stopped: bool
    /** `result`, False until the first cycle assigns it; `test_redis` assigns it on every path before reading it. */
    var result: bool

    constructor (holder: RedisConnection, checkInterval: Value)
      ensures this.holder == holder && this.checkInterval == checkInterval
      ensures !stopped && !result
    {
      this.holder := holder;
      this.checkInterval := checkInterval;
      stopped := false;
      result := false;
    }

    function State(metric: Gauge, store: KeyValueStore): ProbeState
      reads this, holder, metric, store
    {
      ProbeState(holder.connection, result, metric.value, store.data)
    }

    /** `stop_threads()` */
    method StopThreads()
      modifies this`stopped
      ensures stopped
    {
      stopped := true;
    }

    /** The command sequence of the `try` body against the connected server. */
    method RunCommands(store: KeyValueStore, failsFrom: nat) returns (ok: bool)
      modifies store`data
      ensures (ok, store.data) == Exercise(store.server, old(store.data), failsFrom)
    {
      var err := store.Set(TestKey, Payload, 0 >= failsFrom);
      if err.Some? {
        return false;
      }
      var value := store.Get(TestKey, 1 >= failsFrom);
      if value.Err? {
        return false;
      }
      if !(value.value.Some? && value.value.value == Payload) {
        return false;
      }
      err := store.Incr(Counter, 1, 2 >= failsFrom);
      if err.Some? {
        return false;
      }
      var counter := store.Get(Counter, 3 >= failsFrom);
      if counter.Err? || counter.value.None? {
        return false;
      }
      var deleted := store.Delete(TestKey, 4 >= failsFrom);
      if deleted.Err? {
        return false;
      }
      deleted := store.Delete(Counter, 5 >= failsFrom);
      if deleted.Err? {
        return false;
      }
      var keyExists := store.Exists(TestKey, 6 >= failsFrom);
      if keyExists.Err? {
        return false;
      }
      ok := keyExists.value == 0;
    }

    /** One pass of `test_redis`'s loop body. */
    method TestRedisCycle(metric: Gauge, store: KeyValueStore, env: CycleEnv) returns (escaped: Option<Error>)
      modifies this`result, holder`connection, metric, store`data
      ensures var o := Step(holder.complete, store.server, checkInterval, old(State(metric, store)), env);
              State(metric, store) == o.state && escaped == o.escaped
    {
      var got := holder.GetConnection(env.connect);
      var ok := false;
      if got.Ok? && got.value.Some? {
        ok := RunCommands(store, env.failsFrom);
      }
      result := ok;
      metric.Set(if result then 1 else 0);
      escaped := SleepError(checkInterval);
    }

    /** `test_redis`: cycles while the stop flag is unset. */
    method TestRedis(metric: Gauge, store: KeyValueStore, envs: seq<CycleEnv>) returns (cycles: nat, escaped: Option<Error>)
      modifies this`result, this`stopped, holder`connection, metric, store`data
      ensures var r := Run(holder.complete, store.server, checkInterval, old(State(metric, store)), old(stopped), envs);
              State(metric, store) == r.state && cycles == r.cycles && escaped == r.escaped
    {
      ghost var whole := Run(holder.complete, store.server, checkInterval, State(metric, store), stopped, envs);
      var i := 0;
      while i < |envs| && !stopped
        invariant 0 <= i <= |envs|
        invariant var r := Run(holder.complete, store.server, checkInterval, State(metric, store), stopped, envs[i..]);
                  whole.state == r.state && whole.cycles == i + r.cycles && whole.escaped == r.escaped
      {
        assert envs[i..][1..] == envs[i + 1..];
        var e := TestRedisCycle(metric, store, envs[i]);
        if e.Some? {
          return i + 1, e;
        }
        if envs[i].stopAfter {
          StopThreads();
        }
        i := i + 1;
      }
      cycles, escaped := i, None;
    }
  }

  /** `redis_test(...)`: binds a new tester to the process-wide holder. */
  method NewTest(slot: RedisConnectionClass, authentication: Value, fqdn: Value, port: Value, checkInterval: Value)
    returns (r: Result<RedisTest>)
    modifies slot
    ensures old(slot.instance) != null ==> r.Ok? && r.value.holder == old(slot.instance)
    ensures old(slot.instance) == null ==> (r.Ok? <==> InitTarget(authentication, fqdn, port).Ok?)
    ensures slot.Current() == Instantiate(old(slot.Current()), InitTarget(authentication, fqdn, port)).0
    ensures Instantiate(old(slot.Current()), InitTarget(authentication, fqdn, port)).1 == if r.Err? then Some(r.error) else None
    ensures r.Ok? ==> fresh(r.value) && r.value.holder == slot.instance && r.value.checkInterval == checkInterval
    ensures r.Ok? ==> !r.value.result && !r.value.stopped
  {
    var h := slot.New(authentication, fqdn, port);
    if h.Err? {
      return Err(h.error);
    }
    var t := new RedisTest(h.value, checkInterval);
    r := Ok(t);
  }
}
