/**
 * The PostgreSQL prober: the process-wide connection holder
 * `PostgreSQLConnection` (its class-level `_instance` slot, `get_connection`
 * and `connect`) and the tester `postgresql_test`, which reconnects only when
 * no connection is cached, even after failed cycles.
 */
module PostgreSQL {
  import opened Values
  import opened Driver
  import opened Metrics
  import opened SqlProbe

  /** One PostgreSQL connection holder: the credentials and the cached connection. */
  class PostgreSQLConnection {
    var username: Value
    var password: Value
    var database: Value
    var fqdn: Value
    var port: Value
    var connection: Option<Handle>
    /** False for the half-built instance `__new__` leaves behind when it raises. */
    var complete: bool

    function Credentials(): Target
      reads this
    {
      Target(username, password, database, fqdn, port)
    }

    /** What the holder's class slot shows of this instance. */
    function Kind(): Slot
      reads this
    {
      if complete then Built(Credentials()) else HalfBuilt
    }

    constructor (t: Target)
      ensures Credentials() == t && connection == None && complete
    {
      username, password, database, fqdn, port := t.username, t.password, t.database, t.fqdn, t.port;
      connection := None;
      complete := true;
    }

    /** The instance stored in `_instance` before `__new__` raised: none of its attributes were set. */
    constructor Partial()
      ensures connection == None && !complete
    {
      username, password, database, fqdn, port := VNone, VNone, VNone, VNone, VNone;
      connection := None;
      complete := false;
    }

    /**
     * `connect()`: a new connection replaces the cached one; a
     * `psycopg2.Error` is logged and leaves the cached value as it was;
     * any other exception escapes.
     */
    method Connect(outcome: ConnectOutcome) returns (escaped: Option<Error>)
      modifies this`connection
      ensures complete && outcome.Opened? ==> connection == Some(outcome.h) && escaped.None?
      ensures complete && outcome == Raised(DriverError) ==> connection == old(connection) && escaped.None?
      ensures complete && outcome.Raised? && outcome.e != DriverError ==>
                connection == old(connection) && escaped == Some(outcome.e)
      ensures !complete ==> connection == old(connection) && escaped == Some(AttributeError)
    {
      if !complete {
        // reading `self.username` raises before the library is called
        return Some(AttributeError);
      }
      var r := Driver.Connect(connection, outcome, false);
      if r.Ok? {
        connection := r.value;
        escaped := None;
      } else {
        escaped := Some(r.error);
      }
    }

    /**
     * `get_connection()`: connects only when nothing is cached; returns the
     * cached connection afterwards.
     */
    method GetConnection(outcome: ConnectOutcome) returns (r: Result<Option<Handle>>)
      modifies this`connection
      ensures r == Reconnect(complete, old(connection).None?, old(connection), outcome, false)
      ensures connection == if r.Ok? then r.value else old(connection)
      ensures complete && old(connection).None? && outcome.Opened? ==> r == Ok(Some(outcome.h))
      ensures complete && old(connection).Some? ==> r == Ok(old(connection))
    {
      if !complete {
        return Err(AttributeError);
      }
      if connection.None? {
        var escaped := Connect(outcome);
        if escaped.Some? {
          return Err(escaped.value);
        }
      }
      r := Ok(connection);
    }
  }

  /** The class attribute `PostgreSQLConnection._instance`: at most one holder per process. */
  class PostgreSQLConnectionClass {
    var instance: PostgreSQLConnection?

    function Current(): Slot
      reads this, instance
    {
      if instance == null then Empty else instance.Kind()
    }

    constructor ()
      ensures instance == null
    {
      instance := null;
    }

    /**
     * `PostgreSQLConnection(authentication, fqdn, port)`: the first call stores a
     * new holder built from its arguments; every later call returns that same
     * holder and ignores its arguments. When building raises, the slot still
     * holds the half-built instance.
     */
    method New(authentication: Value, fqdn: Value, port: Value) returns (r: Result<PostgreSQLConnection>)
      modifies this
      ensures old(instance) != null ==> r == Ok(old(instance)) && instance == old(instance) && unchanged(instance)
      ensures old(instance) == null ==> instance != null && fresh(instance) && instance.connection == None
      ensures old(instance) == null ==> (r.Ok? <==> InitTarget(authentication, fqdn, port).Ok?)
      ensures old(instance) == null && r.Ok? ==>
                r.value == instance && instance.complete &&
                instance.Credentials() == InitTarget(authentication, fqdn, port).value
      ensures old(instance) == null && r.Err? ==>
                r.error == InitTarget(authentication, fqdn, port).error && !instance.complete
      ensures Current() == Instantiate(old(Current()), InitTarget(authentication, fqdn, port)).0
      ensures Instantiate(old(Current()), InitTarget(authentication, fqdn, port)).1 == if r.Err? then Some(r.error) else None
    {
      if instance == null {
        var t := InitTarget(authentication, fqdn, port);
        if t.Err? {
          instance := new PostgreSQLConnection.Partial();
          return Err(t.error);
        }
        instance := new PostgreSQLConnection(t.value);
      }
      r := Ok(instance);
    }
  }

  /** `postgresql_test`: the prober of one configured PostgreSQL service. */
  class PostgreSQLTest {
    const holder: PostgreSQLConnection
    const checkInterval: Value
    /** `stop_event.is_set()` */
    var stopped: bool
    /** The verdict of the last completed cycle; False before the first. */
    var result: bool

    constructor (holder: PostgreSQLConnection, checkInterval: Value)
      ensures this.holder == holder && this.checkInterval == checkInterval
      ensures !stopped && !result
    {
      this.holder := holder;
      this.checkInterval := checkInterval;
      stopped := false;
      result := false;
    }

    function State(metric: Gauge): ProbeState
      reads this, holder, metric
    {
      ProbeState(holder.connection, result, metric.value)
    }

    /** `stop_threads()` */
    method StopThreads()
      modifies this`stopped
      ensures stopped
    {
      stopped := true;
    }

    /**
     * One pass of `query_check`'s loop body: `get_connection()`, then
     * `SELECT 1`, then the gauge and the sleep.
     */
    method QueryCheckCycle(metric: Gauge, env: CycleEnv) returns (escaped: Option<Error>)
      modifies this`result, holder`connection, metric
      ensures State(metric) == Step(ReuseCached, holder.complete, checkInterval, old(State(metric)), env).state
      ensures escaped == Step(ReuseCached, holder.complete, checkInterval, old(State(metric)), env).escaped
    {
      var got := holder.GetConnection(env.connect);
      var verdict := if got.Err? then Err(got.error) else Query(got.value, env.query);
      if verdict.Err? && verdict.error != DriverError {
        return Some(verdict.error);
      }
      result := verdict == Ok(true);
      metric.Set(if result then 1 else 0);
      escaped := SleepError(checkInterval);
    }

    /**
     * `query_check`: cycles while the stop flag is unset, over the
     * environments `envs` of successive cycles; ends early when an exception
     * escapes a cycle.
     */
    method QueryCheck(metric: Gauge, envs: seq<CycleEnv>) returns (cycles: nat, escaped: Option<Error>)
      modifies this`result, this`stopped, holder`connection, metric
      ensures var r := Run(ReuseCached, holder.complete, checkInterval, old(State(metric)), old(stopped), envs);
              State(metric) == r.state && cycles == r.cycles && escaped == r.escaped
    {
      ghost var whole := Run(ReuseCached, holder.complete, checkInterval, State(metric), stopped, envs);
      var i := 0;
      while i < |envs| && !stopped
        invariant 0 <= i <= |envs|
        invariant var r := Run(ReuseCached, holder.complete, checkInterval, State(metric), stopped, envs[i..]);
                  whole.state == r.state && whole.cycles == i + r.cycles && whole.escaped == r.escaped
      {
        assert envs[i..][1..] == envs[i + 1..];
        var e := QueryCheckCycle(metric, envs[i]);
        if e.Some? {
          return i + 1, e;
        }
        if envs[i].stopAfter {
          StopThreads();
        }
        i := i + 1;
      }
      cycles, escaped := i, None;
    }
  }

  /**
   * `postgresql_test(authentication, fqdn, port, check_interval, registry)`: binds
   * a new tester to the process-wide holder; raises when creating that holder
   * raises.
   */
  method NewTest(slot: PostgreSQLConnectionClass, authentication: Value, fqdn: Value, port: Value, checkInterval: Value)
    returns (r: Result<PostgreSQLTest>)
    modifies slot
    ensures old(slot.instance) != null ==> r.Ok? && r.value.holder == old(slot.instance)
    ensures old(slot.instance) == null ==> (r.Ok? <==> InitTarget(authentication, fqdn, port).Ok?)
    ensures slot.Current() == Instantiate(old(slot.Current()), InitTarget(authentication, fqdn, port)).0
    ensures Instantiate(old(slot.Current()), InitTarget(authentication, fqdn, port)).1 == if r.Err? then Some(r.error) else None
    ensures r.Ok? ==> fresh(r.value) && r.value.holder == slot.instance && r.value.checkInterval == checkInterval
    ensures r.Ok? ==> !r.value.result && !r.value.stopped
  {
    var h := slot.New(authentication, fqdn, port);
    if h.Err? {
      return Err(h.error);
    }
    var t := new PostgreSQLTest(h.value, checkInterval);
    r := Ok(t);
  }

  /**
   * Once a connection is cached it is never replaced: however many cycles
   * fail, and whatever `connect` would do, every later cycle reuses it.
   */
  lemma {:induction false} CachedConnectionIsKept(interval: Value, s: ProbeState, stopped: bool, envs: seq<CycleEnv>)
    requires s.connection.Some?
    ensures Run(ReuseCached, true, interval, s, stopped, envs).state.connection == s.connection
    decreases |envs|
  {
    if !stopped && |envs| > 0 {
      var o := Step(ReuseCached, true, interval, s, envs[0]);
      if o.escaped.None? {
        CachedConnectionIsKept(interval, o.state, envs[0].stopAfter, envs[1..]);
      }
    }
  }

  /**
   * Unlike MySQL, a failed cycle does not reconnect: with a connection
   * cached, what `connect` would return plays no part in the next cycle.
   */
  lemma FailureDoesNotReconnect(s: ProbeState, interval: Value, env: CycleEnv, other: ConnectOutcome)
    requires !s.result && s.connection.Some?
    ensures Step(ReuseCached, true, interval, s, env) == Step(ReuseCached, true, interval, s, env.(connect := other))
  {
  }
}
