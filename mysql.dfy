/**
 * The MySQL prober: the process-wide connection holder `MySQLConnection`
 * (its class-level `_instance` slot, `get_connection(force)` and `connect`)
 * and the tester `mysql_test`, whose loop forces a reconnect whenever the
 * previous cycle failed.
 */
module MySQL {
  import opened Values
  import opened Driver
  import opened Metrics
  import opened SqlProbe

  /** One MySQL connection holder: the credentials and the cached connection. */
  class MySQLConnection {
    var username: Value
    var password: Value
    var database: Value
    var fqdn: Value
    var port: Value
    var connection: Option<Handle>
    /** False for the half-built instance `__new__` leaves behind when it raises. */
    var complete: bool

    function Credentials(): Target
      reads this
    {
      Target(username, password, database, fqdn, port)
    }

    /** What the holder's class slot shows of this instance. */
    function Kind(): Slot
      reads this
    {
      if complete then Built(Credentials()) else HalfBuilt
    }

    constructor (t: Target)
      ensures Credentials() == t && connection == None && complete
    {
      username, password, database, fqdn, port := t.username, t.password, t.database, t.fqdn, t.port;
      connection := None;
      complete := true;
    }

    /** The instance stored in `_instance` before `__new__` raised: none of its attributes were set. */
    constructor Partial()
      ensures connection == None && !complete
    {
      username, password, database, fqdn, port := VNone, VNone, VNone, VNone, VNone;
      connection := None;
      complete := false;
    }

    /**
     * `connect()`: a new connection replaces the cached one; a
     * `mysql.connector.Error` is logged and leaves the cached value as it was;
     * any other exception escapes.
     */
    method Connect(outcome: ConnectOutcome) returns (escaped: Option<Error>)
      modifies this`connection
      ensures complete && outcome.Opened? ==> connection == Some(outcome.h) && escaped.None?
      ensures complete && outcome == Raised(DriverError) ==> connection == old(connection) && escaped.None?
      ensures complete && outcome.Raised? && outcome.e != DriverError ==>
                connection == old(connection) && escaped == Some(outcome.e)
      ensures !complete ==> connection == old(connection) && escaped == Some(AttributeError)
    {
      if !complete {
        // reading `self.username` raises before the library is called
        return Some(AttributeError);
      }
      var r := Driver.Connect(connection, outcome, false);
      if r.Ok? {
        connection := r.value;
        escaped := None;
      } else {
        escaped := Some(r.error);
      }
    }

    /**
     * `get_connection(force)`: connects when `force` is set, whatever is
     * cached, and otherwise only when nothing is cached; returns the cached
     * connection afterwards.
     */
    method GetConnection(force: bool, outcome: ConnectOutcome) returns (r: Result<Option<Handle>>)
      modifies this`connection
      ensures r == Reconnect(complete, force || old(connection).None?, old(connection), outcome, false)
      ensures connection == if r.Ok? then r.value else old(connection)
      ensures complete && force && outcome.Opened? ==> r == Ok(Some(outcome.h))
      ensures complete && !force && old(connection).Some? ==> r == Ok(old(connection))
    {
      if !complete {
        return Err(AttributeError);
      }
      if force || connection.None? {
        var escaped := Connect(outcome);
        if escaped.Some? {
          return Err(escaped.value);
        }
      }
      r := Ok(connection);
    }
  }

  /** The class attribute `MySQLConnection._instance`: at most one holder per process. */
  class MySQLConnectionClass {
    var instance: MySQLConnection?

    function Current(): Slot
      reads this, instance
    {
      if instance == null then Empty else instance.Kind()
    }

    constructor ()
      ensures instance == null
    {
      instance := null;
    }

    /**
     * `MySQLConnection(authentication, fqdn, port)`: the first call stores a
     * new holder built from its arguments; every later call returns that same
     * holder and ignores its arguments. When building raises, the slot still
     * holds the half-built instance.
     */
    method New(authentication: Value, fqdn: Value, port: Value) returns (r: Result<MySQLConnection>)
      modifies this
      ensures old(instance) != null ==> r == Ok(old(instance)) && instance == old(instance) && unchanged(instance)
      ensures old(instance) == null ==> instance != null && fresh(instance) && instance.connection == None
      ensures old(instance) == null ==> (r.Ok? <==> InitTarget(authentication, fqdn, port).Ok?)
      ensures old(instance) == null && r.Ok? ==>
                r.value == instance && instance.complete &&
                instance.Credentials() == InitTarget(authentication, fqdn, port).value
      ensures old(instance) == null && r.Err? ==>
                r.error == InitTarget(authentication, fqdn, port).error && !instance.complete
      ensures Current() == Instantiate(old(Current()), InitTarget(authentication, fqdn, port)).0
      ensures Instantiate(old(Current()), InitTarget(authentication, fqdn, port)).1 == if r.Err? then Some(r.error) else None
    {
      if instance == null {
        var t := InitTarget(authentication, fqdn, port);
        if t.Err? {
          instance := new MySQLConnection.Partial();
          return Err(t.error);
        }
        instance := new MySQLConnection(t.value);
      }
      r := Ok(instance);
    }
  }

  /** `mysql_test`: the prober of one configured MySQL service. */
  class MySQLTest {
    const holder: MySQLConnection
    const checkInterval: Value
    /** `stop_event.is_set()` */
    var stopped: bool
    /** The verdict of the last completed cycle; False before the first. */
    var result: bool

    constructor (holder: MySQLConnection, checkInterval: Value)
      ensures this.holder == holder && this.checkInterval == checkInterval
      ensures !stopped && !result
    {
      this.holder := holder;
      this.checkInterval := checkInterval;
      stopped := false;
      result := false;
    }

    function State(metric: Gauge): ProbeState
      reads this, holder, metric
    {
      ProbeState(holder.connection, result, metric.value)
    }

    /** `stop_threads()` */
    method StopThreads()
      modifies this`stopped
      ensures stopped
    {
      stopped := true;
    }

    /**
     * One pass of `query_check`'s loop body: `get_connection(force=True)`
     * exactly when the previous `result` is False, then `SELECT 1`, then the
     * gauge and the sleep.
     */
    method QueryCheckCycle(metric: Gauge, env: CycleEnv) returns (escaped: Option<Error>)
      modifies this`result, holder`connection, metric
      ensures State(metric) == Step(ForceAfterFailure, holder.complete, checkInterval, old(State(metric)), env).state
      ensures escaped == Step(ForceAfterFailure, holder.complete, checkInterval, old(State(metric)), env).escaped
    {
      var got := holder.GetConnection(!result, env.connect);
      var verdict := if got.Err? then Err(got.error) else Query(got.value, env.query);
      if verdict.Err? && verdict.error != DriverError {
        return Some(verdict.error);
      }
      result := verdict == Ok(true);
      metric.Set(if result then 1 else 0);
      escaped := SleepError(checkInterval);
    }

    /**
     * `query_check`: cycles while the stop flag is unset, over the
     * environments `envs` of successive cycles; ends early when an exception
     * escapes a cycle.
     */
    method QueryCheck(metric: Gauge, envs: seq<CycleEnv>) returns (cycles: nat, escaped: Option<Error>)
      modifies this`result, this`stopped, holder`connection, metric
      ensures var r := Run(ForceAfterFailure, holder.complete, checkInterval, old(State(metric)), old(stopped), envs);
              State(metric) == r.state && cycles == r.cycles && escaped == r.escaped
    {
      ghost var whole := Run(ForceAfterFailure, holder.complete, checkInterval, State(metric), stopped, envs);
      var i := 0;
      while i < |envs| && !stopped
        invariant 0 <= i <= |envs|
        invariant var r := Run(ForceAfterFailure, holder.complete, checkInterval, State(metric), stopped, envs[i..]);
                  whole.state == r.state && whole.cycles == i + r.cycles && whole.escaped == r.escaped
      {
        assert envs[i..][1..] == envs[i + 1..];
        var e := QueryCheckCycle(metric, envs[i]);
        if e.Some? {
          return i + 1, e;
        }
        if envs[i].stopAfter {
          StopThreads();
        }
        i := i + 1;
      }
      cycles, escaped := i, None;
    }
  }

  /**
   * `mysql_test(authentication, fqdn, port, check_interval, registry)`: binds
   * a new tester to the process-wide holder; raises when creating that holder
   * raises.
   */
  method NewTest(slot: MySQLConnectionClass, authentication: Value, fqdn: Value, port: Value, checkInterval: Value)
    returns (r: Result<MySQLTest>)
    modifies slot
    ensures old(slot.instance) != null ==> r.Ok? && r.value.holder == old(slot.instance)
    ensures old(slot.instance) == null ==> (r.Ok? <==> InitTarget(authentication, fqdn, port).Ok?)
    ensures slot.Current() == Instantiate(old(slot.Current()), InitTarget(authentication, fqdn, port)).0
    ensures Instantiate(old(slot.Current()), InitTarget(authentication, fqdn, port)).1 == if r.Err? then Some(r.error) else None
    ensures r.Ok? ==> fresh(r.value) && r.value.holder == slot.instance && r.value.checkInterval == checkInterval
    ensures r.Ok? ==> !r.value.result && !r.value.stopped
  {
    var h := slot.New(authentication, fqdn, port);
    if h.Err? {
      return Err(h.error);
    }
    var t := new MySQLTest(h.value, checkInterval);
    r := Ok(t);
  }

  /** `result` starts False, so the first cycle always reconnects, even over a cached connection. */
  lemma FirstCycleForcesReconnect(s: ProbeState, interval: Value, env: CycleEnv)
    requires !s.result && env.connect.Opened?
    ensures Step(ForceAfterFailure, true, interval, s, env).state.connection == Some(env.connect.h)
  {
  }

  /**
   * A reconnect recovers: after a cycle that failed, the next cycle opens a
   * fresh connection, so once the server answers again the probe reports
   * healthy, whatever stale connection was cached.
   */
  lemma ReconnectRecovers(s: ProbeState, interval: Value, env: CycleEnv)
    requires !s.result && SleepError(interval).None?
    requires env.connect.Opened? && Healthy(env.query)
    ensures var o := Step(ForceAfterFailure, true, interval, s, env);
            o.escaped.None? && o.state.result && o.state.gauge == 1 && o.state.connection == Some(env.connect.h)
  {
  }
}
