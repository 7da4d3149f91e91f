/**
 * The probe cycle shared by the MySQL and PostgreSQL testers
 * (`query_check`): get a connection, run `SELECT 1`, set `result` from the
 * first column of the first row, write the gauge, sleep. Both testers catch
 * only their driver's own error class, so any other exception ends the loop.
 * The two differ only in when `get_connection` reconnects (`Policy`).
 */
module SqlProbe {
  import opened Values
  import opened Driver

  /**
   * The attributes the MySQL and PostgreSQL holders' `__new__` sets: `username`, `password` and `db` come from
   * `authentication.get(key, None)`, so a missing key gives None; an
   * `authentication` that is not a dict has no `.get` and raises.
   */
  function InitTarget(authentication: Value, fqdn: Value, port: Value): (r: Result<Target>)
    ensures r.Ok? <==> authentication.VDict?
    ensures r.Err? ==> r.error == AttributeError
    ensures r.Ok? ==> r.value.fqdn == fqdn && r.value.port == port
    ensures r.Ok? ==> Ok(r.value.username) == DictGet(authentication, "username", VNone)
    ensures r.Ok? ==> Ok(r.value.password) == DictGet(authentication, "password", VNone)
    ensures r.Ok? ==> Ok(r.value.database) == DictGet(authentication, "db", VNone)
  {
    if !authentication.VDict? then Err(AttributeError)
    else
      Ok(Target(DictGet(authentication, "username", VNone).value,
                DictGet(authentication, "password", VNone).value,
                DictGet(authentication, "db", VNone).value,
                fqdn, port))
  }

  /** What `cursor()`, `execute("SELECT 1")` and `fetchone()` produced: a row (or None), or an exception. */
  datatype QueryOutcome = Row(row: Option<seq<Value>>) | QueryRaised(e: Error)

  /**
   * The environment of one cycle: what `connect` does if it is called, what
   * the query does, and whether another thread called `stop_threads` during
   * the cycle.
   */
  datatype CycleEnv = CycleEnv(connect: ConnectOutcome, query: QueryOutcome, stopAfter: bool)

  /** The tester state a cycle reads and writes: the holder's cached connection, `result`, the gauge. */
  datatype ProbeState = ProbeState(connection: Option<Handle>, result: bool, gauge: int)

  /**
   * The state after one cycle, the value written to the gauge if the cycle
   * got that far, and the exception that ended the loop, if one escaped.
   */
  datatype CycleOutcome = CycleOutcome(state: ProbeState, written: Option<int>, escaped: Option<Error>)

  /** The reconnect rule of `get_connection`: MySQL forces a reconnect after a failed cycle. */
  datatype Policy = ForceAfterFailure | ReuseCached

  /** The tester's state before its first cycle: nothing cached, `result` False, gauge child at 0. */
  const Initial: ProbeState := ProbeState(None, false, 0)

  /** The gauge shows the last `result`: 1 iff True. */
  predicate Consistent(s: ProbeState) {
    s.gauge == if s.result then 1 else 0
  }

  /** The query returned a row whose first column is 1. */
  predicate Healthy(q: QueryOutcome) {
    q.Row? && q.row.Some? && |q.row.value| > 0 && q.row.value[0] == VInt(1)
  }

  /** Whether `get_connection` calls `connect` in a cycle that starts in `s`. */
  function Reconnects(p: Policy, s: ProbeState): (b: bool)
    ensures s.connection.None? ==> b
    ensures p == ForceAfterFailure && !s.result ==> b
    ensures p == ReuseCached && s.connection.Some? ==> !b
    ensures b ==> s.connection.None? || (p == ForceAfterFailure && !s.result)
  {
    match p
    case ForceAfterFailure => !s.result || s.connection.None?
    case ReuseCached => s.connection.None?
  }

  /** `connection.cursor()` ... `cursor.fetchone()[0] == 1`, or the exception raised on the way. */
  function Query(conn: Option<Handle>, q: QueryOutcome): (r: Result<bool>)
    ensures conn.None? ==> r == Err(AttributeError)
    ensures r == Ok(true) <==> conn.Some? && Healthy(q)
    ensures conn.Some? && q.QueryRaised? ==> r == Err(q.e)
    ensures conn.Some? && q == Row(None) ==> r == Err(TypeError)
    ensures conn.Some? && q == Row(Some([])) ==> r == Err(IndexError)
    ensures conn.Some? && q.Row? && q.row.Some? && |q.row.value| > 0 ==> r.Ok?
  {
    if conn.None? then Err(AttributeError)
    else
      match q
      case QueryRaised(e) => Err(e)
      case Row(None) => Err(TypeError)
      case Row(Some(cols)) => if |cols| == 0 then Err(IndexError) else Ok(cols[0] == VInt(1))
  }

  /**
   * The body of the `while` loop, given what `get_connection` returned: a
   * driver error is caught and recorded as False; the gauge is then written
   * and the sleep may raise; any other exception leaves `result` and the
   * gauge as they were and escapes.
   */
  function Finish(s: ProbeState, got: Result<Option<Handle>>, q: QueryOutcome, interval: Value): (o: CycleOutcome)
    ensures o.state.connection == if got.Ok? then got.value else s.connection
    ensures o.escaped != Some(DriverError)
    ensures Consistent(s) ==> Consistent(o.state)
    ensures o.written.Some? ==> o.written.value == o.state.gauge
    ensures o.escaped.None? ==> o.written.Some?
    ensures o.state.result <==> if got.Ok? && Query(got.value, q).Ok? then Query(got.value, q).value
                                else if got.Ok? && Query(got.value, q).error == DriverError then false
                                else if got.Err? && got.error == DriverError then false
                                else s.result
  {
    var conn := if got.Ok? then got.value else s.connection;
    var verdict := if got.Err? then Err(got.error) else Query(got.value, q);
    if verdict.Err? && verdict.error != DriverError then
      CycleOutcome(s.(connection := conn), None, Some(verdict.error))
    else
      var result := verdict == Ok(true);
      var gauge := if result then 1 else 0;
      CycleOutcome(ProbeState(conn, result, gauge), Some(gauge), SleepError(interval))
  }

  /** One whole cycle under reconnect policy `p`. */
  function Step(p: Policy, complete: bool, interval: Value, s: ProbeState, env: CycleEnv): (o: CycleOutcome)
    ensures o.escaped != Some(DriverError)
    ensures Consistent(s) ==> Consistent(o.state)
    ensures complete && Reconnects(p, s) && env.connect.Opened? ==> o.state.connection == Some(env.connect.h)
    ensures !Reconnects(p, s) || env.connect.Raised? ==> o.state.connection == s.connection
    ensures o.escaped.None? ==>
              (o.state.result <==>
                 (complete && Healthy(env.query) && (Reconnects(p, s) ==> env.connect.Opened? || s.connection.Some?)))
    ensures o.escaped.None? ==> SleepError(interval).None?
    ensures o.written.Some? ==> o.written.value == o.state.gauge
    ensures o.escaped.None? ==> o.written.Some?
  {
    var got := Reconnect(complete, Reconnects(p, s), s.connection, env.connect, false);
    Finish(s, got, env.query, interval)
  }

  /** What a run of the loop ended with. */
  datatype RunOutcome = RunOutcome(state: ProbeState, writes: seq<int>, cycles: nat, escaped: Option<Error>)

  /**
   * `while not self.stop_event.is_set(): ...` over the environments of
   * successive cycles, stopping early when the stop flag is set or an
   * exception escapes. `writes` lists the gauge values written, in order.
   */
  function Run(p: Policy, complete: bool, interval: Value, s: ProbeState, stopped: bool, envs: seq<CycleEnv>): (r: RunOutcome)
    decreases |envs|
    ensures r.cycles <= |envs| && |r.writes| <= r.cycles
    ensures stopped ==> r == RunOutcome(s, [], 0, None)
  {
    if stopped || |envs| == 0 then RunOutcome(s, [], 0, None)
    else
      var o := Step(p, complete, interval, s, envs[0]);
      var written := if o.written.Some? then [o.written.value] else [];
      if o.escaped.Some? then RunOutcome(o.state, written, 1, o.escaped)
      else
        var rest := Run(p, complete, interval, o.state, envs[0].stopAfter, envs[1..]);
        RunOutcome(rest.state, written + rest.writes, rest.cycles + 1, rest.escaped)
  }

  /** Every run keeps the gauge equal to 1 iff `result`, so it only ever shows 0 or 1. */
  lemma {:induction false} RunKeepsConsistent(p: Policy, complete: bool, interval: Value, s: ProbeState,
                                               stopped: bool, envs: seq<CycleEnv>)
    requires Consistent(s)
    ensures Consistent(Run(p, complete, interval, s, stopped, envs).state)
    ensures forall k :: 0 <= k < |Run(p, complete, interval, s, stopped, envs).writes| ==>
              Run(p, complete, interval, s, stopped, envs).writes[k] in {0, 1}
    decreases |envs|
  {
    if !stopped && |envs| > 0 {
      var o := Step(p, complete, interval, s, envs[0]);
      if o.escaped.None? {
        RunKeepsConsistent(p, complete, interval, o.state, envs[0].stopAfter, envs[1..]);
      }
    }
  }

  /** The connection is always opened and every query either answers with a row or raises a driver error. */
  predicate Answering(env: CycleEnv) {
    && env.connect.Opened?
    && !env.stopAfter
    && ((env.query.Row? && env.query.row.Some? && |env.query.row.value| > 0) || env.query == QueryRaised(DriverError))
  }

  /**
   * Against a backend that stays reachable, every cycle runs, and the gauge
   * series is exactly the sequence of query verdicts: 1 for each cycle whose
   * `SELECT 1` returned 1, 0 for each that did not (a run of successes shows
   * 1s, a run of failures 0s, an alternation alternates).
   */
  lemma {:induction false} RunObservesEachCycle(p: Policy, interval: Value, s: ProbeState, envs: seq<CycleEnv>)
    requires SleepError(interval).None?
    requires forall k :: 0 <= k < |envs| ==> Answering(envs[k])
    requires s.connection.Some? || |envs| == 0 || Reconnects(p, s)
    ensures Run(p, true, interval, s, false, envs).escaped.None?
    ensures Run(p, true, interval, s, false, envs).cycles == |envs|
    ensures |Run(p, true, interval, s, false, envs).writes| == |envs|
    ensures forall k :: 0 <= k < |envs| ==>
              Run(p, true, interval, s, false, envs).writes[k] == if Healthy(envs[k].query) then 1 else 0
    decreases |envs|
  {
    if |envs| > 0 {
      var o := Step(p, true, interval, s, envs[0]);
      assert o.state.connection.Some?;
      RunObservesEachCycle(p, interval, o.state, envs[1..]);
      var rest := Run(p, true, interval, o.state, false, envs[1..]);
      var r := Run(p, true, interval, s, false, envs);
      assert r.writes == [o.state.gauge] + rest.writes;
      forall k | 0 <= k < |envs|
        ensures r.writes[k] == if Healthy(envs[k].query) then 1 else 0
      {
        if k > 0 {
          assert r.writes[k] == rest.writes[k - 1];
          assert envs[1..][k - 1] == envs[k];
        }
      }
    }
  }

  /**
   * A stop request during cycle `k` lets no further cycle start: the loop
   * runs at most `k + 1` cycles.
   */
  lemma {:induction false} RunStopsAfterRequest(p: Policy, complete: bool, interval: Value, s: ProbeState,
                                                stopped: bool, envs: seq<CycleEnv>, k: nat)
    requires k < |envs| && envs[k].stopAfter
    ensures Run(p, complete, interval, s, stopped, envs).cycles <= k + 1
    decreases |envs|
  {
    if !stopped && k > 0 {
      var o := Step(p, complete, interval, s, envs[0]);
      if o.escaped.None? {
        RunStopsAfterRequest(p, complete, interval, o.state, envs[0].stopAfter, envs[1..], k - 1);
      }
    }
  }

  /**
   * A backend that cannot be reached when the tester starts ends the loop in
   * its first cycle: `connect` only logs the driver error, the connection
   * stays None, and `None.cursor()` raises an AttributeError that neither
   * tester catches. No value is ever written to the gauge.
   */
  lemma UnreachableAtStartEndsLoop(p: Policy, interval: Value, envs: seq<CycleEnv>)
    requires |envs| > 0 && envs[0].connect == Raised(DriverError)
    ensures Run(p, true, interval, Initial, false, envs) == RunOutcome(Initial, [], 1, Some(AttributeError))
  {
  }
}
