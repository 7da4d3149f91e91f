/**
 * The RabbitMQ prober: the process-wide holder `RabbitMQConnection`, which
 * reconnects when nothing is cached or the cached connection is closed, and
 * the tester `rabbitmq_test`, whose two workers (a sender publishing a
 * sentinel message every interval and a reader consuming the same queue)
 * write one gauge. The broker is a map from queue name to waiting messages.
 */
module RabbitMQ {
  import opened Values
  import opened Driver
  import opened Metrics

  /** `self.queue` and `self.payload`. */
  const Queue: string := "SRE_TEST_QUEUE"
  const Payload: string := "SRE_TEST_PAYLOAD"
  /** The default exchange, which routes a message to the queue named by its routing key. */
  const DefaultExchange: string := ""

  /**
   * The attributes `RabbitMQConnection.__new__` sets: `username` and
   * `password` from `authentication.get(key)`, None when missing.
   */
  function InitTarget(authentication: Value, fqdn: Value, port: Value): (r: Result<Target>)
    ensures r.Ok? <==> authentication.VDict?
    ensures r.Err? ==> r.error == AttributeError
    ensures r.Ok? ==> Ok(r.value.username) == DictGet(authentication, "username", VNone)
    ensures r.Ok? ==> Ok(r.value.password) == DictGet(authentication, "password", VNone)
    ensures r.Ok? ==> r.value.database == VNone && r.value.fqdn == fqdn && r.value.port == port
  {
    if !authentication.VDict? then Err(AttributeError)
    else
      Ok(Target(DictGet(authentication, "username", VNone).value,
                DictGet(authentication, "password", VNone).value,
                VNone, fqdn, port))
  }

  /** Whether `get_connection` calls `connect`: nothing cached, or the cached connection `is_closed`. */
  function Reconnects(cached: Option<Handle>, isClosed: bool): (b: bool)
    ensures cached.None? ==> b
    ensures isClosed ==> b
    ensures cached.Some? && !isClosed ==> !b
  {
    cached.None? || isClosed
  }

  // ----- the broker -----

  /** The queues after `queue_declare(queue=q)`: created empty if missing, otherwise untouched. */
  function Declared(queues: map<string, seq<string>>, q: string): (r: map<string, seq<string>>)
    ensures q in r && (q in queues ==> r == queues)
    ensures q !in queues ==> r[q] == []
    ensures forall j :: j != q ==> (j in r <==> j in queues) && (j in r ==> r[j] == queues[j])
  {
    if q in queues then queues else queues[q := []]
  }

  /**
   * The queues after `basic_publish(exchange, routing_key, body)`: the default
   * exchange appends the message to the queue named by the routing key, and
   * drops it when there is no such queue; other exchanges are not modelled
   * and route nowhere.
   */
  function Published(queues: map<string, seq<string>>, exchange: string, key: string, body: string)
    : (r: map<string, seq<string>>)
    ensures exchange == DefaultExchange && key in queues ==> r == queues[key := queues[key] + [body]]
    ensures exchange != DefaultExchange || key !in queues ==> r == queues
  {
    if exchange == DefaultExchange && key in queues then queues[key := queues[key] + [body]] else queues
  }

  /** The broker the holder's connection talks to. */
  class Broker {
    var queues: map<string, seq<string>>

    constructor (queues: map<string, seq<string>>)
      ensures this.queues == queues
    {
      this.queues := queues;
    }

    /** `channel.queue_declare(queue=q)`; `raises` stands for a channel or connection error. */
    method Declare(q: string, raises: bool) returns (err: Option<Error>)
      modifies this
      ensures err == if raises then Some(DriverError) else None
      ensures queues == if raises then old(queues) else Declared(old(queues), q)
    {
      if raises {
        return Some(DriverError);
      }
      queues := Declared(queues, q);
      err := None;
    }

    /** `channel.basic_publish(exchange, routing_key, body)`. */
    method Publish(exchange: string, key: string, body: string, raises: bool) returns (err: Option<Error>)
      modifies this
      ensures err == if raises then Some(DriverError) else None
      ensures queues == if raises then old(queues) else Published(old(queues), exchange, key, body)
    {
      if raises {
        return Some(DriverError);
      }
      queues := Published(queues, exchange, key, body);
      err := None;
    }

    /** Delivery of the first waiting message of `q` to a consumer with `auto_ack=True`: it leaves the queue. */
    method Deliver(q: string) returns (body: string)
      requires q in queues && |queues[q]| > 0
      modifies this
      ensures body == old(queues[q][0]) && queues == old(queues[q := queues[q][1..]])
    {
      body := queues[q][0];
      queues := queues[q := queues[q][1..]];
    }
  }

  // ----- one cycle of each worker -----

  /**
   * What one sender cycle meets: whether the cached connection `is_closed`,
   * what `connect` does if called, the first of `channel()` (0),
   * `queue_declare` (1) and `basic_publish` (2) that raises, and a stop request.
   */
  datatype SendEnv = SendEnv(isClosed: bool, connect: ConnectOutcome, failsFrom: nat, stopAfter: bool)

  /**
   * What one reader cycle meets: as for the sender, with `basic_consume` as
   * call 2; then how many messages `start_consuming` delivers before it
   * raises (`consumeRaises`) or returns.
   */
  datatype ReadEnv = ReadEnv(isClosed: bool, connect: ConnectOutcome, failsFrom: nat, deliveries: nat,
                             consumeRaises: bool, stopAfter: bool)

  /** What a worker cycle reads and writes: the shared cached connection, the shared gauge, the broker's queues. */
  datatype ProbeState = ProbeState(connection: Option<Handle>, gauge: int, queues: map<string, seq<string>>)

  datatype CycleOutcome = CycleOutcome(state: ProbeState, escaped: Option<Error>)

  /** `get_connection()` of the RabbitMQ holder; `connect` catches every exception. */
  function ConnectionAfter(complete: bool, cached: Option<Handle>, isClosed: bool, outcome: ConnectOutcome)
    : (r: Result<Option<Handle>>)
    ensures !complete ==> r == Err(AttributeError)
    ensures complete ==> r.Ok?
    ensures complete && Reconnects(cached, isClosed) && outcome.Opened? ==> r == Ok(Some(outcome.h))
    ensures complete && !Reconnects(cached, isClosed) ==> r == Ok(cached)
    ensures complete && outcome.Raised? ==> r == Ok(cached)
  {
    Reconnect(complete, Reconnects(cached, isClosed), cached, outcome, true)
  }

  /**
   * One pass of `send_message_test`'s loop: publish the payload to the test
   * queue through the default exchange and set the gauge to 1, or, on any
   * exception, set it to 0. Both paths sleep; a sleep that raises inside the
   * `try` is caught, sets 0 and sleeps again, and that second raise escapes.
   */
  function SendStep(complete: bool, interval: Value, s: ProbeState, env: SendEnv): (o: CycleOutcome)
    ensures o.escaped == SleepError(interval)
    ensures o.state.gauge == 1 <==>
              complete && SleepError(interval).None? && env.failsFrom > 2 &&
              ConnectionAfter(complete, s.connection, env.isClosed, env.connect).value.Some?
    ensures o.state.gauge in {0, 1}
    ensures o.state.gauge == 1 ==>
              o.state.queues == Published(Declared(s.queues, Queue), DefaultExchange, Queue, Payload)
    ensures o.state.gauge == 1 ==> Queue in o.state.queues && o.state.queues[Queue] == Declared(s.queues, Queue)[Queue] + [Payload]
    ensures complete ==> o.state.connection == ConnectionAfter(complete, s.connection, env.isClosed, env.connect).value
    ensures !complete ==> o.state == s.(gauge := 0)
  {
    var got := ConnectionAfter(complete, s.connection, env.isClosed, env.connect);
    var conn := if got.Ok? then got.value else s.connection;
    var open := got.Ok? && got.value.Some?;
    var q1 := if open && env.failsFrom > 1 then Declared(s.queues, Queue) else s.queues;
    var sent := open && env.failsFrom > 2;
    var q2 := if sent then Published(q1, DefaultExchange, Queue, Payload) else q1;
    var gauge := if sent && SleepError(interval).None? then 1 else 0;
    CycleOutcome(ProbeState(conn, gauge, q2), SleepError(interval))
  }

  /**
   * One pass of `read_message_test`'s loop: set up a consumer on the test
   * queue, then `start_consuming`, whose callback sets the gauge to 1 for
   * every message delivered; an exception on the way sets 0 and sleeps, while
   * a `start_consuming` that returns leads straight to the next pass.
   */
  function ReadStep(complete: bool, interval: Value, s: ProbeState, env: ReadEnv): (o: CycleOutcome)
    ensures var got := ConnectionAfter(complete, s.connection, env.isClosed, env.connect);
            var consuming := got.Ok? && got.value.Some? && env.failsFrom > 2;
            && (!consuming || env.consumeRaises ==> o.state.gauge == 0 && o.escaped == SleepError(interval))
            && (consuming && !env.consumeRaises ==> o.escaped.None?)
            && ((consuming && !env.consumeRaises && env.deliveries > 0 && |Declared(s.queues, Queue)[Queue]| > 0)
                ==> o.state.gauge == 1)
            && ((consuming && !env.consumeRaises && (env.deliveries == 0 || |Declared(s.queues, Queue)[Queue]| == 0))
                ==> o.state.gauge == s.gauge)
    ensures Queue in s.queues ==> Queue in o.state.queues && |o.state.queues[Queue]| <= |s.queues[Queue]|
    ensures Queue in s.queues ==> o.state.queues[Queue] == s.queues[Queue][|s.queues[Queue]| - |o.state.queues[Queue]|..]
  {
    var got := ConnectionAfter(complete, s.connection, env.isClosed, env.connect);
    var conn := if got.Ok? then got.value else s.connection;
    var open := got.Ok? && got.value.Some?;
    var q1 := if open && env.failsFrom > 1 then Declared(s.queues, Queue) else s.queues;
    if !(open && env.failsFrom > 2) then
      CycleOutcome(ProbeState(conn, 0, q1), SleepError(interval))
    else
      var waiting := q1[Queue];
      var n := if env.deliveries < |waiting| then env.deliveries else |waiting|;
      var q2 := q1[Queue := waiting[n..]];
      var gauge := if n > 0 then 1 else s.gauge;
      if env.consumeRaises then CycleOutcome(ProbeState(conn, 0, q2), SleepError(interval))
      else CycleOutcome(ProbeState(conn, gauge, q2), None)
  }

  /**
   * The shared gauge hides a failing sender: a send cycle that fails (0)
   * followed by a reader cycle that receives an earlier message shows 1.
   */
  lemma ReaderMasksSenderFailure(s: ProbeState, interval: Value, send: SendEnv, read: ReadEnv)
    requires SleepError(interval).None? && s.connection.Some? && !send.isClosed && !read.isClosed
    requires send.failsFrom == 2 && read.failsFrom > 2 && read.deliveries > 0 && !read.consumeRaises
    requires Queue in s.queues && |s.queues[Queue]| > 0
    ensures SendStep(true, interval, s, send).state.gauge == 0
    ensures ReadStep(true, interval, SendStep(true, interval, s, send).state, read).state.gauge == 1
  {
    var mid := SendStep(true, interval, s, send).state;
    assert mid.queues == Declared(s.queues, Queue) == s.queues;
  }

  // ----- the loops -----

  datatype RunOutcome = RunOutcome(state: ProbeState, cycles: nat, escaped: Option<Error>)

  /**
   * `send_message_test`: cycles while the stop flag is unset. That every
   * cycle runs under a valid interval, where the gauge ends, and how an
   * invalid interval ends the loop are proved in `SendRunNeverEnds` and
   * `InvalidIntervalEndsSender` below.
   */
  function SendRun(complete: bool, interval: Value, s: ProbeState, stopped: bool, envs: seq<SendEnv>): (r: RunOutcome)
    decreases |envs|
    ensures r.cycles <= |envs|
  {
    if stopped || |envs| == 0 then RunOutcome(s, 0, None)
    else
      var o := SendStep(complete, interval, s, envs[0]);
      if o.escaped.Some? then RunOutcome(o.state, 1, o.escaped)
      else
        var rest := SendRun(complete, interval, o.state, envs[0].stopAfter, envs[1..]);
        RunOutcome(rest.state, rest.cycles + 1, rest.escaped)
  }

  /**
   * `read_message_test`: cycles while the stop flag is unset. That every
   * cycle runs under a valid interval is proved in `ReadRunNeverEnds` below.
   */
  function ReadRun(complete: bool, interval: Value, s: ProbeState, stopped: bool, envs: seq<ReadEnv>): (r: RunOutcome)
    decreases |envs|
    ensures r.cycles <= |envs|
  {
    if stopped || |envs| == 0 then RunOutcome(s, 0, None)
    else
      var o := ReadStep(complete, interval, s, envs[0]);
      if o.escaped.Some? then RunOutcome(o.state, 1, o.escaped)
      else
        var rest := ReadRun(complete, interval, o.state, envs[0].stopAfter, envs[1..]);
        RunOutcome(rest.state, rest.cycles + 1, rest.escaped)
  }

  /**
   * With a valid `check_interval` the sender never stops on its own: every
   * cycle runs, whatever the broker does, and the run ends in the state its
   * last cycle leaves, so the gauge ends at 1 iff that cycle published.
   */
  lemma {:induction false} SendRunNeverEnds(complete: bool, interval: Value, s: ProbeState, envs: seq<SendEnv>)
    requires SleepError(interval).None?
    requires forall k :: 0 <= k < |envs| ==> !envs[k].stopAfter
    ensures SendRun(complete, interval, s, false, envs).escaped.None?
    ensures SendRun(complete, interval, s, false, envs).cycles == |envs|
    ensures |envs| > 0 ==> SendRun(complete, interval, s, false, envs).state.gauge in {0, 1}
    ensures |envs| > 0 ==>
              SendRun(complete, interval, s, false, envs).state ==
              SendStep(complete, interval, SendRun(complete, interval, s, false, envs[..|envs| - 1]).state,
                       envs[|envs| - 1]).state
    decreases |envs|
  {
    if |envs| > 0 {
      var s1 := SendStep(complete, interval, s, envs[0]).state;
      SendRunNeverEnds(complete, interval, s1, envs[1..]);
      if |envs| > 1 {
        assert envs[..|envs| - 1][1..] == envs[1..][..|envs| - 2];
        assert envs[1..][|envs| - 2] == envs[|envs| - 1];
      }
    }
  }

  /**
   * With a valid `check_interval` the reader never stops on its own either:
   * every cycle runs, whatever the broker does, and a gauge that starts at 0
   * or 1 stays there.
   */
  lemma {:induction false} ReadRunNeverEnds(complete: bool, interval: Value, s: ProbeState, envs: seq<ReadEnv>)
    requires SleepError(interval).None? && s.gauge in {0, 1}
    requires forall k :: 0 <= k < |envs| ==> !envs[k].stopAfter
    ensures ReadRun(complete, interval, s, false, envs).escaped.None?
    ensures ReadRun(complete, interval, s, false, envs).cycles == |envs|
    ensures ReadRun(complete, interval, s, false, envs).state.gauge in {0, 1}
    decreases |envs|
  {
    if |envs| > 0 {
      ReadRunNeverEnds(complete, interval, ReadStep(complete, interval, s, envs[0]).state, envs[1..]);
    }
  }

  /**
   * With an invalid `check_interval` (e.g. missing, so None) the sender
   * publishes once and then dies: the sleep raises, the handler sets 0 and
   * its own sleep raises out of the loop.
   */
  lemma InvalidIntervalEndsSender(complete: bool, interval: Value, s: ProbeState, envs: seq<SendEnv>)
    requires SleepError(interval).Some? && |envs| > 0
    ensures SendRun(complete, interval, s, false, envs).cycles == 1
    ensures SendRun(complete, interval, s, false, envs).state.gauge == 0
    ensures SendRun(complete, interval, s, false, envs).escaped == SleepError(interval)
  {
  }

  // ----- the classes -----

  /** One RabbitMQ connection holder: the credentials and the cached connection. */
  class RabbitMQConnection {
    var username: Value
    var password: Value
    var fqdn: Value
    var port: Value
    var connection: Option<Handle>
    /** False for the half-built instance `__new__` leaves behind when it raises. */
    var complete: bool

    function Credentials(): Target
      reads this
    {
      Target(username, password, VNone, fqdn, port)
    }

    /** What the holder's class slot shows of this instance. */
    function Kind(): Slot
      reads this
    {
      if complete then Built(Credentials()) else HalfBuilt
    }

    constructor (t: Target)
      ensures Credentials() == t.(database := VNone) && connection == None && complete
    {
      username, password, fqdn, port := t.username, t.password, t.fqdn, t.port;
      connection := None;
      complete := true;
    }

    /** The instance stored in `_instance` before `__new__` raised. */
    constructor Partial()
      ensures connection == None && !complete
    {
      username, password, fqdn, port := VNone, VNone, VNone, VNone;
      connection := None;
      complete := false;
    }

    /** `connect()`: catches every exception; a failure leaves the cached connection as it was. */
    method Connect(outcome: ConnectOutcome)
      requires complete
      modifies this`connection
      ensures connection == if outcome.Opened? then Some(outcome.h) else old(connection)
    {
      connection := Driver.Connect(connection, outcome, true).value;
    }

    /** `get_connection()`: reconnects iff nothing is cached or the cached connection is closed. */
    method GetConnection(isClosed: bool, outcome: ConnectOutcome) returns (r: Result<Option<Handle>>)
      modifies this`connection
      ensures r == ConnectionAfter(complete, old(connection), isClosed, outcome)
      ensures connection == if r.Ok? then r.value else old(connection)
    {
      if !complete {
        return Err(AttributeError);
      }
      if connection.None? || isClosed {
        Connect(outcome);
      }
      r := Ok(connection);
    }
  }

  /** The class attribute `RabbitMQConnection._instance`. */
  class RabbitMQConnectionClass {
    var instance: RabbitMQConnection?

    function Current(): Slot
      reads this, instance
    {
      if instance == null then Empty else instance.Kind()
    }

    constructor ()
      ensures instance == null
    {
      instance := null;
    }

    /**
     * `RabbitMQConnection(authentication, fqdn, port)`: the first call stores
     * a holder built from its arguments; later calls return it unchanged.
     */
    method New(authentication: Value, fqdn: Value, port: Value) returns (r: Result<RabbitMQConnection>)
      modifies this
      ensures old(instance) != null ==> r == Ok(old(instance)) && instance == old(instance) && unchanged(instance)
      ensures old(instance) == null ==> instance != null && fresh(instance) && instance.connection == None
      ensures old(instance) == null ==> (r.Ok? <==> InitTarget(authentication, fqdn, port).Ok?)
      ensures old(instance) == null && r.Ok? ==>
                r.value == instance && instance.complete &&
                instance.Credentials() == InitTarget(authentication, fqdn, port).value
      ensures old(instance) == null && r.Err? ==>
                r.error == InitTarget(authentication, fqdn, port).error && !instance.complete
      ensures Current() == Instantiate(old(Current()), InitTarget(authentication, fqdn, port)).0
      ensures Instantiate(old(Current()), InitTarget(authentication, fqdn, port)).1 == if r.Err? then Some(r.error) else None
    {
      if instance == null {
        var t := InitTarget(authentication, fqdn, port);
        if t.Err? {
          instance := new RabbitMQConnection.Partial();
          return Err(t.error);
        }
        instance := new RabbitMQConnection(t.value);
      }
      r := Ok(instance);
    }
  }

  /** The two loops `test` starts, each given the same gauge. */
  datatype WorkerKind = Sender | Reader
  datatype Worker = Worker(kind: WorkerKind, metric: Gauge)

  /** `rabbitmq_test`: the prober of one configured RabbitMQ service. */
  class RabbitMQTest {
    const holder: RabbitMQConnection
    const checkInterval: Value
    var stopped: bool

    constructor (holder: RabbitMQConnection, checkInterval: Value)
      ensures this.holder == holder && this.checkInterval == checkInterval && !stopped
    {
      this.holder := holder;
      this.checkInterval := checkInterval;
      stopped := false;
    }

    function State(metric: Gauge, broker: Broker): ProbeState
      reads holder, metric, broker
    {
      ProbeState(holder.connection, metric.value, broker.queues)
    }

    /** `stop_threads()`: both loops see the flag before their next pass. */
    method StopThreads()
      modifies this`stopped
      ensures stopped
    {
      stopped := true;
    }

    /** `test(metric)`: a sender and a reader, both writing `metric`. */
    method Test(metric: Gauge) returns (workers: seq<Worker>)
      ensures |workers| == 2
      ensures workers[0].kind == Sender && workers[1].kind == Reader
      ensures forall k :: 0 <= k < |workers| ==> workers[k].metric == metric
    {
      workers := [Worker(Sender, metric), Worker(Reader, metric)];
    }

    /** One pass of `send_message_test`'s loop body. */
    method SendCycle(metric: Gauge, broker: Broker, env: SendEnv) returns (escaped: Option<Error>)
      modifies holder`connection, metric, broker
      ensures var o := SendStep(holder.complete, checkInterval, old(State(metric, broker)), env);
              State(metric, broker) == o.state && escaped == o.escaped
    {
      var got := holder.GetConnection(env.isClosed, env.connect);
      var sent := false;
      if got.Ok? && got.value.Some? && env.failsFrom > 0 {
        var err := broker.Declare(Queue, env.failsFrom <= 1);
        if err.None? {
          err := broker.Publish(DefaultExchange, Queue, Payload, env.failsFrom <= 2);
          sent := err.None?;
        }
      }
      if sent {
        metric.Set(1);
        escaped := SleepError(checkInterval);
        if escaped.None? {
          return;
        }
      }
      metric.Set(0);
      escaped := SleepError(checkInterval);
    }

    /** The callback given to `basic_consume`. */
    method OnMessage(metric: Gauge, body: string)
      modifies metric
      ensures metric.value == 1
    {
      metric.Set(1);
    }

    /** `start_consuming()` as an event source: delivers up to `deliveries` waiting messages to the callback. */
    method StartConsuming(metric: Gauge, broker: Broker, deliveries: nat) returns (delivered: nat)
      requires Queue in broker.queues
      modifies metric, broker
      ensures delivered == if deliveries < |old(broker.queues[Queue])| then deliveries else |old(broker.queues[Queue])|
      ensures broker.queues == old(broker.queues[Queue := broker.queues[Queue][delivered..]])
      ensures metric.value == if delivered > 0 then 1 else old(metric.value)
    {
      ghost var waiting := broker.queues[Queue];
      delivered := 0;
      while delivered < deliveries && |broker.queues[Queue]| > 0
        invariant delivered <= deliveries && delivered <= |waiting|
        invariant broker.queues == old(broker.queues[Queue := waiting[delivered..]])
        invariant metric.value == if delivered > 0 then 1 else old(metric.value)
      {
        var body := broker.Deliver(Queue);
        OnMessage(metric, body);
        assert waiting[delivered..][1..] == waiting[delivered + 1..];
        delivered := delivered + 1;
      }
    }

    /** One pass of `read_message_test`'s loop body. */
    method ReadCycle(metric: Gauge, broker: Broker, env: ReadEnv) returns (escaped: Option<Error>)
      modifies holder`connection, metric, broker
      ensures var o := ReadStep(holder.complete, checkInterval, old(State(metric, broker)), env);
              State(metric, broker) == o.state && escaped == o.escaped
    {
      var got := holder.GetConnection(env.isClosed, env.connect);
      if got.Ok? && got.value.Some? && env.failsFrom > 0 {
        var err := broker.Declare(Queue, env.failsFrom <= 1);
        if err.None? && env.failsFrom > 2 {
          var delivered := StartConsuming(metric, broker, env.deliveries);
          if !env.consumeRaises {
            return None;
          }
        }
      }
      metric.Set(0);
      escaped := SleepError(checkInterval);
    }

    /**
   * `send_message_test`: cycles while the stop flag is unset. That every
   * cycle runs under a valid interval, where the gauge ends, and how an
   * invalid interval ends the loop are proved in `SendRunNeverEnds` and
   * `InvalidIntervalEndsSender` below.
   */
    method SendMessageTest(metric: Gauge, broker: Broker, envs: seq<SendEnv>) returns (cycles: nat, escaped: Option<Error>)
      modifies this`stopped, holder`connection, metric, broker
      ensures var r := SendRun(holder.complete, checkInterval, old(State(metric, broker)), old(stopped), envs);
              State(metric, broker) == r.state && cycles == r.cycles && escaped == r.escaped
    {
      ghost var whole := SendRun(holder.complete, checkInterval, State(metric, broker), stopped, envs);
      var i := 0;
      while i < |envs| && !stopped
        invariant 0 <= i <= |envs|
        invariant var r := SendRun(holder.complete, checkInterval, State(metric, broker), stopped, envs[i..]);
                  whole.state == r.state && whole.cycles == i + r.cycles && whole.escaped == r.escaped
      {
        assert envs[i..][1..] == envs[i + 1..];
        var e := SendCycle(metric, broker, envs[i]);
        if e.Some? {
          return i + 1, e;
        }
        if envs[i].stopAfter {
          StopThreads();
        }
        i := i + 1;
      }
      cycles, escaped := i, None;
    }

    /**
   * `read_message_test`: cycles while the stop flag is unset. That every
   * cycle runs under a valid interval is proved in `ReadRunNeverEnds` below.
   */
    method ReadMessageTest(metric: Gauge, broker: Broker, envs: seq<ReadEnv>) returns (cycles: nat, escaped: Option<Error>)
      modifies this`stopped, holder`connection, metric, broker
      ensures var r := ReadRun(holder.complete, checkInterval, old(State(metric, broker)), old(stopped), envs);
              State(metric, broker) == r.state && cycles == r.cycles && escaped == r.escaped
    {
      ghost var whole := ReadRun(holder.complete, checkInterval, State(metric, broker), stopped, envs);
      var i := 0;
      while i < |envs| && !stopped
        invariant 0 <= i <= |envs|
        invariant var r := ReadRun(holder.complete, checkInterval, State(metric, broker), stopped, envs[i..]);
                  whole.state == r.state && whole.cycles == i + r.cycles && whole.escaped == r.escaped
      {
        assert envs[i..][1..] == envs[i + 1..];
        var e := ReadCycle(metric, broker, envs[i]);
        if e.Some? {
          return i + 1, e;
        }
        if envs[i].stopAfter {
          StopThreads();
        }
        i := i + 1;
      }
      cycles, escaped := i, None;
    }
  }

  /** `rabbitmq_test(...)`: binds a new tester to the process-wide holder. */
  method NewTest(slot: RabbitMQConnectionClass, authentication: Value, fqdn: Value, port: Value, checkInterval: Value)
    returns (r: Result<RabbitMQTest>)
    modifies slot
    ensures old(slot.instance) != null ==> r.Ok? && r.value.holder == old(slot.instance)
    ensures old(slot.instance) == null ==> (r.Ok? <==> InitTarget(authentication, fqdn, port).Ok?)
    ensures slot.Current() == Instantiate(old(slot.Current()), InitTarget(authentication, fqdn, port)).0
    ensures Instantiate(old(slot.Current()), InitTarget(authentication, fqdn, port)).1 == if r.Err? then Some(r.error) else None
    ensures r.Ok? ==> fresh(r.value) && r.value.holder == slot.instance && r.value.checkInterval == checkInterval
    ensures r.Ok? ==> !r.value.stopped
  {
    var h := slot.New(authentication, fqdn, port);
    if h.Err? {
      return Err(h.error);
    }
    var t := new RabbitMQTest(h.value, checkInterval);
    r := Ok(t);
  }
}
