/**
 * The entry point `main.py`: resolving a service's `type` to a prober
 * module and class, building the prober (which fills that backend's holder
 * slot on first use), labelling its gauge child `(name, fqdn, port, type)`,
 * collecting the worker list (the thread-count census first, then one
 * worker per service), and the census loop itself.
 */
module Monitoring {
  import opened Values
  import opened Driver
  import opened Metrics
  import SqlProbe
  import MySQL
  import PostgreSQL
  import Redis
  import RabbitMQ

  /** `LABEL_NAMES`: the label order of `plus_monitoring`, mirrored by the fields of `Labels`. */
  const LabelNames: seq<string> := ["name", "fqdn", "port", "type"]

  /** The modules of the `src` package that `import_module` can load. */
  const SourceModules: set<string> :=
    {"src.base", "src.config", "src.logger", "src.mysql", "src.postgresql", "src.rabbitmq", "src.redis"}

  /** The four prober modules, each defining a `<type>_test` class. */
  datatype Backend = MySQLBackend | PostgreSQLBackend | RedisBackend | RabbitMQBackend

  /** The `type` string of a backend in the configuration. */
  function TypeName(b: Backend): string {
    match b
    case MySQLBackend => "mysql"
    case PostgreSQLBackend => "postgresql"
    case RedisBackend => "redis"
    case RabbitMQBackend => "rabbitmq"
  }

  /** `f'src.{service_type}'`: the module of every backend is one of the package's modules. */
  function ModuleName(b: Backend): (m: string)
    ensures m in SourceModules
    ensures m[..4] == "src." && m[4..] == TypeName(b)
  {
    var m := "src." + TypeName(b);
    assert m == match b
                case MySQLBackend => "src.mysql"
                case PostgreSQLBackend => "src.postgresql"
                case RedisBackend => "src.redis"
                case RabbitMQBackend => "src.rabbitmq";
    m
  }

  /** `f'{service_type}_test'`: the prober class is named after the type. */
  function ClassName(b: Backend): (c: string)
    ensures |c| == |TypeName(b)| + 5
    ensures c[..|TypeName(b)|] == TypeName(b) && c[|TypeName(b)|..] == "_test"
  {
    TypeName(b) + "_test"
  }

  /**
   * `importlib.import_module(f'src.{service_type}')` followed by
   * `getattr(module, f'{service_type}_test')`: only a string names a module
   * of the package; a package module without that class (`base`, `config`,
   * `logger`) raises AttributeError, any other name ModuleNotFoundError.
   */
  function Resolve(serviceType: Value): (r: Result<Backend>)
    ensures r.Ok? ==> serviceType == VStr(TypeName(r.value))
    ensures r.Err? ==> r.error in {AttributeError, ModuleNotFoundError}
  {
    match serviceType
    case VStr(name) =>
      if name == "mysql" then Ok(MySQLBackend)
      else if name == "postgresql" then Ok(PostgreSQLBackend)
      else if name == "redis" then Ok(RedisBackend)
      else if name == "rabbitmq" then Ok(RabbitMQBackend)
      else if name in {"base", "config", "logger"} then Err(AttributeError)
      else Err(ModuleNotFoundError)
    case _ => Err(ModuleNotFoundError)
  }

  /** `"src." + s` names a module of the package exactly for the seven module names. */
  lemma SourceModuleNames(s: string)
    ensures "src." + s in SourceModules <==> s in {"base", "config", "logger", "mysql", "postgresql", "rabbitmq", "redis"}
  {
    var m := "src." + s;
    assert m[4..] == s;
    if m in SourceModules {
      assert m == "src.base" || m == "src.config" || m == "src.logger" || m == "src.mysql"
          || m == "src.postgresql" || m == "src.rabbitmq" || m == "src.redis";
      assert "src.base"[4..] == "base" && "src.config"[4..] == "config" && "src.logger"[4..] == "logger";
      assert "src.mysql"[4..] == "mysql" && "src.postgresql"[4..] == "postgresql";
      assert "src.rabbitmq"[4..] == "rabbitmq" && "src.redis"[4..] == "redis";
    }
    if s in {"base", "config", "logger", "mysql", "postgresql", "rabbitmq", "redis"} {
      assert "src." + "base" == "src.base" && "src." + "config" == "src.config" && "src." + "logger" == "src.logger";
      assert "src." + "mysql" == "src.mysql" && "src." + "postgresql" == "src.postgresql";
      assert "src." + "rabbitmq" == "src.rabbitmq" && "src." + "redis" == "src.redis";
    }
  }

  /**
   * Resolution follows the import: a resolved prober lives in module
   * `"src." + str(type)` under class `str(type) + "_test"`; a failure is
   * ModuleNotFoundError exactly when that module is not in the package, and
   * resolution inverts `TypeName`.
   */
  lemma ResolveFollowsImport(b: Backend, serviceType: Value)
    ensures Resolve(VStr(TypeName(b))) == Ok(b)
    ensures Resolve(serviceType).Ok? ==>
              && ModuleName(Resolve(serviceType).value) == "src." + Str(serviceType)
              && ClassName(Resolve(serviceType).value) == Str(serviceType) + "_test"
    ensures Resolve(serviceType).Err? ==>
              (Resolve(serviceType).error == ModuleNotFoundError <==> "src." + Str(serviceType) !in SourceModules)
  {
    SourceModuleNames(Str(serviceType));
  }

  /** The five settings `create_monitoring_thread` reads from a service's mapping. */
  datatype Fields = Fields(serviceType: Value, fqdn: Value, authentication: Value, port: Value, checkInterval: Value)

  /** `data.get("type")` ... `data.get("check_interval")`: a missing key gives None; a non-mapping has no `.get`. */
  function ReadFields(data: Value): (r: Result<Fields>)
    ensures r.Ok? <==> data.VDict?
    ensures r.Err? ==> r.error == AttributeError
    ensures r.Ok? ==> Ok(r.value.serviceType) == DictGet(data, "type", VNone)
    ensures r.Ok? ==> Ok(r.value.fqdn) == DictGet(data, "fqdn", VNone)
    ensures r.Ok? ==> Ok(r.value.authentication) == DictGet(data, "authentication", VNone)
    ensures r.Ok? ==> Ok(r.value.port) == DictGet(data, "port", VNone)
    ensures r.Ok? ==> Ok(r.value.checkInterval) == DictGet(data, "check_interval", VNone)
  {
    if !data.VDict? then Err(AttributeError)
    else
      Ok(Fields(DictGet(data, "type", VNone).value, DictGet(data, "fqdn", VNone).value,
                DictGet(data, "authentication", VNone).value, DictGet(data, "port", VNone).value,
                DictGet(data, "check_interval", VNone).value))
  }

  /** The attributes the backend's holder `__new__` would set from these arguments. */
  function HolderInit(b: Backend, authentication: Value, fqdn: Value, port: Value): (r: Result<Target>)
    ensures !authentication.VDict? ==> r == Err(AttributeError)
    ensures b != RedisBackend ==> (r.Ok? <==> authentication.VDict?)
    ensures b == RedisBackend && authentication.VDict? ==>
              (r.Ok? <==> PyInt(DictGet(authentication, "db", VInt(0)).value).Ok?)
    ensures r.Ok? ==> r.value.fqdn == fqdn && r.value.port == port
    ensures r.Ok? ==> Ok(r.value.password) == DictGet(authentication, "password", VNone)
  {
    match b
    case MySQLBackend => SqlProbe.InitTarget(authentication, fqdn, port)
    case PostgreSQLBackend => SqlProbe.InitTarget(authentication, fqdn, port)
    case RedisBackend => Redis.InitTarget(authentication, fqdn, port)
    case RabbitMQBackend => RabbitMQ.InitTarget(authentication, fqdn, port)
  }

  /** The four holder slots of the process. */
  datatype Slots = Slots(mysql: Slot, postgresql: Slot, redis: Slot, rabbitmq: Slot)
  {
    function Of(b: Backend): Slot {
      match b
      case MySQLBackend => mysql
      case PostgreSQLBackend => postgresql
      case RedisBackend => redis
      case RabbitMQBackend => rabbitmq
    }

    function With(b: Backend, s: Slot): (r: Slots)
      ensures r.Of(b) == s
      ensures forall c :: c != b ==> r.Of(c) == Of(c)
    {
      match b
      case MySQLBackend => this.(mysql := s)
      case PostgreSQLBackend => this.(postgresql := s)
      case RedisBackend => this.(redis := s)
      case RabbitMQBackend => this.(rabbitmq := s)
    }
  }

  const NoHolders: Slots := Slots(Empty, Empty, Empty, Empty)

  /** A thread of the pool: the census, or the `test` method of one service's prober and its gauge child's labels. */
  datatype Worker = Census | Probe(backend: Backend, labels: Labels, checkInterval: Value)

  datatype Created = Created(slots: Slots, worker: Result<Worker>)

  /**
   * `create_monitoring_thread(service, data)`: read the settings, resolve
   * the prober, construct it (which may fill the backend's holder slot, and
   * may raise), then label its gauge child with the stringified settings.
   */
  function Create(slots: Slots, service: string, data: Value): (c: Created)
    ensures !data.VDict? ==> c == Created(slots, Err(AttributeError))
    ensures data.VDict? && Resolve(ReadFields(data).value.serviceType).Err? ==>
              c == Created(slots, Err(Resolve(ReadFields(data).value.serviceType).error))
    ensures c.worker.Ok? ==>
              var f := ReadFields(data).value;
              && data.VDict?
              && c.worker.value == Probe(Resolve(f.serviceType).value,
                                         Labels(service, Str(f.fqdn), Str(f.port), Str(f.serviceType)),
                                         f.checkInterval)
              && c.slots.Of(c.worker.value.backend) != Empty
  {
    var f := ReadFields(data);
    if f.Err? then Created(slots, Err(f.error))
    else
      var b := Resolve(f.value.serviceType);
      if b.Err? then Created(slots, Err(b.error))
      else
        var made := Instantiate(slots.Of(b.value), HolderInit(b.value, f.value.authentication, f.value.fqdn, f.value.port));
        var after := slots.With(b.value, made.0);
        if made.1.Some? then Created(after, Err(made.1.value))
        else
          Created(after, Ok(Probe(b.value, Labels(service, Str(f.value.fqdn), Str(f.value.port), Str(f.value.serviceType)),
                                  f.value.checkInterval)))
  }

  /** The slots after starting services, the workers started, and the exception that ended startup, if any. */
  datatype Started = Started(slots: Slots, workers: seq<Worker>, escaped: Option<Error>)

  /**
   * The `for service, data in services.items()` loop, as the state after
   * each prefix of the services: the first exception ends it.
   */
  function StartServices(slots: Slots, entries: seq<(string, Value)>): (r: Started)
    decreases |entries|
    ensures |r.workers| <= |entries|
    ensures r.escaped.None? <==> |r.workers| == |entries|
  {
    if |entries| == 0 then Started(slots, [], None)
    else
      var p := StartServices(slots, entries[..|entries| - 1]);
      if p.escaped.Some? then p
      else
        var c := Create(p.slots, entries[|entries| - 1].0, entries[|entries| - 1].1);
        if c.worker.Err? then Started(c.slots, p.workers, Some(c.worker.error))
        else Started(c.slots, p.workers + [c.worker.value], None)
  }

  /**
   * `trigger_monitoring` up to the joins: the census worker first, then the
   * services in order. A `services` that is not a mapping (a configuration
   * without the section gives None) raises before any service starts.
   */
  function Startup(slots: Slots, services: Value): (r: Started)
    ensures |r.workers| >= 1 && r.workers[0] == Census
    ensures !services.VDict? ==> r == Started(slots, [Census], Some(AttributeError))
    ensures services.VDict? && r.escaped.None? ==> |r.workers| == 1 + |services.entries|
    ensures services.VDict? ==> |r.workers| <= 1 + |services.entries|
  {
    if !services.VDict? then Started(slots, [Census], Some(AttributeError))
    else
      var s := StartServices(slots, services.entries);
      Started(s.slots, [Census] + s.workers, s.escaped)
  }

  /**
   * Constructing a prober touches at most its own backend's holder slot, and
   * only an empty one; a filled slot is left exactly as it was.
   */
  lemma CreateTouchesOnlyItsHolder(slots: Slots, service: string, data: Value, b: Backend)
    ensures Create(slots, service, data).slots.Of(b) != slots.Of(b) ==>
              data.VDict? && Resolve(ReadFields(data).value.serviceType) == Ok(b) && slots.Of(b) == Empty
  {
  }

  /**
   * Every started worker is the prober of the service at the same position,
   * its gauge child labelled with the service's key as `name`.
   */
  lemma {:induction false} StartedWorkersFollowServices(slots: Slots, entries: seq<(string, Value)>)
    ensures var r := StartServices(slots, entries);
            forall k :: 0 <= k < |r.workers| ==> r.workers[k].Probe? && r.workers[k].labels.name == entries[k].0
    decreases |entries|
  {
    if |entries| > 0 {
      var front := entries[..|entries| - 1];
      StartedWorkersFollowServices(slots, front);
      var p := StartServices(slots, front);
      var r := StartServices(slots, entries);
      var last := if p.escaped.None? then Create(p.slots, entries[|entries| - 1].0, entries[|entries| - 1].1).worker
                  else Err(AttributeError);
      assert r.workers == if last.Ok? then p.workers + [last.value] else p.workers;
      forall k | 0 <= k < |r.workers|
        ensures r.workers[k].Probe? && r.workers[k].labels.name == entries[k].0
      {
        if k < |p.workers| {
          assert r.workers[k] == p.workers[k] && front[k] == entries[k];
        } else {
          assert k == |entries| - 1 && last.Ok?;
          assert last.value.labels.name == entries[|entries| - 1].0;
          assert r.workers[k] == last.value;
        }
      }
    }
  }

  /** One more service: the startup loop's step, as the loop in `trigger_monitoring` takes it. */
  lemma StartServicesStep(slots: Slots, entries: seq<(string, Value)>, i: nat)
    requires i < |entries| && StartServices(slots, entries[..i]).escaped.None?
    ensures var p := StartServices(slots, entries[..i]);
            var c := Create(p.slots, entries[i].0, entries[i].1);
            StartServices(slots, entries[..i + 1]) ==
              if c.worker.Err? then Started(c.slots, p.workers, Some(c.worker.error))
              else Started(c.slots, p.workers + [c.worker.value], None)
  {
    var upto := entries[..i + 1];
    assert upto[..i] == entries[..i] && upto[i] == entries[i];
  }

  /** Once startup has raised, the services after that point change nothing: they are never started. */
  lemma {:induction false} RaisedStartupStops(slots: Slots, entries: seq<(string, Value)>, n: nat)
    requires n <= |entries| && StartServices(slots, entries[..n]).escaped.Some?
    ensures StartServices(slots, entries) == StartServices(slots, entries[..n])
    decreases |entries|
  {
    if n < |entries| {
      var front := entries[..|entries| - 1];
      assert front[..n] == entries[..n];
      RaisedStartupStops(slots, front, n);
    } else {
      assert entries[..n] == entries;
    }
  }

  /** A filled holder slot stays as it is, whatever later services of that type pass to the constructor. */
  lemma {:induction false} FilledSlotIsKept(slots: Slots, entries: seq<(string, Value)>, n: nat, b: Backend)
    requires n <= |entries| && StartServices(slots, entries[..n]).slots.Of(b) != Empty
    ensures StartServices(slots, entries).slots.Of(b) == StartServices(slots, entries[..n]).slots.Of(b)
    decreases |entries|
  {
    if n < |entries| {
      var front := entries[..|entries| - 1];
      assert front[..n] == entries[..n];
      FilledSlotIsKept(slots, front, n, b);
      var p := StartServices(slots, front);
      CreateTouchesOnlyItsHolder(p.slots, entries[|entries| - 1].0, entries[|entries| - 1].1, b);
    } else {
      assert entries[..n] == entries;
    }
  }

  /**
   * A service whose `type` does not resolve raises out of the startup loop:
   * the services before it are running, it and every later service are
   * never started, and no holder slot changes.
   */
  lemma UnresolvableTypeAbortsRest(slots: Slots, entries: seq<(string, Value)>, k: nat)
    requires k < |entries| && StartServices(slots, entries[..k]).escaped.None?
    requires entries[k].1.VDict? && Resolve(ReadFields(entries[k].1).value.serviceType).Err?
    ensures var p := StartServices(slots, entries[..k]);
            StartServices(slots, entries) ==
              Started(p.slots, p.workers, Some(Resolve(ReadFields(entries[k].1).value.serviceType).error))
    ensures |StartServices(slots, entries).workers| == k
  {
    var upto := entries[..k + 1];
    assert upto[..k] == entries[..k] && upto[k] == entries[k];
    RaisedStartupStops(slots, entries, k + 1);
  }

  /**
   * The first service of a type fixes the credentials of that type's
   * holder for the whole process: after a startup that reaches it, the slot
   * holds what that service's settings built.
   */
  lemma FirstOfTypeFixesHolder(slots: Slots, entries: seq<(string, Value)>, k: nat, b: Backend)
    requires k < |entries| && StartServices(slots, entries[..k]).escaped.None?
    requires StartServices(slots, entries[..k]).slots.Of(b) == Empty
    requires entries[k].1.VDict? && Resolve(ReadFields(entries[k].1).value.serviceType) == Ok(b)
    requires var f := ReadFields(entries[k].1).value; HolderInit(b, f.authentication, f.fqdn, f.port).Ok?
    ensures var f := ReadFields(entries[k].1).value;
            StartServices(slots, entries).slots.Of(b) == Built(HolderInit(b, f.authentication, f.fqdn, f.port).value)
  {
    var upto := entries[..k + 1];
    assert upto[..k] == entries[..k] && upto[k] == entries[k];
    FilledSlotIsKept(slots, entries, k + 1, b);
  }

  /** The census loop's gauge after a run: the most recent count it managed to set, else where it started. */
  function LastObserved(initial: int, counts: seq<Result<nat>>): (v: int)
    ensures (forall k :: 0 <= k < |counts| ==> counts[k].Err?) ==> v == initial
  {
    if |counts| == 0 then initial
    else if counts[|counts| - 1].Ok? then counts[|counts| - 1].value
    else LastObserved(initial, counts[..|counts| - 1])
  }

  /** The gauge shows the count of the latest cycle that set one; failed cycles in between change nothing. */
  lemma {:induction false} LastObservedIsLatest(initial: int, counts: seq<Result<nat>>, k: nat)
    requires k < |counts| && counts[k].Ok?
    requires forall j :: k < j < |counts| ==> counts[j].Err?
    ensures LastObserved(initial, counts) == counts[k].value
    decreases |counts|
  {
    if k < |counts| - 1 {
      var front := counts[..|counts| - 1];
      assert forall j :: k < j < |front| ==> front[j] == counts[j];
      LastObservedIsLatest(initial, front, k);
    }
  }

  /** Each worker after the census writes the gauge child registered under its labels. */
  ghost predicate Attached(pool: seq<Worker>, metrics: seq<Gauge?>, children: map<Labels, Gauge>) {
    && |metrics| == |pool|
    && forall k :: 1 <= k < |pool| ==>
         pool[k].Probe? && pool[k].labels in children && metrics[k] == children[pool[k].labels]
  }

  /** Registering more children keeps the earlier workers attached. */
  lemma AttachedGrows(pool: seq<Worker>, metrics: seq<Gauge?>, before: map<Labels, Gauge>, after: map<Labels, Gauge>,
                      w: Worker, m: Gauge?)
    requires Attached(pool, metrics, before) && |pool| >= 1
    requires forall l :: l in before ==> l in after && after[l] == before[l]
    requires w.Probe? && w.labels in after && m == after[w.labels]
    ensures Attached(pool + [w], metrics + [m], after)
  {
    var pool', metrics' := pool + [w], metrics + [m];
    forall k | 1 <= k < |pool'|
      ensures pool'[k].Probe? && pool'[k].labels in after && metrics'[k] == after[pool'[k].labels]
    {
      if k < |pool| {
        assert pool'[k] == pool[k] && metrics'[k] == metrics[k];
      }
    }
  }

  /**
   * The process-wide state `main.py` works on: the four holder slots, the
   * labelled family `plus_monitoring` and the gauge
   * `plus_monitoring_thread_count`.
   */
  class Process {
    const mysql: MySQL.MySQLConnectionClass
    const postgresql: PostgreSQL.PostgreSQLConnectionClass
    const redis: Redis.RedisConnectionClass
    const rabbitmq: RabbitMQ.RabbitMQConnectionClass
    const family: GaugeFamily
    const threadCount: Gauge

    constructor ()
      ensures Holders() == NoHolders && family.Valid() && family.children == map[]
    {
      mysql := new MySQL.MySQLConnectionClass();
      postgresql := new PostgreSQL.PostgreSQLConnectionClass();
      redis := new Redis.RedisConnectionClass();
      rabbitmq := new RabbitMQ.RabbitMQConnectionClass();
      family := new GaugeFamily();
      threadCount := new Gauge();
    }

    function Holders(): Slots
      reads mysql, mysql.instance, postgresql, postgresql.instance, redis, redis.instance, rabbitmq, rabbitmq.instance
    {
      Slots(mysql.Current(), postgresql.Current(), redis.Current(), rabbitmq.Current())
    }

    /** One pass of `monitor_active_thread_count`: set the gauge unless that raised, then sleep 5 seconds. */
    method CensusCycle(count: Result<nat>) returns (pause: nat)
      modifies threadCount
      ensures threadCount.value == if count.Ok? then count.value else old(threadCount.value)
      ensures pause == 5
    {
      if count.Ok? {
        threadCount.Set(count.value);
      }
      pause := 5;
    }

    /** `monitor_active_thread_count` over the counts of successive cycles; it never leaves its loop on its own. */
    method MonitorActiveThreadCount(counts: seq<Result<nat>>) returns (slept: nat)
      modifies threadCount
      ensures threadCount.value == LastObserved(old(threadCount.value), counts)
      ensures slept == 5 * |counts|
    {
      var i := 0;
      slept := 0;
      while i < |counts|
        invariant 0 <= i <= |counts|
        invariant threadCount.value == LastObserved(old(threadCount.value), counts[..i])
        invariant slept == 5 * i
      {
        var pause := CensusCycle(counts[i]);
        assert counts[..i + 1][..i] == counts[..i];
        slept := slept + pause;
        i := i + 1;
      }
      assert counts[..i] == counts;
    }

    /**
     * `getattr(module, f'{service_type}_test')(authentication=..., ...)`:
     * constructing the prober, which instantiates its backend's holder.
     */
    method Construct(b: Backend, fields: Fields) returns (raised: Option<Error>)
      modifies mysql, postgresql, redis, rabbitmq
      ensures var made := Instantiate(old(Holders()).Of(b), HolderInit(b, fields.authentication, fields.fqdn, fields.port));
              Holders() == old(Holders()).With(b, made.0) && raised == made.1
    {
      raised := None;
      match b {
        case MySQLBackend =>
          var t := MySQL.NewTest(mysql, fields.authentication, fields.fqdn, fields.port, fields.checkInterval);
          if t.Err? { raised := Some(t.error); }
        case PostgreSQLBackend =>
          var t := PostgreSQL.NewTest(postgresql, fields.authentication, fields.fqdn, fields.port, fields.checkInterval);
          if t.Err? { raised := Some(t.error); }
        case RedisBackend =>
          var t := Redis.NewTest(redis, fields.authentication, fields.fqdn, fields.port, fields.checkInterval);
          if t.Err? { raised := Some(t.error); }
        case RabbitMQBackend =>
          var t := RabbitMQ.NewTest(rabbitmq, fields.authentication, fields.fqdn, fields.port, fields.checkInterval);
          if t.Err? { raised := Some(t.error); }
      }
    }

    /** `create_monitoring_thread(service, data)` up to starting the thread. */
    method CreateMonitoringThread(service: string, data: Value) returns (r: Result<Worker>, metric: Gauge?)
      requires family.Valid()
      modifies mysql, postgresql, redis, rabbitmq, family
      ensures family.Valid()
      ensures Holders() == Create(old(Holders()), service, data).slots
      ensures r == Create(old(Holders()), service, data).worker
      ensures r.Ok? ==> r.value.Probe? && r.value.labels in family.children && metric == family.children[r.value.labels]
      ensures r.Err? ==> family.children == old(family.children)
      ensures forall l :: l in old(family.children) ==> l in family.children && family.children[l] == old(family.children)[l]
    {
      metric := null;
      var f := ReadFields(data);
      if f.Err? {
        return Err(f.error), null;
      }
      var fields := f.value;
      var b := Resolve(fields.serviceType);
      if b.Err? {
        return Err(b.error), null;
      }
      var raised := Construct(b.value, fields);
      if raised.Some? {
        return Err(raised.value), null;
      }
      var labels := Labels(service, Str(fields.fqdn), Str(fields.port), Str(fields.serviceType));
      metric := family.Child(labels);
      r := Ok(Probe(b.value, labels, fields.checkInterval));
    }

    /**
     * One pass of the `for service, data in services.items()` loop: create
     * the worker of the `i`-th service and append it to the pool. `slots` is
     * what the holder slots were before the loop.
     */
    method AppendService(ghost slots: Slots, entries: seq<(string, Value)>, i: nat, pool: seq<Worker>, metrics: seq<Gauge?>)
      returns (pool': seq<Worker>, metrics': seq<Gauge?>, escaped: Option<Error>)
      requires i < |entries| && family.Valid()
      requires var p := StartServices(slots, entries[..i]);
               p.escaped.None? && Holders() == p.slots && pool == [Census] + p.workers
      requires Attached(pool, metrics, family.children) && metrics[0] == threadCount
      modifies mysql, postgresql, redis, rabbitmq, family
      ensures family.Valid()
      ensures var q := StartServices(slots, entries[..i + 1]);
              Holders() == q.slots && pool' == [Census] + q.workers && escaped == q.escaped
      ensures Attached(pool', metrics', family.children) && metrics'[0] == threadCount
    {
      ghost var p := StartServices(slots, entries[..i]);
      ghost var before := family.children;
      var r, metric := CreateMonitoringThread(entries[i].0, entries[i].1);
      StartServicesStep(slots, entries, i);
      if r.Err? {
        return pool, metrics, Some(r.error);
      }
      AttachedGrows(pool, metrics, before, family.children, r.value, metric);
      pool', metrics', escaped := pool + [r.value], metrics + [metric], None;
      assert pool' == [Census] + (p.workers + [r.value]);
    }

    /**
     * The thread pool of `trigger_monitoring`: the census worker, then the
     * `for service, data in services.items()` loop appending the worker of
     * each service in order, with the gauge child it writes, until one raises.
     */
    method StartPool(entries: seq<(string, Value)>) returns (pool: seq<Worker>, metrics: seq<Gauge?>, escaped: Option<Error>)
      requires family.Valid()
      modifies mysql, postgresql, redis, rabbitmq, family
      ensures family.Valid()
      ensures var s := StartServices(old(Holders()), entries);
              Holders() == s.slots && pool == [Census] + s.workers && escaped == s.escaped
      ensures Attached(pool, metrics, family.children) && metrics[0] == threadCount
    {
      pool, metrics := [Census], [threadCount];
      var i := 0;
      while i < |entries|
        invariant 0 <= i <= |entries|
        invariant family.Valid()
        invariant var p := StartServices(old(Holders()), entries[..i]);
                  p.escaped.None? && Holders() == p.slots && pool == [Census] + p.workers
        invariant Attached(pool, metrics, family.children) && metrics[0] == threadCount
      {
        var raised;
        pool, metrics, raised := AppendService(old(Holders()), entries, i, pool, metrics);
        if raised.Some? {
          RaisedStartupStops(old(Holders()), entries, i + 1);
          return pool, metrics, raised;
        }
        i := i + 1;
      }
      assert entries[..i] == entries;
      escaped := None;
    }

    /**
     * `trigger_monitoring` up to the joins, for the `services` section read
     * from the configuration: the census worker, then one worker per service
     * with the gauge child it writes; services with different labels write
     * different children.
     */
    method TriggerMonitoring(services: Value) returns (pool: seq<Worker>, metrics: seq<Gauge?>, escaped: Option<Error>)
      requires family.Valid()
      modifies mysql, postgresql, redis, rabbitmq, family
      ensures family.Valid()
      ensures var s := Startup(old(Holders()), services);
              Holders() == s.slots && pool == s.workers && escaped == s.escaped
      ensures |metrics| == |pool| && metrics[0] == threadCount
      ensures forall k :: 1 <= k < |pool| ==>
                pool[k].Probe? && pool[k].labels in family.children && metrics[k] == family.children[pool[k].labels]
      ensures forall j, k :: 1 <= j < |pool| && 1 <= k < |pool| && pool[j].labels != pool[k].labels ==>
                metrics[j] != metrics[k]
    {
      if !services.VDict? {
        return [Census], [threadCount], Some(AttributeError);
      }
      pool, metrics, escaped := StartPool(services.entries);
    }
  }
}
