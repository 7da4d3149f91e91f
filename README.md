# plus-monitoring: the monitoring engine in Dafny

plus-monitoring is a polling health monitor. `main.py` reads the configured
services. For each one it resolves the service's `type` to a prober class
(`mysql_test`, `postgresql_test`, `redis_test`, `rabbitmq_test`), constructs
that prober and starts its `test` method on the gauge child of
`plus_monitoring` labelled `(name, fqdn, port, type)`. Beside the probers,
one census thread writes `threading.active_count()` to
`plus_monitoring_thread_count` every 5 seconds.

This project models that engine:

- `values.dfy`: the configuration values the engine reads (None, ints,
  strings, mappings). It also holds `dict.get`, `int()`, `str()` and the
  exceptions `time.sleep` raises.
- `driver.dfy`: what every connection holder shares:
  - the class-level `_instance` slot of the singleton holders, including
    the half-built instance a raising `__new__` leaves behind;
  - `connect` (which library errors it swallows);
  - `get_connection` once the backend's reconnect rule has decided.
- `metrics.dfy`: gauge children and the labelled family that hands them out.
- `sqlprobe.dfy`: the `query_check` cycle shared by MySQL and PostgreSQL, as
  step and run functions over the holder's cached connection, `result` and
  the gauge. MySQL forces a reconnect after a failed cycle; PostgreSQL
  reuses any cached connection.
- `mysql.dfy`, `postgresql.dfy`: the holder classes, the singleton slot
  classes and the tester classes. The tester loops are proved equal to the
  run functions.
- `redis.dfy`: the Redis holder and tester, and the set / get / incr / del /
  exists exercise over a keyspace (`KeyValueStore`). That server may drop
  writes or deletes, and its commands may raise from any point of the
  cycle on.
- `rabbitmq.dfy`: the RabbitMQ holder, which reconnects when the cached
  connection is closed, and the sender and reader loops that share one gauge
  over a broker of named queues.
- `main.dfy`: type resolution through `import_module`/`getattr`, reading a
  service's settings, the worker list of `trigger_monitoring` and the census
  loop.
- `logger.dfy`: the dictionary `JsonFormatter.format` builds before
  serialising it, and what it leaves on the record.

Every call into a driver library is a parameter: what `connect` does, what
the query returns, which Redis or AMQP command raises, and how many messages
the consumer delivers. So are the clock (`time.sleep` only matters through
the exception it raises for a bad interval) and `threading.active_count()`.
Each loop runs over a finite sequence of such per-cycle environments. An
environment may also record that another thread called `stop_threads`
during that cycle.

## Behaviour of the source worth knowing

- The MySQL and PostgreSQL loops catch only their driver's error class.
  When the database cannot be reached at start, `connect` logs the error,
  the connection stays None, and `None.cursor()` raises an AttributeError
  that ends the loop in its first cycle
  (`SqlProbe.UnreachableAtStartEndsLoop`).
- An invalid `check_interval` (missing, negative, more than 9223372036
  seconds, or not a number) makes
  `time.sleep` raise outside any handler in the MySQL, PostgreSQL and Redis
  loops, and ends the RabbitMQ sender after one cycle
  (`RabbitMQ.InvalidIntervalEndsSender`). The RabbitMQ reader sleeps only in
  its `except` branch, so it ends at its first exception and otherwise keeps
  consuming. The census loop sleeps a fixed 5 seconds and never reads the
  interval.
- In `trigger_monitoring` an unresolvable service type raises
  ModuleNotFoundError (or AttributeError) out of the `for` loop, so that
  service and every later one never start
  (`Monitoring.UnresolvableTypeAbortsRest`).
- Each backend type has one process-wide connection holder. The first
  service of a type fixes the credentials, host and port for every later
  service of that type (`Monitoring.FirstOfTypeFixesHolder`,
  `Monitoring.FilledSlotIsKept`).

## Model

| member | source | states |
|---|---|---|
| Values.Lookup | src/mysql.py:37-39 | a key is found iff some entry has it, and the value returned is that entry's |
| Values.DictGet | src/mysql.py:37-39 | `d.get(key, default)`: AttributeError iff `d` is not a mapping, the default for a missing key, the entry's value otherwise |
| Values.IntToStringRoundTrip | src/redis.py:119-121 | parsing the decimal text of any integer gives that integer back |
| Values.PyInt | src/redis.py:37 | `int(v)`: an int is itself, a string parses iff it is decimal text (ValueError otherwise), None and mappings raise TypeError |
| Values.DistinctIntsDistinctLabels | main.py:49-51 | two different integer ports give two different `port` labels |
| Values.Truthy | src/redis.py:115 | `if x` is false exactly for None, 0, the empty string and the empty mapping |
| Values.Str | main.py:49-51 | a string label is the string itself; the label of any other value is non-empty and starts with no lower-case letter, so it never equals a type name |
| Values.SleepError | src/mysql.py:139 | `time.sleep(v)` raises nothing exactly for an integer from 0 to 9223372036 seconds; OverflowError beyond that bound in either direction, ValueError for a smaller negative integer, TypeError for a non-integer |
| Driver.Connect | src/mysql.py:66-75 | a successful connect replaces the cached connection; a caught error keeps the old one; an uncaught one escapes |
| Driver.Reconnect | src/mysql.py:55-60 | a half-built holder raises AttributeError; no reconnect returns the cached connection; a reconnect gives what `connect` leaves |
| Driver.Instantiate | src/mysql.py:35-43 | only the first call fills the slot, and it raises iff building raises, leaving a half-built instance; later calls change nothing |
| Metrics.Gauge.Set | src/mysql.py:138 | the gauge shows the value last written |
| Metrics.GaugeFamily.Child | main.py:49-51 | the same labels give the same child; new labels get a fresh child at 0; distinct labels keep distinct children |
| SqlProbe.InitTarget | src/mysql.py:35-42 | the holder's attributes are the `username`, `password` and `db` entries (None when missing) plus fqdn and port; a non-mapping raises AttributeError |
| SqlProbe.Reconnects | src/mysql.py:115-118 | a cycle reconnects whenever nothing is cached; MySQL also after a failed cycle; PostgreSQL never replaces a cached connection |
| SqlProbe.Query | src/mysql.py:119-126 | the verdict is True iff a connection exists and the first column of the row is 1; each failure raises its own exception |
| SqlProbe.Finish | src/mysql.py:126-139 | a driver error counts as False; any other exception escapes before the gauge is written; the gauge mirrors `result` |
| SqlProbe.Step | src/mysql.py:113-139 | a cycle reconnects exactly under its policy, reports healthy iff the query answered 1 on a usable connection, and keeps the gauge consistent with `result` |
| SqlProbe.Run | src/mysql.py:113-139 | a run lasts at most one cycle per environment, writes at most once per cycle, and does nothing once stopped |
| SqlProbe.RunKeepsConsistent | src/mysql.py:126-138 | through any run the gauge stays equal to 1 iff `result`, and every value written is 0 or 1 |
| SqlProbe.RunObservesEachCycle | src/postgresql.py:107-130 | against a reachable backend every cycle runs, and the k-th write is 1 iff the k-th `SELECT 1` answered 1 |
| SqlProbe.RunStopsAfterRequest | src/mysql.py:113-145 | a stop requested during cycle k lets at most k+1 cycles run |
| SqlProbe.UnreachableAtStartEndsLoop | src/mysql.py:113-135 | a database unreachable at start ends the loop in its first cycle with AttributeError and no gauge write |
| MySQL.MySQLConnection.constructor | src/mysql.py:35-42 | a complete holder with the given credentials and no cached connection |
| MySQL.MySQLConnection.Partial | src/mysql.py:35-36 | the half-built instance: no connection attribute |
| MySQL.MySQLConnection.Connect | src/mysql.py:62-75 | a new connection replaces the cached one; `mysql.connector.Error` is swallowed; any other exception escapes; a half-built holder raises AttributeError |
| MySQL.MySQLConnection.GetConnection | src/mysql.py:45-60 | with force it always reconnects, without force only when nothing is cached; it returns the connection left afterwards |
| MySQL.MySQLConnectionClass.New | src/mysql.py:23-43 | the first call stores a holder built from its arguments (half-built on error); later calls return that holder unchanged, whatever the arguments |
| MySQL.MySQLTest.constructor | src/mysql.py:89-104 | a tester on the given holder and interval, `result` False, not stopped |
| MySQL.MySQLTest.StopThreads | src/mysql.py:141-145 | the stop flag is set |
| MySQL.MySQLTest.QueryCheckCycle | src/mysql.py:114-139 | one pass of the loop has exactly the effect of `SqlProbe.Step` under the force-after-failure policy |
| MySQL.MySQLTest.QueryCheck | src/mysql.py:106-139 | the loop's final state, cycle count and escaping exception are those of `SqlProbe.Run` |
| MySQL.NewTest | src/mysql.py:89-104 | `mysql_test(...)` binds a fresh tester to the process-wide holder and raises iff creating that holder raises |
| MySQL.FirstCycleForcesReconnect | src/mysql.py:103-116 | since `result` starts False, the first cycle reconnects even over a cached connection, whatever the interval |
| MySQL.ReconnectRecovers | src/mysql.py:115-128 | after a failed cycle, a reachable and answering server makes the next cycle healthy on a fresh connection |
| PostgreSQL.PostgreSQLConnection.constructor | src/postgresql.py:35-42 | a complete holder with the given credentials and no cached connection |
| PostgreSQL.PostgreSQLConnection.Partial | src/postgresql.py:35-36 | the half-built instance: no connection attribute |
| PostgreSQL.PostgreSQLConnection.Connect | src/postgresql.py:56-69 | a new connection replaces the cached one; `psycopg2.Error` is swallowed; any other exception escapes |
| PostgreSQL.PostgreSQLConnection.GetConnection | src/postgresql.py:45-54 | it connects only when nothing is cached and returns the connection left afterwards |
| PostgreSQL.PostgreSQLConnectionClass.New | src/postgresql.py:23-43 | the first call stores a holder built from its arguments; later calls return it unchanged |
| PostgreSQL.PostgreSQLTest.constructor | src/postgresql.py:83-98 | a tester on the given holder and interval, `result` False, not stopped |
| PostgreSQL.PostgreSQLTest.StopThreads | src/postgresql.py:132-136 | the stop flag is set |
| PostgreSQL.PostgreSQLTest.QueryCheckCycle | src/postgresql.py:108-130 | one pass of the loop has exactly the effect of `SqlProbe.Step` under the reuse-cached policy |
| PostgreSQL.PostgreSQLTest.QueryCheck | src/postgresql.py:100-130 | the loop's final state, cycle count and escaping exception are those of `SqlProbe.Run` |
| PostgreSQL.NewTest | src/postgresql.py:83-98 | a fresh tester on the process-wide holder; raises iff creating the holder raises |
| PostgreSQL.CachedConnectionIsKept | src/postgresql.py:52-54 | once a connection is cached it is never replaced, whatever later cycles meet |
| PostgreSQL.FailureDoesNotReconnect | src/postgresql.py:107-126 | a failed cycle does not make the next one reconnect: the stale connection is queried again |
| Redis.InitTarget | src/redis.py:34-40 | `password` from the mapping, `db` is `int()` of the `db` entry (0 when missing), which raises for a value `int` rejects |
| Redis.IsRedisInt | src/redis.py:119 | a value INCR accepts is non-empty decimal text with an optional minus and no leading zero |
| Redis.IntTextIsRedisInt | src/redis.py:119 | the text of every 64-bit integer, as INCR stores it, is accepted by the next INCR |
| Redis.SetData | src/redis.py:110 | SET stores the value under the key on a server that applies writes and touches no other key |
| Redis.IncrData | src/redis.py:119 | INCR fails iff the stored value is not a Redis integer or the sum leaves 64 bits; otherwise the key holds old value plus n |
| Redis.DelData | src/redis.py:124-125 | DEL removes the key on a server that applies deletes and touches no other key |
| Redis.KeyValueStore.Set | src/redis.py:110 | the keyspace becomes `SetData` of the old one, or is unchanged when the command raises |
| Redis.KeyValueStore.Get | src/redis.py:114 | the stored value, None for a missing key, or the command's error |
| Redis.KeyValueStore.Incr | src/redis.py:119 | the keyspace becomes `IncrData` of the old one, or is unchanged and the error is returned |
| Redis.KeyValueStore.Delete | src/redis.py:124-125 | the keyspace becomes `DelData` of the old one, and the reply counts the key removed |
| Redis.KeyValueStore.Exists | src/redis.py:129 | 1 iff the key is present |
| Redis.Exercise | src/redis.py:107-134 | success implies the sentinel key is gone and no command raised; a server dropping deletes never passes; a failed read-back stops after SET; keys other than the two test keys are untouched |
| Redis.HonestServerPasses | src/redis.py:109-131 | a server that applies every command and never raises passes, leaving neither test key |
| Redis.Step | src/redis.py:105-140 | every backend exception is caught, so the gauge always shows 1 iff `result` and only the sleep can raise |
| Redis.Run | src/redis.py:105-140 | at most one cycle per environment; an escaping exception is the sleep's, after the first cycle |
| Redis.HonestCyclePasses | src/redis.py:107-131 | a cycle with a connection to a server that carries out every command and never raises reports healthy, with the gauge at 1 and neither test key left |
| Redis.RunNeverEndsOnBackendError | src/redis.py:135-140 | with a valid interval no Redis or connection failure ends the loop: every cycle runs |
| Redis.RedisConnection.constructor | src/redis.py:34-40 | a complete holder with the given password and db and no cached client |
| Redis.RedisConnection.Partial | src/redis.py:34-37 | the half-built instance left when `int(db)` raises |
| Redis.RedisConnection.Connect | src/redis.py:54-66 | every exception is swallowed; a failure leaves the cached client as it was |
| Redis.RedisConnection.GetConnection | src/redis.py:43-52 | it connects only when nothing is cached and returns the client left afterwards |
| Redis.RedisConnectionClass.New | src/redis.py:22-41 | the first call stores a holder built from its arguments; later calls return it unchanged |
| Redis.RedisTest.constructor | src/redis.py:80-96 | a tester on the given holder and interval, `result` False, not stopped |
| Redis.RedisTest.StopThreads | src/redis.py:142-146 | the stop flag is set |
| Redis.RedisTest.RunCommands | src/redis.py:107-134 | the command sequence gives exactly the verdict and keyspace of `Redis.Exercise` |
| Redis.RedisTest.TestRedisCycle | src/redis.py:105-140 | one pass has exactly the effect of `Redis.Step` |
| Redis.RedisTest.TestRedis | src/redis.py:98-140 | the loop's final state, cycle count and escaping exception are those of `Redis.Run` |
| Redis.NewTest | src/redis.py:80-96 | a fresh tester on the process-wide holder; raises iff creating the holder raises |
| RabbitMQ.InitTarget | src/rabbitmq.py:34-40 | `username` and `password` from the mapping (None when missing); a non-mapping raises AttributeError |
| RabbitMQ.Reconnects | src/rabbitmq.py:50 | `get_connection` reconnects iff nothing is cached or the cached connection is closed |
| RabbitMQ.Declared | src/rabbitmq.py:111 | declaring creates the queue empty if missing and leaves existing queues alone |
| RabbitMQ.Published | src/rabbitmq.py:113 | the default exchange appends the message to the queue named by the routing key, if it exists |
| RabbitMQ.Broker.Declare | src/rabbitmq.py:111 | the queues become `Declared` of the old ones, or are unchanged when the call raises |
| RabbitMQ.Broker.Publish | src/rabbitmq.py:113 | the queues become `Published` of the old ones, or are unchanged when the call raises |
| RabbitMQ.Broker.Deliver | src/rabbitmq.py:141-142 | the consumer receives the head of the queue, which leaves it |
| RabbitMQ.ConnectionAfter | src/rabbitmq.py:43-52 | it reconnects iff nothing is cached or the connection is closed, and never raises for a complete holder |
| RabbitMQ.SendStep | src/rabbitmq.py:106-121 | the gauge becomes 1 iff the message was published and the sleep succeeded, and the test queue then ends with the payload |
| RabbitMQ.ReadStep | src/rabbitmq.py:130-146 | a failure shows 0; any delivered message shows 1; consumed messages leave the queue from its head |
| RabbitMQ.ReaderMasksSenderFailure | src/rabbitmq.py:116-139 | a failed publish (0) followed by a reader cycle that receives an earlier message shows 1 on the shared gauge |
| RabbitMQ.SendRun | src/rabbitmq.py:106-121 | at most one cycle per environment |
| RabbitMQ.ReadRun | src/rabbitmq.py:130-146 | at most one cycle per environment |
| RabbitMQ.SendRunNeverEnds | src/rabbitmq.py:106-121 | with a valid interval the sender runs every cycle whatever the broker does, the gauge is 0 or 1, and the run ends in the state the last cycle leaves, so the gauge is 1 iff that cycle published |
| RabbitMQ.ReadRunNeverEnds | src/rabbitmq.py:130-146 | with a valid interval the reader runs every cycle whatever the broker does, and a gauge starting at 0 or 1 stays 0 or 1 |
| RabbitMQ.InvalidIntervalEndsSender | src/rabbitmq.py:117-121 | with an invalid interval the sender ends after one cycle with the gauge at 0 and the sleep's exception |
| RabbitMQ.RabbitMQConnection.constructor | src/rabbitmq.py:34-40 | a complete holder with the given credentials and no cached connection |
| RabbitMQ.RabbitMQConnection.Partial | src/rabbitmq.py:34-35 | the half-built instance left when `authentication.get` raises |
| RabbitMQ.RabbitMQConnection.Connect | src/rabbitmq.py:54-67 | every exception is swallowed; a failure leaves the cached connection as it was |
| RabbitMQ.RabbitMQConnection.GetConnection | src/rabbitmq.py:43-52 | the returned connection and the new cache are those of `ConnectionAfter` |
| RabbitMQ.RabbitMQConnectionClass.New | src/rabbitmq.py:22-41 | the first call stores a holder built from its arguments; later calls return it unchanged |
| RabbitMQ.RabbitMQTest.constructor | src/rabbitmq.py:81-97 | a tester on the given holder and interval, not stopped |
| RabbitMQ.RabbitMQTest.StopThreads | src/rabbitmq.py:148-152 | the stop flag, seen by both loops, is set |
| RabbitMQ.RabbitMQTest.Test | src/rabbitmq.py:154-165 | two workers, a sender and a reader, both writing the same gauge |
| RabbitMQ.RabbitMQTest.SendCycle | src/rabbitmq.py:107-121 | one sender pass has exactly the effect of `RabbitMQ.SendStep` |
| RabbitMQ.RabbitMQTest.OnMessage | src/rabbitmq.py:137-139 | each received message sets the gauge to 1 |
| RabbitMQ.RabbitMQTest.StartConsuming | src/rabbitmq.py:141-142 | it delivers min(deliveries, waiting) messages from the head of the queue; the gauge is 1 if any was delivered |
| RabbitMQ.RabbitMQTest.ReadCycle | src/rabbitmq.py:131-146 | one reader pass has exactly the effect of `RabbitMQ.ReadStep` |
| RabbitMQ.RabbitMQTest.SendMessageTest | src/rabbitmq.py:99-121 | the sender loop's result is that of `RabbitMQ.SendRun` |
| RabbitMQ.RabbitMQTest.ReadMessageTest | src/rabbitmq.py:123-146 | the reader loop's result is that of `RabbitMQ.ReadRun` |
| RabbitMQ.NewTest | src/rabbitmq.py:81-97 | a fresh tester on the process-wide holder; raises iff creating the holder raises |
| Monitoring.Resolve | main.py:43-45 | a resolved type is exactly the type name of its backend; failures are AttributeError or ModuleNotFoundError |
| Monitoring.ModuleName | main.py:43 | the module of every backend is `src.` followed by its type name, and it exists in the package |
| Monitoring.ClassName | main.py:45 | the prober class is the type name followed by `_test` |
| Monitoring.SourceModuleNames | main.py:43 | `"src." + s` names a module of the package exactly for the seven module names |
| Monitoring.ResolveFollowsImport | main.py:43-45 | resolution inverts the type name, a resolved prober lives in `src.<type>` as `<type>_test`, and ModuleNotFoundError is raised iff that module does not exist |
| Monitoring.ReadFields | main.py:36-40 | the five settings are the mapping's entries (None when missing); a non-mapping raises AttributeError |
| Monitoring.HolderInit | main.py:45-46 | building a backend's holder raises AttributeError for a non-mapping `authentication`; only Redis can also fail, on `int(db)`; the holder keeps fqdn, port and password |
| Monitoring.Create | main.py:36-51 | a bad mapping or type raises without touching a slot; a created worker probes the resolved backend with the stringified labels, and that backend's slot is then filled |
| Monitoring.StartServices | main.py:98-100 | one worker per service until the first exception, which ends the loop |
| Monitoring.Startup | main.py:86-100 | the census worker comes first; without an exception there is one more worker per service; a `services` that is not a mapping raises at once |
| Monitoring.CreateTouchesOnlyItsHolder | main.py:43-46 | creating a prober changes at most its own backend's slot, and only an empty one |
| Monitoring.StartedWorkersFollowServices | main.py:49-51 | the k-th started worker is a prober labelled with the k-th service's name |
| Monitoring.StartServicesStep | main.py:98-100 | one more service extends the started list by exactly that service's creation step |
| Monitoring.RaisedStartupStops | main.py:98-100 | after an exception, later services change nothing |
| Monitoring.FilledSlotIsKept | main.py:43-46 | a filled holder slot stays the same through the rest of startup |
| Monitoring.UnresolvableTypeAbortsRest | main.py:43-45 | an unresolvable type ends startup there: earlier services run, it and later ones never start |
| Monitoring.FirstOfTypeFixesHolder | main.py:43-46 | the first service of a type fixes that type's holder credentials for the whole process |
| Monitoring.LastObserved | main.py:63-72 | with no successful census cycle the gauge keeps its starting value |
| Monitoring.LastObservedIsLatest | main.py:63-72 | the census gauge shows the count of the latest cycle that set one |
| Monitoring.AttachedGrows | main.py:49-51 | registering more gauge children keeps the earlier workers on their children |
| Monitoring.Process.constructor | main.py:12-17 | all four holder slots empty, no gauge children yet |
| Monitoring.Process.CensusCycle | main.py:63-72 | the thread-count gauge takes the count unless reading it raised; then a 5-second sleep |
| Monitoring.Process.MonitorActiveThreadCount | main.py:56-72 | after the census loop the gauge is `LastObserved` of the counts, and it slept 5 seconds per cycle |
| Monitoring.Process.Construct | main.py:45-46 | constructing a prober changes exactly its backend's slot, as `Instantiate` says |
| Monitoring.Process.CreateMonitoringThread | main.py:20-53 | slots and worker are those of `Create`; a worker gets the gauge child of its labels; existing children are kept |
| Monitoring.Process.AppendService | main.py:98-100 | one loop pass moves the pool and slots from the state after i services to the state after i+1 |
| Monitoring.Process.StartPool | main.py:90-100 | the pool is the census worker followed by `StartServices`' workers, each attached to its gauge child |
| Monitoring.Process.TriggerMonitoring | main.py:75-100 | the pool and slots are those of `Startup`; each prober writes its labels' child, and workers with distinct labels write distinct gauges |
| Logger.JsonFormatter.constructor | src/logger.py:15-28 | no format dictionary selects `{"message": "message"}`; the time formats are kept; `datefmt` is None |
| Logger.JsonFormatter.UsesTime | src/logger.py:30-37 | True iff some output key shows `asctime` |
| Logger.JsonFormatter.FormatMessage | src/logger.py:52 | succeeds iff the record has every named attribute (KeyError otherwise), with exactly the format's keys, each showing its attribute |
| Logger.JsonFormatter.Render | src/logger.py:64-80 | the record keeps its `exc_info`, `exc_text` and `stack_info` attributes |
| Logger.JsonFormatter.Prepared | src/logger.py:64-67 | the record gets the new `message`, and the new `asctime` iff the format shows the time; every other attribute stays |
| Logger.JsonFormatter.Prepare | src/logger.py:64-67 | the record is updated in place to `Prepared` of the old one |
| Logger.CacheExcText | src/logger.py:71-74 | the exception text is never overwritten, is only set when there is exception info, and then is non-empty if the rendering was; nothing else changes |
| Logger.CacheException | src/logger.py:71-74 | the record is updated in place to `CacheExcText` of the old one |
| Logger.Extras | src/logger.py:76-80 | `exc_info` is added iff there is exception text, `stack_info` iff there is stack info, with those values; every other key is kept |
| Logger.AddExtras | src/logger.py:76-80 | the dictionary built step by step is `Extras` |
| Logger.JsonFormatter.Format | src/logger.py:54-82 | the record and the output dictionary become those of `Render` |
| Logger.RenderSetsMessageAndTime | src/logger.py:64-67 | `format` sets `message`, sets `asctime` iff the format shows the time, and leaves every other attribute except `exc_text` alone |
| Logger.RenderCachesExcText | src/logger.py:71-74 | the exception text is cached iff the projection succeeded, there is exception info and no text yet |
| Logger.RenderKeys | src/logger.py:69-80 | the output has the format's keys, plus `exc_info` iff there is exception text and `stack_info` iff there is stack info, with those values |
| Logger.FormatTwiceSameOutput | src/logger.py:71-74 | formatting a record again gives the same dictionary, even if the exception would now render differently |
| Logger.UnshownExcTextIgnored | src/logger.py:69-74 | caching `exc_text` does not change the projection when the format does not show it |
| Logger.ModuleFormatterShowsTime | src/logger.py:94-98 | the module's formatter computes the time and shows level, message and time under `level`, `message` and `timestamp` |

## Left out

- Threads: each loop runs alone over its own environments, so
  `Thread(...).start()`, `Event` and `thread.join()` are not modelled. The
  probers' `test` methods only start threads: `Monitoring.Worker` records
  which prober a thread runs, and `RabbitMQ.RabbitMQTest.Test` records its
  two loops. The interleaving of the sender and reader writes to one gauge
  is shown for one sender cycle followed by one reader cycle only
  (`RabbitMQ.ReaderMasksSenderFailure`).
- Logging calls: they only write text, and the model carries on where the
  source logs and carries on.
- Driver libraries (`mysql.connector`, `psycopg2`, `redis`, `pika`): each call
  is replaced by its outcome. That outcome is a handle, a row or an
  exception, and it is given as a parameter.
- `time.sleep`: only the exception it raises for a bad interval is
  modelled; the time it waits is not.
- `threading.active_count()`: the census loop takes the successive counts,
  or failures to read them, as input.
- Configuration values: floats, booleans and lists from the YAML file are
  not represented, so a `check_interval` of type float is not modelled.
  `src/config.py` is not part of this model: the `services` section is an
  input.
- Values.PyInt: accepts an optional sign and ASCII digits only. Python's
  `int()` also accepts surrounding whitespace, underscores and other
  Unicode digits. From Python 3.11 on it also refuses, with ValueError,
  decimal text longer than 4300 digits; the model parses any length.
- Values.Lookup: a mapping is a list of entries. A Python dict holds each
  key once, and PyYAML keeps the last value of a key repeated in the file.
  The model allows repeated keys: `Lookup` then returns the first value,
  and `Monitoring.StartServices` starts one worker per entry, where the
  source starts one per distinct key.
- Values.Str: the text of a mapping is a placeholder rather than Python's
  dict repr, so labels made from mapping values are not exact.
- `start_http_server(9101, ...)` and the `CollectorRegistry`: the metric
  names, help texts and the exposition endpoint are I/O.
- `json.dumps`, `formatTime`, `formatException`, `formatStack` and
  `getMessage`: their results are inputs to `Logger.JsonFormatter.Format`.
  Whether `json.dumps(..., default=str)` can fail is not modelled.
- The logger's handler wiring (`StreamHandler`, levels) is output only.
- RabbitMQ.Published: exchanges other than the default one route nowhere.
  The tester only uses the default exchange.
- RabbitMQ.RabbitMQTest.StartConsuming: it delivers only the messages
  already waiting when consumption starts. Messages the sender publishes
  while the reader blocks arrive in the reader's next pass.
- Logger.FormatTwiceSameOutput: the result is stated only for format
  dictionaries that do not show `exc_text` itself. The first call reads
  that attribute before it caches it, so such a format can differ on the
  second call.
- `src/base.py` only supplies the class attribute `result = False`, which
  no prober observes (MySQL and PostgreSQL set their own `result` in
  `__init__`, Redis assigns it on every path before reading it, RabbitMQ
  has none), and a `test` that raises and that every prober overrides.
