/**
 * What the probes see of a backend library: an opaque connection handle,
 * the outcome of one attempt to open a connection, and the credentials a
 * connection holder is created with. The libraries themselves (pika,
 * redis-py, mysql.connector, psycopg2) are not modelled; each call into one
 * is an outcome chosen by the environment.
 */
module Driver {
  import opened Values

  /** A live connection object returned by a backend library. */
  datatype Handle = Handle(id: nat)

  /** What one call to the library's connect function did. */
  datatype ConnectOutcome = Opened(h: Handle) | Raised(e: Error)

  /**
   * The attributes `__new__` copies into a connection holder. Each backend
   * reads a subset: MySQL and PostgreSQL all five, Redis `password`, `db`
   * (kept in `database`), `fqdn` and `port`, RabbitMQ all but `database`.
   */
  datatype Target = Target(username: Value, password: Value, database: Value, fqdn: Value, port: Value)

  /**
   * The cached connection after `connect()`. A successful library call
   * replaces it; an exception that `connect` catches is logged and leaves the
   * old value (possibly None, possibly stale); any other exception escapes.
   * `catchesAll` is true where `connect` has `except Exception`.
   */
  function Connect(cached: Option<Handle>, outcome: ConnectOutcome, catchesAll: bool): (r: Result<Option<Handle>>)
    ensures outcome.Opened? ==> r == Ok(Some(outcome.h))
    ensures outcome.Raised? && (catchesAll || outcome.e == DriverError) ==> r == Ok(cached)
    ensures outcome.Raised? && !catchesAll && outcome.e != DriverError ==> r == Err(outcome.e)
  {
    match outcome
    case Opened(h) => Ok(Some(h))
    case Raised(e) => if catchesAll || e == DriverError then Ok(cached) else Err(e)
  }

  /**
   * `get_connection()` once the backend's reconnect rule has decided whether
   * to call `connect`. A holder whose `__new__` raised part-way (`complete`
   * false) has no `connection` attribute, so the lookup raises AttributeError.
   */
  function Reconnect(complete: bool, reconnect: bool, cached: Option<Handle>, outcome: ConnectOutcome,
                     catchesAll: bool): (r: Result<Option<Handle>>)
    ensures !complete ==> r == Err(AttributeError)
    ensures complete && !reconnect ==> r == Ok(cached)
    ensures complete && reconnect ==> r == Connect(cached, outcome, catchesAll)
  {
    if !complete then Err(AttributeError)
    else if reconnect then Connect(cached, outcome, catchesAll)
    else Ok(cached)
  }

  /**
   * The class-level `_instance` slot of a connection holder: never filled,
   * filled by a `__new__` that ran to the end, or filled by one that raised
   * after storing the instance but before setting its attributes.
   */
  datatype Slot = Empty | Built(target: Target) | HalfBuilt

  /**
   * `Holder(authentication, fqdn, port)` for a singleton holder whose
   * attributes would be `init`: only the first call builds (and may raise);
   * every later call returns the stored instance, whatever its arguments.
   */
  function Instantiate(slot: Slot, init: Result<Target>): (r: (Slot, Option<Error>))
    ensures r.0 != Empty
    ensures slot != Empty ==> r == (slot, None)
    ensures r.1.Some? <==> slot == Empty && init.Err?
    ensures slot == Empty && init.Ok? ==> r.0 == Built(init.value)
    ensures slot == Empty && init.Err? ==> r == (HalfBuilt, Some(init.error))
  {
    if slot != Empty then (slot, None)
    else if init.Ok? then (Built(init.value), None)
    else (HalfBuilt, Some(init.error))
  }
}
