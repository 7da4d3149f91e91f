/**
 * Python values as the monitoring core sees them: configuration values read
 * from YAML, the exceptions it raises and catches, the truthiness tests
 * (`if not x`, `if value`), `int(...)`, and the `str(...)` / f-string
 * rendering used for module names and metric labels.
 */
module Values {

  datatype Option<+T> = None | Some(value: T)

  /** A Python call that returns a value or raises. */
  datatype Result<+T> = Ok(value: T) | Err(error: Error)

  /** The exception classes the core raises, catches or lets through. */
  datatype Error =
    | AttributeError       // an attribute looked up on None or on a non-dict
    | TypeError            // e.g. `None[0]`, `time.sleep(None)`, `int(None)`
    | ValueError           // e.g. `int("abc")`, `time.sleep(-1)`
    | KeyError             // a missing key in `record.__dict__[...]`
    | IndexError           // `row[0]` on an empty row
    | ModuleNotFoundError  // `importlib.import_module` of an unknown module
    | OverflowError        // `time.sleep` of more seconds than 64-bit nanoseconds hold
    | DriverError          // the backend library's own error class
    | OtherError           // any other exception a backend library raises

  /** A configuration value: YAML null, integer, string or mapping (an ordered dict). */
  datatype Value =
    | VNone
    | VInt(i: int)
    | VStr(s: string)
    | VDict(entries: seq<(string, Value)>)

  /** The value of the first entry of `entries` with key `key`. */
  function Lookup(entries: seq<(string, Value)>, key: string): (r: Option<Value>)
    ensures r.Some? <==> exists k :: 0 <= k < |entries| && entries[k].0 == key
    ensures r.Some? ==> exists k :: 0 <= k < |entries| && entries[k] == (key, r.value)
  {
    if |entries| == 0 then None
    else if entries[0].0 == key then Some(entries[0].1)
    else
      var r := Lookup(entries[1..], key);
      assert forall k :: 0 < k < |entries| ==> entries[k] == entries[1..][k - 1];
      r
  }

  /** `d.get(key, default)`: only a dict has `.get`. */
  function DictGet(d: Value, key: string, default: Value): (r: Result<Value>)
    ensures r.Err? <==> !d.VDict?
    ensures r.Err? ==> r.error == AttributeError
    ensures d.VDict? && Lookup(d.entries, key).None? ==> r == Ok(default)
    ensures d.VDict? && Lookup(d.entries, key).Some? ==> r == Ok(Lookup(d.entries, key).value)
  {
    if !d.VDict? then Err(AttributeError)
    else
      match Lookup(d.entries, key)
      case Some(v) => Ok(v)
      case None => Ok(default)
  }

  /** Python truthiness, as `if x` and `if not x` test it: exactly the empty values are false. */
  function Truthy(v: Value): (b: bool)
    ensures !b <==> v in {VNone, VInt(0), VStr(""), VDict([])}
  {
    match v
    case VNone => false
    case VInt(i) => i != 0
    case VStr(s) => s != ""
    case VDict(e) => e != []
  }

  // ----- decimal integers -----

  predicate IsDigit(c: char) { '0' <= c <= '9' }

  predicate AllDigits(s: string) { forall k :: 0 <= k < |s| ==> IsDigit(s[k]) }

  function DigitChar(d: nat): (c: char)
    requires d < 10
    ensures IsDigit(c)
  {
    "0123456789"[d]
  }

  function DigitValue(c: char): (d: nat)
    requires IsDigit(c)
    ensures d < 10 && DigitChar(d) == c
  {
    (c as int - '0' as int) as nat
  }

  /** The decimal digits of `n`, most significant first, without leading zeros. */
  function NatToString(n: nat): (s: string)
    ensures |s| > 0 && AllDigits(s)
    ensures |s| > 1 ==> s[0] != '0'
  {
    if n < 10 then [DigitChar(n)] else NatToString(n / 10) + [DigitChar(n % 10)]
  }

  /** The number a non-empty string of decimal digits denotes (leading zeros allowed). */
  function DigitsValue(s: string): (n: nat)
    requires AllDigits(s)
  {
    if |s| == 0 then 0 else 10 * DigitsValue(s[..|s| - 1]) + DigitValue(s[|s| - 1])
  }

  /** `str(i)` for an int. */
  function IntToString(i: int): (s: string)
    ensures |s| > 0
    ensures i >= 0 <==> s[0] != '-'
    ensures s[0] == '-' || IsDigit(s[0])
    ensures |s| > 1 ==> s[0] != '0'
  {
    if i < 0 then "-" + NatToString(-i) else NatToString(i)
  }

  /**
   * `int(s)` for a str: an optional sign followed by at least one decimal
   * digit; `None` stands for the ValueError Python raises otherwise.
   */
  function ParseInt(s: string): (r: Option<int>)
    ensures r.Some? ==> |s| > 0
  {
    if |s| > 0 && (s[0] == '-' || s[0] == '+') then
      var body := s[1..];
      if |body| > 0 && AllDigits(body) then
        var n: int := DigitsValue(body);
        Some(if s[0] == '-' then -n else n)
      else None
    else if |s| > 0 && AllDigits(s) then Some(DigitsValue(s))
    else None
  }

  lemma {:induction false} DigitsValueOfNatToString(n: nat)
    ensures DigitsValue(NatToString(n)) == n
  {
    var s := NatToString(n);
    if n >= 10 {
      DigitsValueOfNatToString(n / 10);
      assert s[..|s| - 1] == NatToString(n / 10);
      assert s[|s| - 1] == DigitChar(n % 10);
    }
  }

  /** Printing an int and reading it back with `int(...)` gives it back. */
  lemma IntToStringRoundTrip(i: int)
    ensures ParseInt(IntToString(i)) == Some(i)
  {
    if i < 0 {
      DigitsValueOfNatToString(-i);
      assert IntToString(i)[1..] == NatToString(-i);
    } else {
      DigitsValueOfNatToString(i);
    }
  }

  /** `int(v)` for a configuration value. */
  function PyInt(v: Value): (r: Result<int>)
    ensures v.VInt? ==> r == Ok(v.i)
    ensures v.VStr? ==> (r.Ok? <==> ParseInt(v.s).Some?)
    ensures v.VStr? && r.Err? ==> r.error == ValueError
    ensures v.VNone? || v.VDict? ==> r == Err(TypeError)
  {
    match v
    case VInt(i) => Ok(i)
    case VStr(s) => (match ParseInt(s) case Some(i) => Ok(i) case None => Err(ValueError))
    case VNone => Err(TypeError)
    case VDict(_) => Err(TypeError)
  }

  /** Placeholder text for `str(d)` of a dict: its exact repr is not modelled. */
  const DictText: string := "{...}"

  /** `str(v)`, which is also what an f-string and a Prometheus label make of `v`. */
  function Str(v: Value): (s: string)
    ensures v.VStr? ==> s == v.s
    ensures !v.VStr? ==> |s| > 0 && !('a' <= s[0] <= 'z')
  {
    match v
    case VNone => "None"
    case VInt(i) => IntToString(i)
    case VStr(s) => s
    case VDict(_) => DictText
  }

  /** Two different integer ports give two different `port` labels, so they never share a gauge child. */
  lemma DistinctIntsDistinctLabels(i: int, j: int)
    requires i != j
    ensures Str(VInt(i)) != Str(VInt(j))
  {
    IntToStringRoundTrip(i);
    IntToStringRoundTrip(j);
  }

  /**
   * The most seconds `time.sleep` accepts: CPython converts the argument to
   * a signed 64-bit count of nanoseconds, and 9223372036 is the largest
   * whole number of seconds below 2^63 nanoseconds.
   */
  const MaxSleepSeconds: int := 9223372036

  /**
   * `time.sleep(v)`: the exception it raises. An integer is first turned
   * into nanoseconds, which overflows beyond `MaxSleepSeconds` either way;
   * only then is a negative length refused.
   */
  function SleepError(v: Value): (r: Option<Error>)
    ensures r.None? <==> v.VInt? && 0 <= v.i <= MaxSleepSeconds
    ensures v.VInt? && (v.i > MaxSleepSeconds || v.i < -MaxSleepSeconds) ==> r == Some(OverflowError)
    ensures v.VInt? && -MaxSleepSeconds <= v.i < 0 ==> r == Some(ValueError)
    ensures !v.VInt? ==> r == Some(TypeError)
  {
    match v
    case VInt(i) =>
      if i > MaxSleepSeconds || i < -MaxSleepSeconds then Some(OverflowError)
      else if i < 0 then Some(ValueError)
      else None
    case _ => Some(TypeError)
  }
}
