/**
 * The JSON log formatter of `src/logger.py`: which record attributes go
 * into the output dictionary and under which keys, when the timestamp is
 * computed, the cached exception text, and the optional `exc_info` and
 * `stack_info` keys. The serialisation to JSON text and the library's
 * message, time, exception and stack rendering are inputs.
 */
module Logger {
  import opened Values

  /** The projection used when no format dictionary is given. */
  const DefaultFmt: map<string, string> := map["message" := "message"]

  /** The format dictionary of the module's formatter `json_formatter`. */
  const ModuleFmt: map<string, string> := map["level" := "levelname", "message" := "message", "timestamp" := "asctime"]

  /** A `LogRecord`'s attribute dictionary always holds these three attributes. */
  predicate IsRecord(attrs: map<string, Value>) {
    "exc_info" in attrs && "exc_text" in attrs && "stack_info" in attrs
  }

  /** A log record: its attribute dictionary `record.__dict__`. */
  class LogRecord {
    var attrs: map<string, Value>

    constructor (attrs: map<string, Value>)
      ensures this.attrs == attrs
    {
      this.attrs := attrs;
    }
  }

  /** The record's attributes after `format`, and the dictionary it serialises (or the exception it raises). */
  datatype Rendering = Rendering(attrs: map<string, Value>, output: Result<map<string, Value>>)

  /** `JsonFormatter`: output key -> name of the record attribute to put there. */
  class JsonFormatter {
    const fmtDict: map<string, string>
    const defaultTimeFormat: string
    const defaultMsecFormat: string
    const datefmt: Option<string>

    /** `__init__(fmt_dict=None, time_format=..., msec_format=...)`: None selects `{"message": "message"}`. */
    constructor (fmtDict: Option<map<string, string>>, timeFormat: string, msecFormat: string)
      ensures this.fmtDict == if fmtDict.Some? then fmtDict.value else DefaultFmt
      ensures defaultTimeFormat == timeFormat && defaultMsecFormat == msecFormat && datefmt == None
    {
      this.fmtDict := if fmtDict.Some? then fmtDict.value else DefaultFmt;
      defaultTimeFormat := timeFormat;
      defaultMsecFormat := msecFormat;
      datefmt := None;
    }

    /** `usesTime()`: some output key shows the record's `asctime`. */
    function UsesTime(): (b: bool)
      ensures b <==> exists key :: key in fmtDict && fmtDict[key] == "asctime"
    {
      "asctime" in fmtDict.Values
    }

    /**
     * `formatMessage(record)`: every output key of `fmt_dict` mapped to the
     * record attribute its value names; an attribute the record lacks raises
     * KeyError.
     */
    function FormatMessage(attrs: map<string, Value>): (r: Result<map<string, Value>>)
      ensures r.Ok? <==> forall key :: key in fmtDict ==> fmtDict[key] in attrs
      ensures r.Err? ==> r.error == KeyError
      ensures r.Ok? ==> r.value.Keys == fmtDict.Keys
      ensures r.Ok? ==> forall key :: key in fmtDict ==> r.value[key] == attrs[fmtDict[key]]
    {
      if forall key :: key in fmtDict ==> fmtDict[key] in attrs then
        Ok(map key | key in fmtDict :: attrs[fmtDict[key]])
      else Err(KeyError)
    }

    /**
     * `format(record)` up to `json.dumps`. `message` is what
     * `record.getMessage()` returns, `asctime` what `formatTime` returns,
     * `excText` what `formatException` returns, `stackText` what
     * `formatStack` returns.
     */
    function Render(attrs: map<string, Value>, message: Value, asctime: Value, excText: Value, stackText: Value)
      : (o: Rendering)
      requires IsRecord(attrs)
      ensures IsRecord(o.attrs)
    {
      var a2 := Prepared(attrs, message, asctime);
      var md := FormatMessage(a2);
      if md.Err? then Rendering(a2, md)
      else
        var a3 := CacheExcText(a2, excText);
        Rendering(a3, Ok(Extras(md.value, a3, stackText)))
    }

    /** The record after `record.message = ...` and, when the format shows it, `record.asctime = ...`. */
    function Prepared(attrs: map<string, Value>, message: Value, asctime: Value): (a: map<string, Value>)
      ensures "message" in a && a["message"] == message
      ensures UsesTime() ==> "asctime" in a && a["asctime"] == asctime
      ensures forall key :: key != "message" && (key != "asctime" || !UsesTime()) ==>
                (key in a <==> key in attrs) && (key in attrs ==> a[key] == attrs[key])
    {
      var a1 := attrs["message" := message];
      if UsesTime() then a1["asctime" := asctime] else a1
    }

    /** `format(record)`, changing the record in place as the source does. */
    method Format(record: LogRecord, message: Value, asctime: Value, excText: Value, stackText: Value)
      returns (r: Result<map<string, Value>>)
      requires IsRecord(record.attrs)
      modifies record
      ensures record.attrs == Render(old(record.attrs), message, asctime, excText, stackText).attrs
      ensures r == Render(old(record.attrs), message, asctime, excText, stackText).output
    {
      Prepare(record, message, asctime);
      var md := FormatMessage(record.attrs);
      if md.Err? {
        return md;
      }
      CacheException(record, excText);
      var messageDict := AddExtras(md.value, record, stackText);
      r := Ok(messageDict);
    }

    /** `record.message = record.getMessage()` and, when the format shows the time, `record.asctime = ...`. */
    method Prepare(record: LogRecord, message: Value, asctime: Value)
      modifies record
      ensures record.attrs == Prepared(old(record.attrs), message, asctime)
    {
      record.attrs := record.attrs["message" := message];
      if UsesTime() {
        record.attrs := record.attrs["asctime" := asctime];
      }
    }
  }

  /** `if record.exc_info: if not record.exc_text: record.exc_text = ...` */
  method CacheException(record: LogRecord, excText: Value)
    requires IsRecord(record.attrs)
    modifies record
    ensures record.attrs == CacheExcText(old(record.attrs), excText)
  {
    if Truthy(record.attrs["exc_info"]) {
      if !Truthy(record.attrs["exc_text"]) {
        record.attrs := record.attrs["exc_text" := excText];
      }
    }
  }

  /** The `exc_info` and `stack_info` entries added to the projected dictionary. */
  method AddExtras(messageDict: map<string, Value>, record: LogRecord, stackText: Value) returns (d: map<string, Value>)
    requires IsRecord(record.attrs)
    ensures d == Extras(messageDict, record.attrs, stackText)
  {
    d := messageDict;
    if Truthy(record.attrs["exc_text"]) {
      d := d["exc_info" := record.attrs["exc_text"]];
    }
    if Truthy(record.attrs["stack_info"]) {
      d := d["stack_info" := stackText];
    }
  }

  /** The record after `format` caches the exception text: only when there is exception info and no text yet. */
  function CacheExcText(attrs: map<string, Value>, excText: Value): (a: map<string, Value>)
    requires IsRecord(attrs)
    ensures IsRecord(a)
    ensures !Truthy(attrs["exc_info"]) || Truthy(attrs["exc_text"]) ==> a == attrs
    ensures Truthy(attrs["exc_info"]) && Truthy(excText) ==> Truthy(a["exc_text"])
    ensures forall key :: key != "exc_text" ==> (key in a <==> key in attrs) && (key in a ==> a[key] == attrs[key])
  {
    if Truthy(attrs["exc_info"]) && !Truthy(attrs["exc_text"]) then attrs["exc_text" := excText] else attrs
  }

  /** The `exc_info` and `stack_info` entries `format` adds to the projected dictionary. */
  function Extras(messageDict: map<string, Value>, attrs: map<string, Value>, stackText: Value): (d: map<string, Value>)
    requires IsRecord(attrs)
    ensures "exc_info" in d <==> "exc_info" in messageDict || Truthy(attrs["exc_text"])
    ensures "stack_info" in d <==> "stack_info" in messageDict || Truthy(attrs["stack_info"])
    ensures Truthy(attrs["exc_text"]) ==> d["exc_info"] == attrs["exc_text"]
    ensures Truthy(attrs["stack_info"]) ==> d["stack_info"] == stackText
    ensures forall key :: key != "exc_info" && key != "stack_info" ==>
              (key in d <==> key in messageDict) && (key in d ==> d[key] == messageDict[key])
  {
    var d1 := if Truthy(attrs["exc_text"]) then messageDict["exc_info" := attrs["exc_text"]] else messageDict;
    if Truthy(attrs["stack_info"]) then d1["stack_info" := stackText] else d1
  }

  /**
   * What `format` leaves on the record: the new `message`, the new `asctime`
   * when the format shows it, and every other attribute except `exc_text`
   * as it was.
   */
  lemma RenderSetsMessageAndTime(f: JsonFormatter, attrs: map<string, Value>, message: Value, asctime: Value,
                                 excText: Value, stackText: Value)
    requires IsRecord(attrs)
    ensures var o := f.Render(attrs, message, asctime, excText, stackText);
            && "message" in o.attrs && o.attrs["message"] == message
            && (f.UsesTime() ==> "asctime" in o.attrs && o.attrs["asctime"] == asctime)
            && (forall key :: key != "message" && key != "exc_text" && (key != "asctime" || !f.UsesTime()) ==>
                  (key in o.attrs <==> key in attrs) && (key in attrs ==> o.attrs[key] == attrs[key]))
  {
    var o := f.Render(attrs, message, asctime, excText, stackText);
    var a2 := f.Prepared(attrs, message, asctime);
    assert o.attrs == a2 || o.attrs == a2["exc_text" := excText];
  }

  /**
   * The exception text is cached on the record only when the projection
   * succeeded, the record carries exception info and it has no text yet.
   */
  lemma RenderCachesExcText(f: JsonFormatter, attrs: map<string, Value>, message: Value, asctime: Value,
                            excText: Value, stackText: Value)
    requires IsRecord(attrs)
    ensures var o := f.Render(attrs, message, asctime, excText, stackText);
            && (o.output.Err? ==> o.output.error == KeyError && o.attrs["exc_text"] == attrs["exc_text"])
            && (o.output.Ok? ==>
                  o.attrs["exc_text"] == if Truthy(attrs["exc_info"]) && !Truthy(attrs["exc_text"]) then excText
                                         else attrs["exc_text"])
  {
    var a2 := f.Prepared(attrs, message, asctime);
    assert a2["exc_info"] == attrs["exc_info"] && a2["exc_text"] == attrs["exc_text"];
  }

  /**
   * The output's keys: those of `fmt_dict`, plus `exc_info` exactly when the
   * (possibly just cached) exception text is non-empty, plus `stack_info`
   * exactly when the record has stack information. Every `fmt_dict` key
   * not overridden by those two shows its record attribute.
   */
  lemma RenderKeys(f: JsonFormatter, attrs: map<string, Value>, message: Value, asctime: Value, excText: Value,
                   stackText: Value)
    requires IsRecord(attrs)
    ensures var o := f.Render(attrs, message, asctime, excText, stackText);
            o.output.Ok? ==>
              && ("exc_info" in o.output.value <==> "exc_info" in f.fmtDict || Truthy(o.attrs["exc_text"]))
              && ("stack_info" in o.output.value <==> "stack_info" in f.fmtDict || Truthy(attrs["stack_info"]))
              && (Truthy(o.attrs["exc_text"]) ==> o.output.value["exc_info"] == o.attrs["exc_text"])
              && (Truthy(attrs["stack_info"]) ==> o.output.value["stack_info"] == stackText)
              && (forall key :: key != "exc_info" && key != "stack_info" ==>
                    (key in o.output.value <==> key in f.fmtDict))
  {
    var a2 := f.Prepared(attrs, message, asctime);
    assert a2["stack_info"] == attrs["stack_info"];
  }

  /**
   * The exception text is cached on the record: formatting the same record
   * again gives the same dictionary, even if `formatException` would now
   * render differently, unless the format dictionary itself shows
   * `exc_text` (which the first call read before caching it).
   */
  lemma FormatTwiceSameOutput(f: JsonFormatter, attrs: map<string, Value>, message: Value, asctime: Value,
                              excText: Value, excText2: Value, stackText: Value)
    requires IsRecord(attrs) && Truthy(excText)
    requires forall key :: key in f.fmtDict ==> f.fmtDict[key] != "exc_text"
    requires f.Render(attrs, message, asctime, excText, stackText).output.Ok?
    ensures var o := f.Render(attrs, message, asctime, excText, stackText);
            f.Render(o.attrs, message, asctime, excText2, stackText) == o
  {
    var a2 := f.Prepared(attrs, message, asctime);
    var a3 := CacheExcText(a2, excText);
    assert f.Prepared(a3, message, asctime) == a3;
    UnshownExcTextIgnored(f, a2, excText);
    assert CacheExcText(a3, excText2) == a3;
  }

  /** Caching `exc_text` does not change the projection of a format dictionary that does not show it. */
  lemma UnshownExcTextIgnored(f: JsonFormatter, attrs: map<string, Value>, excText: Value)
    requires forall key :: key in f.fmtDict ==> f.fmtDict[key] != "exc_text"
    ensures f.FormatMessage(attrs["exc_text" := excText]) == f.FormatMessage(attrs)
  {
    var m := f.FormatMessage(attrs);
    var m2 := f.FormatMessage(attrs["exc_text" := excText]);
    if m.Ok? {
      assert m2.Ok?;
      assert forall key :: key in f.fmtDict ==> m2.value[key] == m.value[key];
      assert m2.value == m.value;
    }
  }

  /**
   * The module's formatter shows the record's level, message and time under
   * `level`, `message` and `timestamp`, so it computes `asctime` for every
   * record.
   */
  lemma ModuleFormatterShowsTime(f: JsonFormatter, attrs: map<string, Value>, message: Value, asctime: Value,
                                 excText: Value, stackText: Value)
    requires f.fmtDict == ModuleFmt
    requires IsRecord(attrs) && "levelname" in attrs
    ensures f.UsesTime()
    ensures var o := f.Render(attrs, message, asctime, excText, stackText);
            && o.output.Ok?
            && o.output.value["level"] == attrs["levelname"]
            && o.output.value["message"] == message
            && o.output.value["timestamp"] == asctime
  {
    assert ModuleFmt["timestamp"] == "asctime";
  }
}
