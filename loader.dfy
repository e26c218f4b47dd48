/** The configuration loader: the filters are processed in document order;
    a disabled one is skipped, an unrecognized type is skipped with a
    warning, a socket or file sink that cannot be built stops the load at
    once, and every other filter is assembled into a logger and registered.
    Registrations made before a failure stay in place. */
module Loader {
  import opened ConfigTypes
  import opened PropertyScan
  import opened Granulars

  /** What the loop body does with one filter. */
  datatype Step =
    | Skip
    | Warn(tag: string)
    | Register(logger: ConfigLogger)
    | Abort(error: Error)

  /** The logger built from an enabled filter once its sink is known. */
  function Assemble(filter: JSONFilter, env: Env, writer: LogWriter): ConfigLogger {
    ConfigLogger(
      env.getLevel(filter.level),
      PatFormatter(FormatPattern(filter)),
      GranularLevels(filter.granulars, env.getLevel),
      writer)
  }

  /** The fate of one filter, dispatching on its type. */
  function FilterStep(filter: JSONFilter, env: Env): Step {
    if !filter.enabled then Skip
    else if filter.filterType == "console" then Register(Assemble(filter, env, ConsoleWriter))
    else if filter.filterType == "socket" then
      match SocketWriterOf(filter, env)
      case Ok(w) => Register(Assemble(filter, env, w))
      case Err(e) => Abort(e)
    else if filter.filterType == "file" then
      match FileWriterOf(filter, env)
      case Ok(w) => Register(Assemble(filter, env, w))
      case Err(e) => Abort(e)
    else Warn(filter.tag)
  }

  /** What a load did: the loggers it registered, in order, the tags it
      warned about, and the error it returned, if any. */
  datatype LoadOutcome = LoadOutcome(registered: seq<ConfigLogger>, warned: seq<string>, error: Option<Error>)

  /** The outcome of processing `filters` in order, stopping at the first
      sink error. */
  function LoadFilters(filters: seq<JSONFilter>, env: Env): (o: LoadOutcome)
    ensures o.error == None <==> forall i :: 0 <= i < |filters| ==> !FilterStep(filters[i], env).Abort?
  {
    if filters == [] then LoadOutcome([], [], None)
    else
      assert forall i :: 1 <= i < |filters| ==> filters[i] == filters[1..][i - 1];
      Prepend(FilterStep(filters[0], env), LoadFilters(filters[1..], env))
  }

  /** The outcome of one step followed by the outcome `rest` of the
      filters after it. */
  function Prepend(step: Step, rest: LoadOutcome): LoadOutcome {
    match step
    case Skip => rest
    case Warn(tag) => rest.(warned := [tag] + rest.warned)
    case Register(logger) => rest.(registered := [logger] + rest.registered)
    case Abort(e) => LoadOutcome([], [], Some(e))
  }

  /** The outcome of `first` followed by that of `second`; `second` does
      not run when `first` failed. */
  function Then(first: LoadOutcome, second: LoadOutcome): LoadOutcome {
    if first.error.Some? then first
    else LoadOutcome(first.registered + second.registered, first.warned + second.warned, second.error)
  }

  /** Loading a document in two parts is loading the first part and then,
      unless it failed, the second. */
  lemma {:induction false} LoadAppend(a: seq<JSONFilter>, b: seq<JSONFilter>, env: Env)
    ensures LoadFilters(a + b, env) == Then(LoadFilters(a, env), LoadFilters(b, env))
  {
    if a == [] {
      assert a + b == b;
    } else {
      var step := FilterStep(a[0], env);
      assert (a + b)[0] == a[0];
      assert (a + b)[1..] == a[1..] + b;
      calc {
        LoadFilters(a + b, env);
        Prepend(step, LoadFilters(a[1..] + b, env));
        { LoadAppend(a[1..], b, env); }
        Prepend(step, Then(LoadFilters(a[1..], env), LoadFilters(b, env)));
        { PrependThen(step, LoadFilters(a[1..], env), LoadFilters(b, env)); }
        Then(Prepend(step, LoadFilters(a[1..], env)), LoadFilters(b, env));
        Then(LoadFilters(a, env), LoadFilters(b, env));
      }
    }
  }

  /** A step taken before two parts of a load can be taken before the
      first part alone. */
  lemma PrependThen(step: Step, first: LoadOutcome, second: LoadOutcome)
    ensures Prepend(step, Then(first, second)) == Then(Prepend(step, first), second)
  {
  }

  /** The loggers of every filter that registers, in document order, as if
      no filter stopped the load. */
  function Registrations(filters: seq<JSONFilter>, env: Env): seq<ConfigLogger> {
    if filters == [] then []
    else
      var rest := Registrations(filters[1..], env);
      match FilterStep(filters[0], env)
      case Register(logger) => [logger] + rest
      case _ => rest
  }

  /** A load that meets no sink error registers every filter's logger, in
      document order. */
  lemma {:induction false} LoadWithoutAbortRegistersAll(filters: seq<JSONFilter>, env: Env)
    requires forall i :: 0 <= i < |filters| ==> !FilterStep(filters[i], env).Abort?
    ensures LoadFilters(filters, env).registered == Registrations(filters, env)
    ensures LoadFilters(filters, env).error == None
  {
    if filters != [] {
      assert forall i :: 1 <= i < |filters| ==> filters[i] == filters[1..][i - 1];
      LoadWithoutAbortRegistersAll(filters[1..], env);
    }
  }

  /** The first sink error is the load's error, and the loggers of the
      filters before it, and only those, stay registered. */
  lemma FirstAbortStops(filters: seq<JSONFilter>, env: Env, i: int)
    requires 0 <= i < |filters| && FilterStep(filters[i], env).Abort?
    requires forall j :: 0 <= j < i ==> !FilterStep(filters[j], env).Abort?
    ensures LoadFilters(filters, env).error == Some(FilterStep(filters[i], env).error)
    ensures LoadFilters(filters, env).registered == Registrations(filters[..i], env)
  {
    LoadSplitAt(filters, env, i);
    LoadWithoutAbortRegistersAll(filters[..i], env);
  }

  /** The load seen around one filter: the filters before it, its own
      step, then the filters after it. */
  lemma LoadSplitAt(filters: seq<JSONFilter>, env: Env, i: int)
    requires 0 <= i < |filters|
    ensures LoadFilters(filters, env)
      == Then(LoadFilters(filters[..i], env), Prepend(FilterStep(filters[i], env), LoadFilters(filters[i + 1..], env)))
  {
    var rest := [filters[i]] + filters[i + 1..];
    assert filters == filters[..i] + rest;
    assert rest[0] == filters[i] && rest[1..] == filters[i + 1..];
    LoadAppend(filters[..i], rest, env);
  }

  /** A disabled filter has no effect on the load, however invalid its
      type or properties are. */
  lemma DisabledFilterIgnored(filters: seq<JSONFilter>, env: Env, i: int)
    requires 0 <= i < |filters| && !filters[i].enabled
    ensures LoadFilters(filters, env) == LoadFilters(filters[..i] + filters[i + 1..], env)
  {
    LoadSplitAt(filters, env, i);
    assert FilterStep(filters[i], env) == Skip;
    LoadAppend(filters[..i], filters[i + 1..], env);
  }

  /** An enabled filter of an unrecognized type registers nothing and does
      not stop the load; it only adds a warning naming its tag. */
  lemma UnrecognizedTypeSkipped(filters: seq<JSONFilter>, env: Env, i: int)
    requires 0 <= i < |filters| && filters[i].enabled
    requires filters[i].filterType !in {"console", "socket", "file"}
    ensures var o, o' := LoadFilters(filters, env), LoadFilters(filters[..i] + filters[i + 1..], env);
      o.registered == o'.registered && o.error == o'.error
    ensures var before := LoadFilters(filters[..i], env);
      before.error == None ==>
        LoadFilters(filters, env).warned == before.warned + [filters[i].tag] + LoadFilters(filters[i + 1..], env).warned
  {
    LoadSplitAt(filters, env, i);
    assert FilterStep(filters[i], env) == Warn(filters[i].tag);
    LoadAppend(filters[..i], filters[i + 1..], env);
  }

  /** A document holding one enabled console filter with no format, no
      properties and no overrides registers exactly one logger, with the
      default pattern and an empty override table. */
  lemma SingleConsoleFilter(filter: JSONFilter, env: Env)
    requires filter.enabled && filter.filterType == "console"
    requires filter.format == NoFormat && filter.properties == [] && filter.granulars == []
    ensures LoadFilters([filter], env)
      == LoadOutcome([ConfigLogger(env.getLevel(filter.level), PatFormatter(DefaultPattern), map[], ConsoleWriter)], [], None)
  {
    assert [filter][1..] == [];
  }

  /** Where the document comes from: opening or decoding it may fail. */
  datatype ReadOutcome =
    | OpenFailed(cause: string)
    | DecodeFailed(cause: string)
    | Decoded(config: JSONConfig)

  /** The outcome of a whole load from a file name; `read` opens and
      decodes the file and is not consulted for an empty name. */
  function LoadConfig(filename: string, read: string -> ReadOutcome, env: Env): LoadOutcome {
    if |filename| <= 0 then LoadOutcome([], [], Some(EmptyFilename))
    else match read(filename)
      case OpenFailed(cause) => LoadOutcome([], [], Some(CannotLoadFile(filename, cause)))
      case DecodeFailed(cause) => LoadOutcome([], [], Some(CannotParseFile(filename, cause)))
      case Decoded(config) => LoadFilters(config.filters, env)
  }

  /** An empty file name fails at once, before the file is read, and
      nothing is registered; a file that cannot be opened or decoded
      registers nothing either. */
  lemma LoadConfigEarlyFailures(filename: string, read: string -> ReadOutcome, env: Env)
    ensures filename == "" ==> LoadConfig(filename, read, env) == LoadOutcome([], [], Some(EmptyFilename))
    ensures filename != "" && !read(filename).Decoded? ==>
      LoadConfig(filename, read, env).registered == [] && LoadConfig(filename, read, env).error.Some?
  {
  }

  /** The logger registry: `AddLogger` appends to the list of loggers. */
  class Timber {
    var loggers: seq<ConfigLogger>

    constructor ()
      ensures loggers == []
    {
      loggers := [];
    }

    method AddLogger(logger: ConfigLogger)
      modifies this
      ensures loggers == old(loggers) + [logger]
    {
      loggers := loggers + [logger];
    }

    /** LoadJSONConfig: registers the loggers of the document `read`
        yields for `filename`, or stops at the first error. */
    method LoadJSONConfig(filename: string, read: string -> ReadOutcome, env: Env)
      returns (err: Option<Error>, ghost warned: seq<string>)
      modifies this
      ensures loggers == old(loggers) + LoadConfig(filename, read, env).registered
      ensures err == LoadConfig(filename, read, env).error
      ensures warned == LoadConfig(filename, read, env).warned
    {
      warned := [];
      if |filename| <= 0 {
        return Some(EmptyFilename), warned;
      }
      var source := read(filename);
      if source.OpenFailed? {
        return Some(CannotLoadFile(filename, source.cause)), warned;
      }
      if source.DecodeFailed? {
        return Some(CannotParseFile(filename, source.cause)), warned;
      }
      var filters := source.config.filters;
      ghost var before := loggers;
      for i := 0 to |filters|
        invariant LoadFilters(filters[..i], env).error == None
        invariant loggers == before + LoadFilters(filters[..i], env).registered
        invariant warned == LoadFilters(filters[..i], env).warned
      {
        var step := AssembleFilter(filters[i], env);
        LoadExtend(filters, env, i);
        match step
        case Skip =>
        case Warn(tag) =>
          warned := warned + [tag];
        case Register(logger) =>
          AddLogger(logger);
        case Abort(e) =>
          FirstAbortAfterPrefix(filters, env, i);
          return Some(e), warned;
      }
      assert filters[..|filters|] == filters;
      err := None;
    }
  }

  /** The body of the loader's loop for one filter: a disabled filter is
      skipped; otherwise the level, formatter and override table are built
      and the sink is chosen by type. */
  method AssembleFilter(filter: JSONFilter, env: Env) returns (step: Step)
    ensures step == FilterStep(filter, env)
    ensures !filter.enabled ==> step == Skip
    ensures step.Register? ==> step.logger.formatter.pattern != ""
  {
    if !filter.enabled {
      return Skip;
    }
    var level := env.getLevel(filter.level);
    var formatter := GetJSONFormatter(filter);
    var granulars := BuildGranulars(filter.granulars, env.getLevel);
    var writer;
    if filter.filterType == "console" {
      writer := ConsoleWriter;
    } else if filter.filterType == "socket" {
      var r := GetJSONSocketWriter(filter, env);
      if r.Err? {
        return Abort(r.error);
      }
      writer := r.value;
    } else if filter.filterType == "file" {
      var r := GetJSONFileWriter(filter, env);
      if r.Err? {
        return Abort(r.error);
      }
      writer := r.value;
    } else {
      return Warn(filter.tag);
    }
    step := Register(ConfigLogger(level, formatter, granulars, writer));
  }

  /** One more filter extends the outcome of the filters before it by that
      filter's step. */
  lemma LoadExtend(filters: seq<JSONFilter>, env: Env, i: int)
    requires 0 <= i < |filters|
    ensures LoadFilters(filters[..i + 1], env)
      == Then(LoadFilters(filters[..i], env), Prepend(FilterStep(filters[i], env), LoadOutcome([], [], None)))
  {
    assert filters[..i + 1] == filters[..i] + [filters[i]];
    LoadAppend(filters[..i], [filters[i]], env);
    assert [filters[i]][1..] == [];
  }

  /** A filter that aborts after a prefix that did not decides the whole
      load: the prefix's registrations and warnings, and its error. */
  lemma FirstAbortAfterPrefix(filters: seq<JSONFilter>, env: Env, i: int)
    requires 0 <= i < |filters| && FilterStep(filters[i], env).Abort?
    requires LoadFilters(filters[..i], env).error == None
    ensures LoadFilters(filters, env)
      == LoadFilters(filters[..i], env).(error := Some(FilterStep(filters[i], env).error))
  {
    LoadSplitAt(filters, env, i);
  }
}
