/** The decoded JSON configuration of the timber logger, the values the
    loader assembles from it, and the collaborators it calls but does not
    define. */
module ConfigTypes {

  /** timber's severity ranking. The level type and its name lookup are not
      part of this model; an integer rank stands for a level. */
  type Level = int

  /** A `{level, path}` override of a filter's severity for one package path,
      or package path and function name. */
  datatype JSONGranular = JSONGranular(level: string, path: string)

  /** A generic `{name, value}` pair of a filter's property bag; the same
      shape is used for the filter's own `Format` field. */
  datatype JSONProperty = JSONProperty(name: string, value: string)

  /** The zero value of a `JSONProperty`: a `Format` field equal to it means
      "no format given". */
  const NoFormat := JSONProperty("", "")

  /** One entry of the `Filters` list. */
  datatype JSONFilter = JSONFilter(
    enabled: bool,
    tag: string,
    filterType: string,
    level: string,
    format: JSONProperty,
    properties: seq<JSONProperty>,
    granulars: seq<JSONGranular>)

  /** The whole decoded document. */
  datatype JSONConfig = JSONConfig(filters: seq<JSONFilter>)

  /** The formatter the pattern-formatter constructor builds; only the
      pattern it was given is recorded. */
  datatype LogFormatter = PatFormatter(pattern: string)

  /** The sink a logger writes to. Socket and file sinks come from foreign
      constructors, so a model of them may return any of these. */
  datatype LogWriter =
    | ConsoleWriter
    | SocketWriter(protocol: string, endpoint: string)
    | FileWriter(filename: string)

  /** A fully assembled logger, as handed to the registry. */
  datatype ConfigLogger = ConfigLogger(
    level: Level,
    formatter: LogFormatter,
    granulars: map<string, Level>,
    writer: LogWriter)

  /** The errors the loader returns. `WriterFailed` carries the cause a
      foreign sink constructor reports; the loader passes it on unchanged. */
  datatype Error =
    | EmptyFilename
    | CannotLoadFile(filename: string, cause: string)
    | CannotParseFile(filename: string, cause: string)
    | MissingProtocolOrEndpoint
    | MissingFilename
    | WriterFailed(cause: string)

  datatype Result<T> = Ok(value: T) | Err(error: Error)

  datatype Option<T> = None | Some(value: T)

  /** What a foreign sink constructor returns: a sink, or the cause of its
      failure. */
  datatype SinkOutcome = Built(writer: LogWriter) | Failed(cause: string)

  /** A sink constructor's outcome as the loader sees it: a failure becomes
      `WriterFailed` with the constructor's cause. */
  function FromSink(outcome: SinkOutcome): Result<LogWriter> {
    match outcome
    case Built(w) => Ok(w)
    case Failed(cause) => Err(WriterFailed(cause))
  }

  /** The foreign code the loader calls: the level lookup and the socket and
      file sink constructors. Each is total; a sink constructor may fail. */
  datatype Env = Env(
    getLevel: string -> Level,
    newSocketWriter: (string, string) -> SinkOutcome,
    newFileWriter: string -> SinkOutcome)
}
