/** The property-bag lookups of the JSON loader: the format pattern and the
    socket and file sinks. Each source function scans the bag front to back
    and overwrites a local on every match, so the last match wins; that rule
    is stated once, as `LastValue`, and each scanning loop is proved equal
    to it. */
module PropertyScan {
  import opened ConfigTypes

  /** The pattern used when neither the format field nor the bag gives one:
      the message alone. */
  const DefaultPattern := "%M"

  /** Some property in `props` is called `name`. */
  predicate Mentions(props: seq<JSONProperty>, name: string) {
    exists j :: 0 <= j < |props| && props[j].name == name
  }

  /** The value of the last property called `name`, or "" when none is. */
  function LastValue(props: seq<JSONProperty>, name: string): (v: string)
    ensures !Mentions(props, name) ==> v == ""
    ensures v == "" || exists i :: 0 <= i < |props| && props[i].name == name && props[i].value == v
  {
    if props == [] then ""
    else if props[|props| - 1].name == name then props[|props| - 1].value
    else LastValue(props[..|props| - 1], name)
  }

  /** Reference reading of the lookup: the value is that of the property at
      the last index carrying the name, even when that value is empty. */
  lemma {:induction false} LastValueIsLastMatch(props: seq<JSONProperty>, name: string, i: int)
    requires 0 <= i < |props| && props[i].name == name
    requires forall j :: i < j < |props| ==> props[j].name != name
    ensures LastValue(props, name) == props[i].value
  {
    if i < |props| - 1 {
      LastValueIsLastMatch(props[..|props| - 1], name, i);
    }
  }

  /** Later properties override earlier ones: appending a bag that mentions
      `name` decides the lookup alone, and one that does not leaves it as
      it was. */
  lemma {:induction false} LastValueAppend(a: seq<JSONProperty>, b: seq<JSONProperty>, name: string)
    ensures LastValue(a + b, name) == if Mentions(b, name) then LastValue(b, name) else LastValue(a, name)
  {
    if b == [] {
      assert a + b == a;
    } else {
      var b' := b[..|b| - 1];
      assert (a + b)[..|a + b| - 1] == a + b';
      if b[|b| - 1].name != name {
        LastValueAppend(a, b', name);
        if Mentions(b', name) {
          var j :| 0 <= j < |b'| && b'[j].name == name;
          assert b[j].name == name;
        }
        if Mentions(b, name) {
          var j :| 0 <= j < |b| && b[j].name == name;
          assert b'[j].name == name;
        }
      } else {
        assert b[|b| - 1].name == name;
      }
    }
  }

  /** The pattern the format resolver hands to the formatter constructor:
      a `Format` field other than the zero value wins, otherwise the last
      "format" property; an empty choice becomes the default. */
  function FormatPattern(filter: JSONFilter): (p: string)
    ensures p != ""
  {
    var format :=
      if filter.format != NoFormat then filter.format.value
      else LastValue(filter.properties, "format");
    if format == "" then DefaultPattern else format
  }

  /** A set `Format` field decides the pattern; the property bag is not read. */
  lemma FormatFieldWins(filter: JSONFilter, props: seq<JSONProperty>)
    requires filter.format != NoFormat
    ensures FormatPattern(filter) == if filter.format.value == "" then DefaultPattern else filter.format.value
    ensures FormatPattern(filter.(properties := props)) == FormatPattern(filter)
  {
  }

  /** A `Format` with a name but no value is not the zero value, so the bag
      is skipped and the pattern is the default. */
  lemma NamedEmptyFormatIsDefault(filter: JSONFilter)
    requires filter.format.name != "" && filter.format.value == ""
    ensures FormatPattern(filter) == DefaultPattern
  {
  }

  /** Without a `Format` field the last "format" property decides. */
  lemma FormatFromLastProperty(filter: JSONFilter, i: int)
    requires filter.format == NoFormat
    requires 0 <= i < |filter.properties| && filter.properties[i].name == "format"
    requires forall j :: i < j < |filter.properties| ==> filter.properties[j].name != "format"
    ensures FormatPattern(filter) == if filter.properties[i].value == "" then DefaultPattern else filter.properties[i].value
  {
    LastValueIsLastMatch(filter.properties, "format", i);
  }

  /** With neither a `Format` field nor a "format" property, the pattern is
      the default. */
  lemma FormatDefaultWhenAbsent(filter: JSONFilter)
    requires filter.format == NoFormat
    requires forall j :: 0 <= j < |filter.properties| ==> filter.properties[j].name != "format"
    ensures FormatPattern(filter) == DefaultPattern
  {
  }

  /** getJSONFormatter: builds the formatter for a filter's pattern. */
  method GetJSONFormatter(filter: JSONFilter) returns (formatter: LogFormatter)
    ensures formatter == PatFormatter(FormatPattern(filter))
    ensures formatter.pattern != ""
  {
    var format := "";
    if filter.format != NoFormat {
      format := filter.format.value;
    } else {
      var props := filter.properties;
      for i := 0 to |props|
        invariant format == LastValue(props[..i], "format")
      {
        assert props[..i + 1][..i] == props[..i];
        if props[i].name == "format" {
          format := props[i].value;
        }
      }
      assert props[..|props|] == props;
    }
    if format == "" {
      format := DefaultPattern;
    }
    formatter := PatFormatter(format);
  }

  /** The outcome of getJSONSocketWriter: the last "protocol" and the last
      "endpoint" must both be non-empty, and only then is the constructor
      asked. */
  function SocketWriterOf(filter: JSONFilter, env: Env): Result<LogWriter> {
    var protocol := LastValue(filter.properties, "protocol");
    var endpoint := LastValue(filter.properties, "endpoint");
    if protocol == "" || endpoint == "" then Err(MissingProtocolOrEndpoint)
    else FromSink(env.newSocketWriter(protocol, endpoint))
  }

  /** When the last "protocol" and the last "endpoint" are non-empty, the
      result is exactly the constructor's for those two values. */
  lemma SocketWriterDelegates(filter: JSONFilter, env: Env, i: int, k: int)
    requires 0 <= i < |filter.properties| && filter.properties[i].name == "protocol"
    requires forall j :: i < j < |filter.properties| ==> filter.properties[j].name != "protocol"
    requires 0 <= k < |filter.properties| && filter.properties[k].name == "endpoint"
    requires forall j :: k < j < |filter.properties| ==> filter.properties[j].name != "endpoint"
    requires filter.properties[i].value != "" && filter.properties[k].value != ""
    ensures SocketWriterOf(filter, env) == FromSink(env.newSocketWriter(filter.properties[i].value, filter.properties[k].value))
  {
    LastValueIsLastMatch(filter.properties, "protocol", i);
    LastValueIsLastMatch(filter.properties, "endpoint", k);
  }

  /** A socket filter without any "endpoint" fails with the missing-field
      error, without asking the constructor. */
  lemma SocketWriterMissingEndpoint(filter: JSONFilter, env: Env)
    requires forall j :: 0 <= j < |filter.properties| ==> filter.properties[j].name != "endpoint"
    ensures SocketWriterOf(filter, env) == Err(MissingProtocolOrEndpoint)
  {
  }

  /** A later empty "protocol" or "endpoint" overrides an earlier non-empty
      one, and the load of that sink fails. */
  lemma SocketWriterLaterEmptyOverrides(filter: JSONFilter, env: Env, name: string, i: int)
    requires name == "protocol" || name == "endpoint"
    requires 0 <= i < |filter.properties| && filter.properties[i] == JSONProperty(name, "")
    requires forall j :: i < j < |filter.properties| ==> filter.properties[j].name != name
    ensures SocketWriterOf(filter, env) == Err(MissingProtocolOrEndpoint)
  {
    LastValueIsLastMatch(filter.properties, name, i);
  }

  /** getJSONSocketWriter: scans the bag once for both required names. */
  method GetJSONSocketWriter(filter: JSONFilter, env: Env) returns (r: Result<LogWriter>)
    ensures r == SocketWriterOf(filter, env)
    ensures r == Err(MissingProtocolOrEndpoint)
      <==> LastValue(filter.properties, "protocol") == "" || LastValue(filter.properties, "endpoint") == ""
  {
    var protocol, endpoint := "", "";
    var props := filter.properties;
    for i := 0 to |props|
      invariant protocol == LastValue(props[..i], "protocol")
      invariant endpoint == LastValue(props[..i], "endpoint")
    {
      assert props[..i + 1][..i] == props[..i];
      if props[i].name == "protocol" {
        protocol := props[i].value;
      } else if props[i].name == "endpoint" {
        endpoint := props[i].value;
      }
    }
    assert props[..|props|] == props;
    if protocol == "" || endpoint == "" {
      return Err(MissingProtocolOrEndpoint);
    }
    r := FromSink(env.newSocketWriter(protocol, endpoint));
  }

  /** The outcome of getJSONFileWriter: the last "filename" must be
      non-empty, and only then is the constructor asked. */
  function FileWriterOf(filter: JSONFilter, env: Env): Result<LogWriter> {
    var filename := LastValue(filter.properties, "filename");
    if filename == "" then Err(MissingFilename) else FromSink(env.newFileWriter(filename))
  }

  /** When the last "filename" is non-empty the result is exactly the
      constructor's for it. */
  lemma FileWriterDelegates(filter: JSONFilter, env: Env, i: int)
    requires 0 <= i < |filter.properties| && filter.properties[i].name == "filename"
    requires forall j :: i < j < |filter.properties| ==> filter.properties[j].name != "filename"
    requires filter.properties[i].value != ""
    ensures FileWriterOf(filter, env) == FromSink(env.newFileWriter(filter.properties[i].value))
  {
    LastValueIsLastMatch(filter.properties, "filename", i);
  }

  /** A file filter with no "filename" fails without asking the constructor. */
  lemma FileWriterAbsentFilename(filter: JSONFilter, env: Env)
    requires forall j :: 0 <= j < |filter.properties| ==> filter.properties[j].name != "filename"
    ensures FileWriterOf(filter, env) == Err(MissingFilename)
  {
  }

  /** A last "filename" that is empty fails exactly as an absent one. */
  lemma FileWriterEmptyFilename(filter: JSONFilter, env: Env, i: int)
    requires 0 <= i < |filter.properties| && filter.properties[i] == JSONProperty("filename", "")
    requires forall j :: i < j < |filter.properties| ==> filter.properties[j].name != "filename"
    ensures FileWriterOf(filter, env) == Err(MissingFilename)
  {
    LastValueIsLastMatch(filter.properties, "filename", i);
  }

  /** getJSONFileWriter: scans the bag for the file name. */
  method GetJSONFileWriter(filter: JSONFilter, env: Env) returns (r: Result<LogWriter>)
    ensures r == FileWriterOf(filter, env)
    ensures r == Err(MissingFilename) <==> LastValue(filter.properties, "filename") == ""
  {
    var filename := "";
    var props := filter.properties;
    for i := 0 to |props|
      invariant filename == LastValue(props[..i], "filename")
    {
      assert props[..i + 1][..i] == props[..i];
      if props[i].name == "filename" {
        filename := props[i].value;
      }
    }
    assert props[..|props|] == props;
    if filename == "" {
      return Err(MissingFilename);
    }
    r := FromSink(env.newFileWriter(filename));
  }
}
