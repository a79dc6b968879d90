/**
 * A logging job (logger/src/lib.rs): a name, a sink, the entries resolved from its channel
 * pattern, an output path, a rate and a running flag. The path is kept as a string.
 */
module Loggers {
  import opened Common
  import opened LoggerChannels
  import opened ChannelPatterns

  datatype LoggerType = DataBase | TextFile

  /** `Default for LoggerType`: a text file. */
  function DefaultLoggerType(): (t: LoggerType)
    ensures t == TextFile
  {
    TextFile
  }

  /** `Display for LoggerType`. */
  function LoggerTypeName(t: LoggerType): (s: string)
    ensures t == DataBase ==> s == "Database"
    ensures t == TextFile ==> s == "Text File"
  {
    match t
    case DataBase => "Database"
    case TextFile => "Text File"
  }

  /** The two sinks are displayed differently, so the display names the sink. */
  lemma LoggerTypeNameInjective(t: LoggerType, t': LoggerType)
    requires LoggerTypeName(t) == LoggerTypeName(t')
    ensures t == t'
  {
  }

  datatype Logger = Logger(
    name: string,
    loggerType: LoggerType,
    channels: seq<LoggerChannel>,
    path: string,
    logRate: nat,
    isLogging: bool)

  /**
   * `Logger::new`: resolve the pattern, propagating its error unchanged, and otherwise build
   * the logger from the resolved entries and the other arguments as given.
   */
  function NewLogger(name: string, loggerType: LoggerType, cp: ChannelPattern, path: string, logRate: nat,
                     isLogging: bool, re: (IdRegex, IdRegex)): (r: Result<Logger>)
    ensures r.Err? <==> Resolve(cp, re.0, re.1).Err?
    ensures r.Err? ==> r.message == Resolve(cp, re.0, re.1).message
    ensures r.Err? <==> cp.pattern == ""
    ensures r.Ok? ==> r.value.channels == Resolve(cp, re.0, re.1).value
    ensures r.Ok? ==> && r.value.name == name && r.value.loggerType == loggerType && r.value.path == path
                      && r.value.logRate == logRate && r.value.isLogging == isLogging
  {
    match Resolve(cp, re.0, re.1)
    case Err(m) => Err(m)
    case Ok(channels) => Ok(Logger(name, loggerType, channels, path, logRate, isLogging))
  }

  /** A logger over the unit test's pattern records channels 4 to 7, 1 to 2, 1, 1 to 2 and calculations 1 to 3. */
  lemma NewLoggerOnTestPattern(rc: IdRegex, rv: IdRegex, name: string, path: string, logRate: nat)
    requires TestRegexes(rc, rv)
    ensures var r := NewLogger(name, TextFile, ChannelPattern(TEST_PATTERN), path, logRate, false, (rc, rv));
            && r.Ok?
            && EntryIds(r.value.channels) == [4, 5, 6, 7, 1, 2, 1, 1, 2, 1, 2, 3]
  {
    ParsePatternTest(rc, rv);
  }
}
