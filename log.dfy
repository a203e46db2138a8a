/**
 * The logging set-up of src/beeflow/common/log.py: the STEP_INFO level, the
 * two format tables, the level filter and the two console handlers whose
 * filters split the records between them.  Streams and files are not
 * modelled; a handler is its filter and its formatter.
 */
module BeeLog {
  import opened Wrappers
  import opened PyText

  const NotSet := 0
  const Debug := 10
  const StepInfo := 15
  const Info := 20
  const Warning := 30
  const Error := 40
  const Critical := 50

  /** The levels with a name once STEP_INFO is registered. */
  const Levels := {NotSet, Debug, StepInfo, Info, Warning, Error, Critical}

  /** `logging.getLevelName` on a level number, once STEP_INFO is registered. */
  function LevelName(levelno: int): (r: string)
    ensures levelno == StepInfo ==> r == "STEP_INFO"
    ensures levelno !in Levels ==> r == "Level " + IntToString(levelno)
  {
    if levelno == NotSet then "NOTSET"
    else if levelno == Debug then "DEBUG"
    else if levelno == StepInfo then "STEP_INFO"
    else if levelno == Info then "INFO"
    else if levelno == Warning then "WARNING"
    else if levelno == Error then "ERROR"
    else if levelno == Critical then "CRITICAL"
    else "Level " + IntToString(levelno)
  }

  const LevelNames := {"DEBUG", "STEP_INFO", "INFO", "WARNING", "ERROR", "CRITICAL"}

  /**
   * The level a name stands for when `Logger.setLevel` is given a string
   * (`logging._nameToLevel` with STEP_INFO added); `None` for the names it
   * refuses with a ValueError.
   */
  function LevelNumber(name: string): Option<int> {
    var table := map["CRITICAL" := Critical, "FATAL" := Critical, "ERROR" := Error, "WARN" := Warning, "WARNING" := Warning,
                     "INFO" := Info, "STEP_INFO" := StepInfo, "DEBUG" := Debug, "NOTSET" := NotSet];
    if name in table then Some(table[name]) else None
  }

  /**
   * The name of a level reads back as that level, and a level without a
   * name is shown as a text `setLevel` refuses.
   */
  lemma LevelNameNumber(levelno: int)
    ensures levelno in Levels ==> LevelNumber(LevelName(levelno)) == Some(levelno)
    ensures levelno !in Levels ==> LevelNumber(LevelName(levelno)) == None
  {
    if levelno !in Levels {
      var r := LevelName(levelno);
      assert r[0] == 'L' && r[1] == 'e';
    }
  }

  const BoldCyan := "[01;36m"
  const Reset := "[0m"
  const BoldYellow := "[01;33m"
  const BoldRed := "[01;31m"

  /** `LogFormatter.log_format` */
  const ColorFormat: map<string, string> := map[
    "DEBUG" := BoldCyan + "%(levelname)s: %(msg)s " + Reset,
    "STEP_INFO" := "%(levelname)s: %(msg)s",
    "INFO" := "%(levelname)s: %(msg)s",
    "WARNING" := BoldYellow + "%(levelname)s: %(msg)s" + Reset,
    "ERROR" := BoldRed + "%(levelname)s: %(msg)s" + Reset,
    "CRITICAL" := BoldRed + "%(levelname)s: %(msg)s" + Reset]

  /** `LogFormatter.log_format_no_colors` */
  const PlainFormat: map<string, string> := map[
    "DEBUG" := "%(levelname)s: %(msg)s ",
    "STEP_INFO" := "%(levelname)s: %(msg)s",
    "INFO" := "%(levelname)s: %(msg)s",
    "WARNING" := "%(levelname)s: %(msg)s",
    "ERROR" := "%(levelname)s: %(msg)s",
    "CRITICAL" := "%(levelname)s: %(msg)s"]

  /** `LogFormatter(colors).log_fmt`: the colour table exactly when colours are asked for. */
  function FormatTable(colors: bool): (r: map<string, string>)
    ensures r.Keys == LevelNames
    ensures colors <==> r == ColorFormat
    ensures !colors <==> r == PlainFormat
  {
    assert ColorFormat["DEBUG"] != PlainFormat["DEBUG"];
    if colors then ColorFormat else PlainFormat
  }

  /**
   * `LogFormatter.format`: the table's format for the record's level, or
   * the default `%(message)s` for a level the table does not name.
   */
  function FormatFor(colors: bool, levelno: int): (r: string)
    ensures LevelName(levelno) in LevelNames ==> r == FormatTable(colors)[LevelName(levelno)]
    ensures LevelName(levelno) !in LevelNames ==> r == "%(message)s"
  {
    var t := FormatTable(colors);
    if LevelName(levelno) in t then t[LevelName(levelno)] else "%(message)s"
  }

  /** Without colours every level shows the same text: level name, colon, message. */
  lemma PlainFormatUncoloured(levelno: int)
    requires LevelName(levelno) in LevelNames
    ensures FormatFor(false, levelno) == "%(levelname)s: %(msg)s" || FormatFor(false, levelno) == "%(levelname)s: %(msg)s "
  {
  }

  datatype LevelFilter = LevelFilter(passlevels: seq<int>, reject: bool) {
    /** `LevelFilter.filter`: the pass levels go through, or exactly the others with `reject`. */
    function Filter(levelno: int): (r: bool)
      ensures !reject ==> (r <==> levelno in passlevels)
      ensures reject ==> (r <==> levelno !in passlevels)
    {
      if reject then levelno !in passlevels else levelno in passlevels
    }
  }

  /** A handler: its filter, if any, and whether its formatter uses colours. */
  datatype Handler = Handler(filter: Option<LevelFilter>, colors: bool)

  /** The two console handlers of `setup_logging`. */
  function ConsoleHandlers(colors: bool): seq<Handler> {
    [Handler(Some(LevelFilter([Info, StepInfo], false)), colors),
     Handler(Some(LevelFilter([Info, StepInfo], true)), colors)]
  }

  /** Every record passes exactly one of the two console handlers: INFO and STEP_INFO the first. */
  lemma ConsoleHandlersSplit(colors: bool, levelno: int)
    ensures ConsoleHandlers(colors)[0].filter.value.Filter(levelno) != ConsoleHandlers(colors)[1].filter.value.Filter(levelno)
    ensures ConsoleHandlers(colors)[0].filter.value.Filter(levelno) <==> levelno == Info || levelno == StepInfo
  {
  }

  class Logger {
    var handlers: seq<Handler>
    var level: int

    constructor ()
      ensures handlers == [] && level == NotSet
    {
      handlers := [];
      level := NotSet;
    }

    /**
     * `setup_logging`: a logger that already has handlers, its own or an
     * ancestor's, only gets the level; otherwise the two console handlers
     * are added first.  A level name `setLevel` does not know raises a
     * ValueError and leaves the level as it was, after the handlers are added.
     */
    method SetupLogging(level: string, colors: bool, ancestorsHaveHandlers: bool) returns (r: Result<()>)
      modifies this
      ensures r.Ok? <==> LevelNumber(level).Some?
      ensures this.level == (if r.Ok? then LevelNumber(level).value else old(this.level))
      ensures old(handlers) != [] || ancestorsHaveHandlers ==> handlers == old(handlers)
      ensures old(handlers) == [] && !ancestorsHaveHandlers ==> handlers == ConsoleHandlers(colors)
    {
      if handlers == [] && !ancestorsHaveHandlers {
        handlers := handlers + ConsoleHandlers(colors);
      }
      var n := LevelNumber(level);
      if n.None? {
        return Err("ValueError: Unknown level: " + level);
      }
      this.level := n.value;
      r := Ok(());
    }

    /** `save_log`: a file handler without colours is added. */
    method SaveLog(beeWorkdir: string, logfile: string) returns (path: string)
      modifies this
      ensures handlers == old(handlers) + [Handler(None, false)] && level == old(level)
      ensures path == SaveLogPath(beeWorkdir, logfile)
    {
      handlers := handlers + [Handler(None, false)];
      path := SaveLogPath(beeWorkdir, logfile);
    }
  }

  /** `os.path.join(a, b)` on POSIX. */
  function PathJoin(a: string, b: string): string {
    if StartsWith(b, "/") then b
    else if a == "" || a[|a| - 1] == '/' then a + b
    else a + "/" + b
  }

  /** The directory `save_log` creates. */
  function LogDir(beeWorkdir: string): string {
    PathJoin(beeWorkdir, "logs")
  }

  /** The file `save_log` opens, as written: the work directory is joined in twice. */
  function SaveLogPath(beeWorkdir: string, logfile: string): string {
    PathJoin(PathJoin(beeWorkdir, LogDir(beeWorkdir)), logfile)
  }

  /** The file the log was meant to go to: inside the directory just created. */
  function IntendedLogPath(beeWorkdir: string, logfile: string): string {
    PathJoin(LogDir(beeWorkdir), logfile)
  }

  /** With an absolute work directory the doubled join is harmless. */
  lemma SaveLogPathAbsolute(beeWorkdir: string, logfile: string)
    requires StartsWith(beeWorkdir, "/")
    ensures SaveLogPath(beeWorkdir, logfile) == IntendedLogPath(beeWorkdir, logfile)
  {
    var d := LogDir(beeWorkdir);
    assert d[..1] == beeWorkdir[..1];
  }

  /**
   * With a relative one the path opened is not in the directory made for
   * it: it names a directory below the work directory that `save_log` never
   * creates, so opening the file handler fails unless that directory
   * happens to exist.
   */
  lemma SaveLogPathRelative()
    ensures SaveLogPath("bee", "x.log") == "bee/bee/logs/x.log"
    ensures IntendedLogPath("bee", "x.log") == "bee/logs/x.log"
  {
    assert LogDir("bee") == "bee/logs";
    assert PathJoin("bee", "bee/logs") == "bee/bee/logs";
  }

  /** The intended file is always inside the log directory. */
  lemma IntendedLogPathInLogDir(beeWorkdir: string, logfile: string)
    requires logfile != [] && !StartsWith(logfile, "/")
    ensures StartsWith(IntendedLogPath(beeWorkdir, logfile), LogDir(beeWorkdir))
  {
    var d := LogDir(beeWorkdir);
    var p := IntendedLogPath(beeWorkdir, logfile);
    assert p[..|d|] == d;
  }
}
