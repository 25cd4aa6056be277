/**
 * `ParslLogFiles`: routes the standard output and error of one task to a
 * `<prefix>.log` file in the log directory, creating that directory on demand.
 */
module LogFiles {
  import opened Common
  import opened FileSystems

  /** The `stdout`/`stderr` keyword arguments handed to a bash app; `None` means no redirection. */
  datatype LogDests = LogDests(stdout: Option<string>, stderr: Option<string>)

  /** The log destination of `prefix`, when logging is enabled. */
  function LogPath(logDir: string, enable: bool, prefix: string): Option<string> {
    if enable then Some(PathJoin(logDir, prefix + ".log")) else None
  }

  /**
   * One call of the routing object: make the log directory when it is not a
   * directory yet, then hand out the same destination for both streams.
   */
  function Route(e: Entries, logDir: string, enable: bool, prefix: string): (Entries, Result<LogDests>) {
    var made := if IsDir(e, logDir) then Ok(e) else MakeDir(e, logDir);
    match made
    case Err(x) => (e, Err(x))
    case Ok(e1) =>
      var p := LogPath(logDir, enable, prefix);
      (e1, Ok(LogDests(p, p)))
  }

  /** The log directory can be used: nothing holds its name yet, or a directory does. */
  predicate Routable(e: Entries, logDir: string) {
    logDir !in e || IsDir(e, logDir)
  }

  /** What routing calls for `logDir` may do to the file system: nothing, or make the missing directory. */
  predicate RoutedFrom(e: Entries, e': Entries, logDir: string) {
    e' == e || (logDir !in e && e' == e[logDir := Dir])
  }

  /** Routing twice does no more than routing once; after a change the directory is usable. */
  lemma RoutedTrans(e0: Entries, e1: Entries, e2: Entries, logDir: string)
    requires RoutedFrom(e0, e1, logDir) && RoutedFrom(e1, e2, logDir)
    ensures RoutedFrom(e0, e2, logDir)
    ensures e1 != e0 ==> Routable(e1, logDir)
  {
  }

  /**
   * What a section that routes its logs into `logDir` may do besides its
   * tasks: at most create the missing log directory, and stop other than on
   * a task failure only with `FileExistsError` on a log directory that a
   * non-directory held at the start.
   */
  predicate RoutesOnly<T>(e0: Entries, e: Entries, logDir: string, r: Result<T>) {
    && RoutedFrom(e0, e, logDir)
    && (r.Err? && !r.error.TaskFailed? ==> r == Err(FileExists(logDir)) && !Routable(e0, logDir))
  }

  /** A section after routing that has so far changed at most the log directory. */
  lemma RoutesOnlyTrans<T>(e0: Entries, e1: Entries, e2: Entries, logDir: string, r: Result<T>)
    requires RoutedFrom(e0, e1, logDir) && RoutesOnly(e1, e2, logDir, r)
    ensures RoutesOnly(e0, e2, logDir, r)
  {
    RoutedTrans(e0, e1, e2, logDir);
  }

  /** An error passed on unchanged as the result of the caller keeps what it says about routing. */
  lemma RoutesOnlyErr<T, U>(e0: Entries, e: Entries, logDir: string, a: Result<T>, b: Result<U>)
    requires RoutesOnly(e0, e, logDir, a) && a.Err? && b == Err(a.error)
    ensures RoutesOnly(e0, e, logDir, b)
  {
  }

  class ParslLogFiles {
    const logDir: string
    const enable: bool

    constructor (logDir: string, enable: bool)
      ensures this.logDir == logDir && this.enable == enable
    {
      this.logDir := logDir;
      this.enable := enable;
    }

    /** `log_files(prefix)`. */
    method Call(fs: FileSystem, prefix: string) returns (r: Result<LogDests>)
      modifies fs
      ensures (fs.entries, r) == Route(old(fs.entries), logDir, enable, prefix)
    {
      if !fs.IsDirectory(logDir) {
        var made := fs.Mkdir(logDir);
        if made.Err? {
          return Err(made.error);
        }
      }
      var p := if enable then Some(PathJoin(logDir, prefix + ".log")) else None;
      r := Ok(LogDests(p, p));
    }
  }

  /**
   * A successful call names the same destination for both streams, a
   * `<log_dir>/<prefix>.log` path exactly when logging is enabled, and leaves
   * the log directory in place, created only if it was missing.
   */
  lemma RouteOutcome(e: Entries, logDir: string, enable: bool, prefix: string)
    requires Route(e, logDir, enable, prefix).1.Ok?
    ensures var (e', r) := Route(e, logDir, enable, prefix);
      && r.value.stdout == r.value.stderr
      && (r.value.stdout.Some? <==> enable)
      && (enable ==> r.value.stdout.value == PathJoin(logDir, prefix + ".log"))
      && IsDir(e', logDir)
      && (if IsDir(e, logDir) then e' == e else logDir !in e && e' == e[logDir := Dir])
  {
  }

  /** The call fails exactly when something that is not a directory already holds the log directory's name. */
  lemma RouteFails(e: Entries, logDir: string, enable: bool, prefix: string)
    ensures Route(e, logDir, enable, prefix).1.Err? <==> logDir in e && !IsDir(e, logDir)
    ensures Route(e, logDir, enable, prefix).1.Err? ==>
      Route(e, logDir, enable, prefix) == (e, Err(FileExists(logDir)))
    ensures RoutedFrom(e, Route(e, logDir, enable, prefix).0, logDir)
    ensures Route(e, logDir, enable, prefix).1.Ok? ==> IsDir(Route(e, logDir, enable, prefix).0, logDir)
  {
  }

  /** After one successful call, every later call succeeds and leaves the file system as it is. */
  lemma RouteStable(e: Entries, logDir: string, enable: bool, prefix: string, prefix': string)
    requires Route(e, logDir, enable, prefix).1.Ok?
    ensures var e' := Route(e, logDir, enable, prefix).0;
      Route(e', logDir, enable, prefix') == (e', Ok(LogDests(LogPath(logDir, enable, prefix'), LogPath(logDir, enable, prefix'))))
  {
  }

  /** An enabled destination is a `.log` file. */
  lemma LogPathSuffix(logDir: string, prefix: string)
    ensures var p := LogPath(logDir, true, prefix).value;
      |p| >= 4 && p[|p| - 4..] == ".log"
  {
    var b := prefix + ".log";
    var p := PathJoin(logDir, b);
    assert b[|b| - 4..] == ".log";
    if |b| > 0 && b[0] == '/' {
    } else if logDir == "" || logDir[|logDir| - 1] == '/' {
      assert p == logDir + b;
      assert p[|p| - 4..] == b[|b| - 4..];
    } else {
      assert p == (logDir + "/") + b;
      assert p[|p| - 4..] == b[|b| - 4..];
    }
  }
}
