/**
 * The command lines of the pipeline's bash apps. Each app body returns a
 * template built with Python's `%` operator; parsl then fills the `{0}`,
 * `{1}` fields with the app's positional arguments (`str.format`) before
 * running it. Both steps are modelled: `Template` is the app body, `Format`
 * the fill-in.
 */
module Commands {
  import opened Common
  import opened Text
  import opened DataIds

  /** The bash apps that take a dataId. */
  datatype App = ProcessEimage | MakeDiscreteSkyMap | MakeCoaddTempExp | AssembleCoadd | RunCoaddTask {
    /** The coadd-family apps that add `--selectId filter=...`. */
    predicate SelectsFilter() { MakeCoaddTempExp? || AssembleCoadd? }
  }

  function Prepend(p: string, r: Result<string>): Result<string> {
    match r
    case Ok(x) => Ok(p + x)
    case Err(e) => Err(e)
  }

  /**
   * `template.format(*args)` for the replacement fields this layer uses:
   * `{d}` with one digit is the d-th positional argument, `{{` and `}}` are
   * literal braces; any other use of a brace is rejected.
   */
  function Format(s: string, args: seq<string>): Result<string>
    decreases |s|
  {
    if |s| == 0 then Ok("")
    else if s[0] == '{' then
      if |s| >= 2 && s[1] == '{' then Prepend("{", Format(s[2..], args))
      else if |s| >= 3 && IsDigit(s[1]) && s[2] == '}' then
        if DigitValue(s[1]) < |args| then Prepend(args[DigitValue(s[1])], Format(s[3..], args))
        else Err(IndexError)
      else Err(FormatError)
    else if s[0] == '}' then
      if |s| >= 2 && s[1] == '}' then Prepend("}", Format(s[2..], args)) else Err(FormatError)
    else Prepend([s[0]], Format(s[1..], args))
  }

  lemma {:induction false} FormatVerbatim(s: string, args: seq<string>)
    requires NoBraces(s)
    ensures Format(s, args) == Ok(s)
    decreases |s|
  {
    if |s| > 0 {
      assert s[0] in s;
      assert NoBraces(s[1..]) by {
        forall c | c in s[1..] ensures c in s { }
      }
      FormatVerbatim(s[1..], args);
      assert s == [s[0]] + s[1..];
    }
  }

  /** `s` opens with a piece of `n` characters that `.format` turns into `p`. */
  predicate HeadIs(s: string, args: seq<string>, n: nat, p: string) {
    && n <= |s|
    && ((n == 2 && s[0] == '{' && s[1] == '{' && p == "{")
     || (n == 3 && s[0] == '{' && IsDigit(s[1]) && s[2] == '}' && DigitValue(s[1]) < |args|
         && p == args[DigitValue(s[1])])
     || (n == 2 && s[0] == '}' && s[1] == '}' && p == "}")
     || (n == 1 && s[0] != '{' && s[0] != '}' && p == [s[0]]))
  }

  lemma FormatHead(s: string, args: seq<string>, n: nat, p: string)
    requires HeadIs(s, args, n, p)
    ensures Format(s, args) == Prepend(p, Format(s[n..], args))
  {
  }

  /** A well-formed template is filled piece by piece: fields never straddle a join. */
  lemma {:induction false} FormatAppend(a: string, b: string, args: seq<string>)
    requires Format(a, args).Ok?
    ensures Format(a + b, args) == Prepend(Format(a, args).value, Format(b, args))
    decreases |a|
  {
    if |a| == 0 {
      assert a + b == b;
      match Format(b, args)
      case Ok(y) => assert "" + y == y;
      case Err(e) =>
    } else {
      var n: nat, p: string;
      if a[0] == '{' && |a| >= 2 && a[1] == '{' {
        n, p := 2, "{";
      } else if a[0] == '{' {
        assert |a| >= 3 && IsDigit(a[1]) && a[2] == '}';
        n, p := 3, args[DigitValue(a[1])];
      } else if a[0] == '}' {
        assert |a| >= 2 && a[1] == '}';
        n, p := 2, "}";
      } else {
        n, p := 1, [a[0]];
      }
      assert HeadIs(a, args, n, p);
      assert (a + b)[..n] == a[..n];
      assert HeadIs(a + b, args, n, p) by {
        assert forall i | 0 <= i < n :: (a + b)[i] == a[..n][i] == a[i];
      }
      assert (a + b)[n..] == a[n..] + b;
      FormatHead(a, args, n, p);
      FormatHead(a + b, args, n, p);
      FormatAppend(a[n..], b, args);
      var x := Format(a[n..], args).value;
      match Format(b, args)
      case Ok(y) => ConcatAssoc(p, x, y);
      case Err(e) =>
    }
  }

  lemma FormatJoin(a: string, b: string, args: seq<string>, x: string, y: string)
    requires Format(a, args) == Ok(x) && Format(b, args) == Ok(y)
    ensures Format(a + b, args) == Ok(x + y)
  {
    FormatAppend(a, b, args);
  }

  lemma FormatFields(args: seq<string>)
    requires |args| >= 2
    ensures Format("{0}", args) == Ok(args[0])
    ensures Format("{1}", args) == Ok(args[1])
  {
    FormatField0(args);
    var s := "{1}";
    assert s[0] == '{' && s[1] == '1' && s[2] == '}' && |s| == 3;
    assert DigitValue(s[1]) == 1;
    assert s[3..] == "";
    assert Format(s[3..], args) == Ok("");
    assert args[1] + "" == args[1];
  }

  lemma FormatField0(args: seq<string>)
    requires |args| >= 1
    ensures Format("{0}", args) == Ok(args[0])
  {
    var s := "{0}";
    assert s[0] == '{' && s[1] == '0' && s[2] == '}' && |s| == 3;
    assert DigitValue(s[1]) == 0;
    assert s[3..] == "";
    assert Format(s[3..], args) == Ok("");
    assert args[0] + "" == args[0];
  }

  const DoRaise := " --doraise --clobber-config"
  const ClobberVersions := " --clobber-versions"
  const NoVersions := " --no-versions"

  function ConfigFile(name: string): string {
    " --configfile configs/" + name
  }

  /** `<prog> <repo>/ --output <repo>`: the input repository, then the same one as output. */
  function RepoArgs(prog: string, repo: string): string {
    prog + " " + repo + "/ --output " + repo
  }

  function IdArg(d: Option<DataId>): string {
    " --id " + MakeIdString(d)
  }

  /** The body of `ingestSimImages`. */
  function IngestTemplate(): string {
    "ingestSimImages.py " + "{0}" + "/ \"" + "{1}" + "\" --mode link --output " + "{0}" + (DoRaise + ClobberVersions)
  }

  function IngestCommand(outputRepo: string, eimagePattern: string): Result<string> {
    Format(IngestTemplate(), [outputRepo, eimagePattern])
  }

  /** The program name, the versions flag and the config file of each app. */
  function Program(app: App): string {
    match app
    case ProcessEimage => "processEimage.py"
    case MakeDiscreteSkyMap => "makeDiscreteSkyMap.py"
    case MakeCoaddTempExp => "makeCoaddTempExp.py"
    case AssembleCoadd => "assembleCoadd.py"
    case RunCoaddTask => ".py"
  }

  function Versions(app: App): string {
    if app.ProcessEimage? || app.MakeDiscreteSkyMap? then ClobberVersions else NoVersions
  }

  function Config(app: App): string {
    match app
    case ProcessEimage => ConfigFile("processEimage.py")
    case MakeDiscreteSkyMap => ConfigFile("makeDiscreteSkyMap_deep.py")
    case MakeCoaddTempExp => ConfigFile("makeCoaddTempExp_deep.py")
    case AssembleCoadd => ConfigFile("assembleCoadd_deep.py")
    case RunCoaddTask => ""
  }

  /** The flags after the id list. */
  function Tail(app: App, d: Option<DataId>): string {
    IdArg(d) + DoRaise + Versions(app) + Config(app)
  }

  /**
   * The string each app body returns. The coadd-family apps read
   * `dataId['filter']` first, so a missing key (or no dict at all) is an error.
   */
  function Template(app: App, d: Option<DataId>): Result<string> {
    match app
    case RunCoaddTask => Ok("{0}" + RepoArgs(Program(app), "{1}") + Tail(app, d))
    case ProcessEimage => Ok(RepoArgs(Program(app), "{0}") + Tail(app, d))
    case MakeDiscreteSkyMap => Ok(RepoArgs(Program(app), "{0}") + Tail(app, d))
    case _ =>
      match d
      case None => Err(NotSubscriptable)
      case Some(items) =>
        match Lookup(items, "filter")
        case None => Err(KeyError("filter"))
        case Some(f) => Ok(RepoArgs(Program(app), "{0}") + " --selectId filter=" + Show(f) + Tail(app, d))
  }

  /**
   * The positional arguments parsl formats the template with: `run_coadd_task`
   * takes the task name first; a dataId passed positionally follows as `str(d)`.
   */
  function PositionalArgs(app: App, taskName: string, outputRepo: string, d: Option<DataId>): seq<string> {
    (if app.RunCoaddTask? then [taskName, outputRepo] else [outputRepo])
    + (match d case None => [] case Some(items) => [DictRepr(items)])
  }

  /** The command line a task of `app` runs. */
  function Command(app: App, taskName: string, outputRepo: string, d: Option<DataId>): Result<string> {
    var t :- Template(app, d);
    Format(t, PositionalArgs(app, taskName, outputRepo, d))
  }

  /** Every key and value of the dataId is free of braces, so `.format` leaves the id string alone. */
  predicate BraceFree(d: Option<DataId>) {
    d.None? || forall i | 0 <= i < |d.value| :: NoBraces(d.value[i].key) && NoBraces(Show(d.value[i].value))
  }

  lemma {:induction false} JoinNoBraces(sep: string, parts: seq<string>)
    requires NoBraces(sep)
    requires forall k | 0 <= k < |parts| :: NoBraces(parts[k])
    ensures NoBraces(JoinWith(sep, parts))
    decreases |parts|
  {
    if |parts| > 1 {
      JoinNoBraces(sep, parts[1..]);
      NoBracesConcat(parts[0], sep);
      NoBracesConcat(parts[0] + sep, JoinWith(sep, parts[1..]));
    }
  }

  lemma IdArgNoBraces(d: Option<DataId>)
    requires BraceFree(d)
    ensures NoBraces(IdArg(d))
  {
    SharedTextPlain();
    if d.Some? {
      var ts := Tokens(d.value);
      forall k | 0 <= k < |ts| ensures NoBraces(ts[k]) {
        assert ts[k] == d.value[k].key + "=" + Show(d.value[k].value);
      }
      JoinNoBraces(" ", ts);
    }
    NoBracesConcat(" --id ", MakeIdString(d));
  }

  /* The fixed text of every template is free of braces. Each literal gets a
     lemma of its own: checking a literal costs the solver more than linear
     time in its length. */
  lemma DoRaisePlain() ensures NoBraces(DoRaise) {}
  lemma ClobberVersionsPlain() ensures NoBraces(ClobberVersions) {}
  lemma NoVersionsPlain() ensures NoBraces(NoVersions) {}
  lemma IdFlagPlain() ensures NoBraces(" --id ") {}
  lemma SelectIdPlain() ensures NoBraces(" --selectId filter=") {}
  lemma OutputFlagPlain() ensures NoBraces("/ --output ") {}
  lemma BlankPlain() ensures NoBraces(" ") && NoBraces("=") {}
  lemma ConfigFlagPlain() ensures NoBraces(" --configfile configs/") {}
  lemma ProcessEimagePlain() ensures NoBraces("processEimage.py") {}
  lemma SkyMapPlain() ensures NoBraces("makeDiscreteSkyMap.py") {}
  lemma SkyMapConfigPlain() ensures NoBraces("makeDiscreteSkyMap_deep.py") {}
  lemma TempExpPlain() ensures NoBraces("makeCoaddTempExp.py") {}
  lemma TempExpConfigPlain() ensures NoBraces("makeCoaddTempExp_deep.py") {}
  lemma AssemblePlain() ensures NoBraces("assembleCoadd.py") {}
  lemma AssembleConfigPlain() ensures NoBraces("assembleCoadd_deep.py") {}
  lemma SuffixPlain() ensures NoBraces(".py") && NoBraces("") {}
  lemma IngestProgramPlain() ensures NoBraces("ingestSimImages.py ") && NoBraces("/ \"") {}
  lemma IngestModePlain() ensures NoBraces("\" --mode link --output ") {}

  lemma SharedTextPlain()
    ensures NoBraces(DoRaise) && NoBraces(" --id ") && NoBraces(" --selectId filter=")
    ensures NoBraces("/ --output ") && NoBraces(" ") && NoBraces("=")
  {
    DoRaisePlain();
    IdFlagPlain();
    SelectIdPlain();
    OutputFlagPlain();
    BlankPlain();
  }

  lemma ConfigFilePlain(name: string)
    requires NoBraces(name)
    ensures NoBraces(ConfigFile(name))
  {
    ConfigFlagPlain();
    NoBracesConcat(" --configfile configs/", name);
  }

  lemma AppTextPlain(app: App)
    ensures NoBraces(Program(app)) && NoBraces(Versions(app)) && NoBraces(Config(app))
  {
    ClobberVersionsPlain();
    NoVersionsPlain();
    match app
    case ProcessEimage =>
      ProcessEimagePlain();
      ConfigFilePlain("processEimage.py");
    case MakeDiscreteSkyMap =>
      SkyMapPlain();
      SkyMapConfigPlain();
      ConfigFilePlain("makeDiscreteSkyMap_deep.py");
    case MakeCoaddTempExp =>
      TempExpPlain();
      TempExpConfigPlain();
      ConfigFilePlain("makeCoaddTempExp_deep.py");
    case AssembleCoadd =>
      AssemblePlain();
      AssembleConfigPlain();
      ConfigFilePlain("assembleCoadd_deep.py");
    case RunCoaddTask =>
      SuffixPlain();
  }

  lemma IngestTextPlain()
    ensures NoBraces("ingestSimImages.py ") && NoBraces("/ \"") && NoBraces("\" --mode link --output ")
  {
    IngestProgramPlain();
    IngestModePlain();
  }

  lemma FlagsPlain()
    ensures NoBraces(DoRaise + ClobberVersions)
  {
    DoRaisePlain();
    ClobberVersionsPlain();
    NoBracesConcat(DoRaise, ClobberVersions);
  }

  /** The text after the repository arguments is copied verbatim by `.format`. */
  lemma TailVerbatim(app: App, d: Option<DataId>, args: seq<string>)
    requires BraceFree(d)
    ensures Format(Tail(app, d), args) == Ok(Tail(app, d))
  {
    IdArgNoBraces(d);
    SharedTextPlain();
    AppTextPlain(app);
    NoBracesConcat(IdArg(d), DoRaise);
    NoBracesConcat(IdArg(d) + DoRaise, Versions(app));
    NoBracesConcat(IdArg(d) + DoRaise + Versions(app), Config(app));
    FormatVerbatim(Tail(app, d), args);
  }

  lemma RepoArgsFormat(prog: string, field: string, args: seq<string>, repo: string)
    requires NoBraces(prog)
    requires Format(field, args) == Ok(repo)
    ensures Format(RepoArgs(prog, field), args) == Ok(RepoArgs(prog, repo))
  {
    SharedTextPlain();
    NoBracesConcat(prog, " ");
    FormatVerbatim(prog + " ", args);
    FormatJoin(prog + " ", field, args, prog + " ", repo);
    FormatVerbatim("/ --output ", args);
    FormatJoin(prog + " " + field, "/ --output ", args, prog + " " + repo, "/ --output ");
    FormatJoin(prog + " " + field + "/ --output ", field, args, prog + " " + repo + "/ --output ", repo);
  }

  /**
   * `ingestSimImages`: the repository is input and output, the eimage pattern
   * is quoted, files are linked, and versions are clobbered.
   */
  lemma IngestCommandLine(outputRepo: string, eimagePattern: string)
    ensures IngestCommand(outputRepo, eimagePattern)
         == Ok("ingestSimImages.py " + outputRepo + "/ \"" + eimagePattern + "\" --mode link --output "
               + outputRepo + (DoRaise + ClobberVersions))
  {
    var args := [outputRepo, eimagePattern];
    FormatFields(args);
    IngestTextPlain();
    FlagsPlain();
    FormatVerbatim("ingestSimImages.py ", args);
    FormatVerbatim("/ \"", args);
    FormatVerbatim("\" --mode link --output ", args);
    FormatVerbatim(DoRaise + ClobberVersions, args);
    var a1 := "ingestSimImages.py " + "{0}";
    var x1 := "ingestSimImages.py " + outputRepo;
    FormatJoin("ingestSimImages.py ", "{0}", args, "ingestSimImages.py ", outputRepo);
    FormatJoin(a1, "/ \"", args, x1, "/ \"");
    FormatJoin(a1 + "/ \"", "{1}", args, x1 + "/ \"", eimagePattern);
    var a3 := a1 + "/ \"" + "{1}";
    var x3 := x1 + "/ \"" + eimagePattern;
    FormatJoin(a3, "\" --mode link --output ", args, x3, "\" --mode link --output ");
    var a4 := a3 + "\" --mode link --output ";
    var x4 := x3 + "\" --mode link --output ";
    FormatJoin(a4, "{0}", args, x4, outputRepo);
    FormatJoin(a4 + "{0}", DoRaise + ClobberVersions, args, x4 + outputRepo, DoRaise + ClobberVersions);
  }

  /**
   * `processEimage` and `makeDiscreteSkyMap`: the id string follows `--id`,
   * there is no `--selectId`, and versions are clobbered.
   */
  lemma ExposureCommandLine(app: App, taskName: string, outputRepo: string, d: Option<DataId>)
    requires app.ProcessEimage? || app.MakeDiscreteSkyMap?
    requires BraceFree(d)
    ensures Command(app, taskName, outputRepo, d)
         == Ok(RepoArgs(Program(app), outputRepo) + (" --id " + MakeIdString(d) + DoRaise + ClobberVersions + Config(app)))
  {
    var args := PositionalArgs(app, taskName, outputRepo, d);
    FormatField0(args);
    AppTextPlain(app);
    RepoArgsFormat(Program(app), "{0}", args, outputRepo);
    TailVerbatim(app, d, args);
    var t := RepoArgs(Program(app), "{0}") + Tail(app, d);
    assert Template(app, d) == Ok(t);
    FormatJoin(RepoArgs(Program(app), "{0}"), Tail(app, d), args, RepoArgs(Program(app), outputRepo), Tail(app, d));
    assert Command(app, taskName, outputRepo, d) == Format(t, args);
  }

  /** A value found in a brace-free dataId is itself brace-free. */
  lemma {:induction false} LookupShown(d: DataId, k: string, v: Value)
    requires BraceFree(Some(d))
    requires Lookup(d, k) == Some(v)
    ensures NoBraces(Show(v))
  {
    if d[0].key != k {
      assert BraceFree(Some(d[1..])) by {
        forall i | 0 <= i < |d| - 1 ensures d[1..][i] == d[i + 1] { }
      }
      LookupShown(d[1..], k, v);
    }
  }

  /**
   * `makeCoaddTempExp` and `assembleCoadd`: `--selectId filter=F` with F the
   * dataId's filter comes before `--id`, and versions are not written.
   */
  lemma CoaddCommandLine(app: App, taskName: string, outputRepo: string, d: DataId, f: Value)
    requires app.SelectsFilter()
    requires BraceFree(Some(d))
    requires Lookup(d, "filter") == Some(f)
    ensures Command(app, taskName, outputRepo, Some(d))
         == Ok(RepoArgs(Program(app), outputRepo) + " --selectId filter=" + Show(f)
               + (" --id " + MakeIdString(Some(d)) + DoRaise + NoVersions + Config(app)))
  {
    var args := PositionalArgs(app, taskName, outputRepo, Some(d));
    FormatField0(args);
    AppTextPlain(app);
    RepoArgsFormat(Program(app), "{0}", args, outputRepo);
    LookupShown(d, "filter", f);
    SharedTextPlain();
    var r0 := RepoArgs(Program(app), "{0}");
    var x0 := RepoArgs(Program(app), outputRepo);
    FormatVerbatim(" --selectId filter=", args);
    FormatJoin(r0, " --selectId filter=", args, x0, " --selectId filter=");
    FormatVerbatim(Show(f), args);
    FormatJoin(r0 + " --selectId filter=", Show(f), args, x0 + " --selectId filter=", Show(f));
    TailVerbatim(app, Some(d), args);
    var t := r0 + " --selectId filter=" + Show(f) + Tail(app, Some(d));
    assert Template(app, Some(d)) == Ok(t);
    FormatJoin(r0 + " --selectId filter=" + Show(f), Tail(app, Some(d)), args,
               x0 + " --selectId filter=" + Show(f), Tail(app, Some(d)));
    assert Command(app, taskName, outputRepo, Some(d)) == Format(t, args);
  }

  /**
   * `run_coadd_task`: the task name is the program, the repository is the
   * second positional argument, and there is no `--selectId`.
   */
  lemma CoaddTaskCommandLine(taskName: string, outputRepo: string, d: Option<DataId>)
    requires BraceFree(d)
    ensures Command(RunCoaddTask, taskName, outputRepo, d)
         == Ok(taskName + RepoArgs(".py", outputRepo) + (" --id " + MakeIdString(d) + DoRaise + NoVersions + ""))
  {
    var args := PositionalArgs(RunCoaddTask, taskName, outputRepo, d);
    FormatFields(args);
    AppTextPlain(RunCoaddTask);
    RepoArgsFormat(".py", "{1}", args, outputRepo);
    FormatJoin("{0}", RepoArgs(".py", "{1}"), args, taskName, RepoArgs(".py", outputRepo));
    TailVerbatim(RunCoaddTask, d, args);
    var t := "{0}" + RepoArgs(".py", "{1}") + Tail(RunCoaddTask, d);
    assert Template(RunCoaddTask, d) == Ok(t);
    FormatJoin("{0}" + RepoArgs(".py", "{1}"), Tail(RunCoaddTask, d), args,
               taskName + RepoArgs(".py", outputRepo), Tail(RunCoaddTask, d));
    assert Command(RunCoaddTask, taskName, outputRepo, d) == Format(t, args);
  }

  /**
   * A command cannot be built exactly when a coadd-family app gets a dataId
   * without a `filter` key (or none at all); every other app accepts any dataId.
   * The error is the one Python raises: subscripting `None`, or the missing key.
   */
  lemma TemplateFailsIffNoFilter(app: App, d: Option<DataId>)
    ensures Template(app, d).Err? <==> app.SelectsFilter() && (d.None? || "filter" !in Keys(d.value))
    ensures Template(app, d).Err? ==>
      Template(app, d).error == (if d.None? then NotSubscriptable else KeyError("filter"))
  {
    if d.Some? {
      LookupKeys(d.value, "filter");
    }
  }

  /** `makeDiscreteSkyMap` called with its default `dataId=None` gets an empty id list. */
  lemma SkyMapDefaultId(outputRepo: string)
    ensures Command(MakeDiscreteSkyMap, "", outputRepo, None)
         == Ok(RepoArgs("makeDiscreteSkyMap.py", outputRepo) + (" --id " + "" + DoRaise + ClobberVersions
               + ConfigFile("makeDiscreteSkyMap_deep.py")))
  {
    ExposureCommandLine(MakeDiscreteSkyMap, "", outputRepo, None);
  }
}
