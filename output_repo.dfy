/**
 * `set_output_repo`: bootstrap of the output repository, a directory with a
 * `_mapper` file naming the camera mapper and a `ref_cats` link to the
 * reference catalogs.
 */
module OutputRepo {
  import opened Common
  import opened FileSystems

  const DefaultMapper := "lsst.obs.lsstSim.LsstSimMapper"

  function MapperPath(repo: string): string { PathJoin(repo, "_mapper") }
  function RefCatsPath(repo: string): string { PathJoin(repo, "ref_cats") }

  /**
   * What `set_output_repo` leaves behind and returns: an existing entry at
   * `repo` is tolerated, `_mapper` is (re)written, and the link is made only
   * when `ref_cats` is not already a directory.
   */
  function Bootstrap(e: Entries, repo: string, refCatPath: string, mapperName: string): (Entries, Result<string>) {
    var e1 := if repo in e then e else e[repo := Dir];
    match WriteText(e1, repo, MapperPath(repo), mapperName + "\n")
    case Err(x) => (e1, Err(x))
    case Ok(e2) =>
      if IsDir(e2, RefCatsPath(repo)) then (e2, Ok(repo))
      else match MakeLink(e2, refCatPath, RefCatsPath(repo))
        case Err(x) => (e2, Err(x))
        case Ok(e3) => (e3, Ok(repo))
  }

  method SetOutputRepo(fs: FileSystem, outputRepo: string, refCatPath: string, mapperName: string)
    returns (r: Result<string>)
    modifies fs
    ensures (fs.entries, r) == Bootstrap(old(fs.entries), outputRepo, refCatPath, mapperName)
  {
    var made := fs.Mkdir(outputRepo);  // FileExistsError is swallowed
    var written := fs.Write(outputRepo, MapperPath(outputRepo), mapperName + "\n");
    if written.Err? {
      return Err(written.error);
    }
    if !fs.IsDirectory(RefCatsPath(outputRepo)) {
      var linked := fs.Link(refCatPath, RefCatsPath(outputRepo));
      if linked.Err? {
        return Err(linked.error);
      }
    }
    r := Ok(outputRepo);
  }

  /** The repository, its `_mapper` and its `ref_cats` are three different paths. */
  lemma MapperIsNotRefCats(repo: string)
    ensures MapperPath(repo) != RefCatsPath(repo)
    ensures MapperPath(repo) != repo && RefCatsPath(repo) != repo
  {
    assert "_mapper"[6] != "ref_cats"[7];
    assert |MapperPath(repo)| > |repo| && |RefCatsPath(repo)| > |repo|;
  }

  /**
   * On success the repository path comes back unchanged, `_mapper` holds
   * exactly the mapper name and a newline, and `ref_cats` is a directory that
   * was already there or a link to the given reference catalogs. An entry
   * already at `repo` is kept, and nothing but these three paths is touched.
   */
  lemma BootstrapOutcome(e: Entries, repo: string, refCatPath: string, mapperName: string)
    requires Bootstrap(e, repo, refCatPath, mapperName).1.Ok?
    ensures var (e', r) := Bootstrap(e, repo, refCatPath, mapperName);
      && r.value == repo
      && IsDir(e', repo)
      && e'[MapperPath(repo)] == File(mapperName + "\n")
      && RefCatsPath(repo) in e'
      && (IsDir(e, RefCatsPath(repo)) ==> e'[RefCatsPath(repo)] == e[RefCatsPath(repo)])
      && (RefCatsPath(repo) !in e ==> e'[RefCatsPath(repo)] == Symlink(refCatPath))
      && e'[repo] == (if repo in e then e[repo] else Dir)
      && (forall p | p in e && p != MapperPath(repo) && p != RefCatsPath(repo) :: p in e' && e'[p] == e[p])
      && (forall p | p in e' && p !in e :: p == repo || p == MapperPath(repo) || p == RefCatsPath(repo))
  {
    MapperIsNotRefCats(repo);
  }

  /**
   * The bootstrap fails exactly when `repo` is not a directory, `_mapper` is
   * one, or `ref_cats` exists without being a directory.
   */
  lemma BootstrapFails(e: Entries, repo: string, refCatPath: string, mapperName: string)
    ensures var e1 := if repo in e then e else e[repo := Dir];
      var e2 := e1[MapperPath(repo) := File(mapperName + "\n")];
      (Bootstrap(e, repo, refCatPath, mapperName).1.Err? <==>
        (!IsDir(e1, repo) || IsDir(e1, MapperPath(repo))
         || (!IsDir(e2, RefCatsPath(repo)) && RefCatsPath(repo) in e2)))
    ensures var r := Bootstrap(e, repo, refCatPath, mapperName).1;
      r.Err? ==>
        r.error == NotADirectory(repo) || r.error == IsADirectory(MapperPath(repo))
        || r.error == FileExists(RefCatsPath(repo))
  {
  }

  /**
   * Running the bootstrap again with the same arguments, when the first call
   * left `ref_cats` a directory, succeeds and changes nothing.
   */
  lemma BootstrapIdempotent(e: Entries, repo: string, refCatPath: string, mapperName: string)
    requires Bootstrap(e, repo, refCatPath, mapperName).1.Ok?
    requires IsDir(Bootstrap(e, repo, refCatPath, mapperName).0, RefCatsPath(repo))
    ensures var e' := Bootstrap(e, repo, refCatPath, mapperName).0;
      Bootstrap(e', repo, refCatPath, mapperName) == (e', Ok(repo))
  {
    var e' := Bootstrap(e, repo, refCatPath, mapperName).0;
    var m := MapperPath(repo);
    MapperIsNotRefCats(repo);
    BootstrapOutcome(e, repo, refCatPath, mapperName);
    assert e'[m := File(mapperName + "\n")] == e';
  }

  /** Conversely, a second call leaves everything as it is only if `ref_cats` is a directory after the first. */
  lemma BootstrapIdempotentOnlyIf(e: Entries, repo: string, refCatPath: string, mapperName: string)
    requires Bootstrap(e, repo, refCatPath, mapperName).1.Ok?
    requires var e' := Bootstrap(e, repo, refCatPath, mapperName).0;
      Bootstrap(e', repo, refCatPath, mapperName) == (e', Ok(repo))
    ensures IsDir(Bootstrap(e, repo, refCatPath, mapperName).0, RefCatsPath(repo))
  {
    var e' := Bootstrap(e, repo, refCatPath, mapperName).0;
    MapperIsNotRefCats(repo);
    BootstrapOutcome(e, repo, refCatPath, mapperName);
    BootstrapOutcome(e', repo, refCatPath, mapperName);
  }

  /**
   * A successful bootstrap leaves `ref_cats` a directory when it already was
   * one or when the reference catalogs are an existing directory.
   */
  lemma BootstrapRefCatsDir(e: Entries, repo: string, refCatPath: string, mapperName: string)
    requires Bootstrap(e, repo, refCatPath, mapperName).1.Ok?
    requires IsDir(e, RefCatsPath(repo)) || (refCatPath in e && e[refCatPath].Dir?)
    ensures IsDir(Bootstrap(e, repo, refCatPath, mapperName).0, RefCatsPath(repo))
  {
    var e' := Bootstrap(e, repo, refCatPath, mapperName).0;
    var m, l := MapperPath(repo), RefCatsPath(repo);
    MapperIsNotRefCats(repo);
    BootstrapOutcome(e, repo, refCatPath, mapperName);
    if !IsDir(e, l) {
      assert refCatPath != m;
      assert e'[refCatPath].Dir?;
    }
  }

  /**
   * When the reference catalogs do not exist, the first call leaves a
   * dangling `ref_cats` link and a second call fails on it.
   */
  lemma BootstrapTwiceDangling(e: Entries, repo: string, refCatPath: string, mapperName: string)
    requires Bootstrap(e, repo, refCatPath, mapperName).1.Ok?
    requires RefCatsPath(repo) !in e
    requires refCatPath !in Bootstrap(e, repo, refCatPath, mapperName).0
    ensures var e' := Bootstrap(e, repo, refCatPath, mapperName).0;
      Bootstrap(e', repo, refCatPath, mapperName).1 == Err(FileExists(RefCatsPath(repo)))
  {
    var e' := Bootstrap(e, repo, refCatPath, mapperName).0;
    MapperIsNotRefCats(repo);
    BootstrapOutcome(e, repo, refCatPath, mapperName);
    var m := MapperPath(repo);
    assert e'[m := File(mapperName + "\n")] == e';
  }
}
