/**
 * An abstract file system: a map from paths to directories, files and
 * symbolic links, with the handful of `os` calls the pipeline makes.
 * Parent directories are not tracked, and a link is followed one level.
 */
module FileSystems {
  import opened Common

  datatype Node = Dir | File(contents: string) | Symlink(target: string)

  type Entries = map<string, Node>

  /** `os.path.join(a, b)`. */
  function PathJoin(a: string, b: string): (r: string)
    ensures |b| > 0 ==> |r| > 0 && r[|r| - 1] == b[|b| - 1]
  {
    if |b| > 0 && b[0] == '/' then b
    else if a == "" || a[|a| - 1] == '/' then a + b
    else a + "/" + b
  }

  /** `os.path.isdir(p)`: a directory, or a link to one. */
  predicate IsDir(e: Entries, p: string) {
    p in e && (e[p].Dir? || (e[p].Symlink? && e[p].target in e && e[e[p].target].Dir?))
  }

  /** `os.mkdir(p)`. */
  function MakeDir(e: Entries, p: string): Result<Entries> {
    if p in e then Err(FileExists(p)) else Ok(e[p := Dir])
  }

  /** `os.symlink(target, link)`: fails on any existing entry, even a dangling link. */
  function MakeLink(e: Entries, target: string, link: string): Result<Entries> {
    if link in e then Err(FileExists(link)) else Ok(e[link := Symlink(target)])
  }

  /** `open(os.path.join(dir, name), 'w').write(text)`, with `p` the joined path. */
  function WriteText(e: Entries, dir: string, p: string, text: string): Result<Entries> {
    if !IsDir(e, dir) then Err(NotADirectory(dir))
    else if IsDir(e, p) then Err(IsADirectory(p))
    else Ok(e[p := File(text)])
  }

  /** The file system the pipeline's bootstrap and log routing act on. */
  class FileSystem {
    var entries: Entries

    constructor (init: Entries)
      ensures entries == init
    {
      entries := init;
    }

    predicate IsDirectory(p: string)
      reads this
    {
      IsDir(entries, p)
    }

    method Mkdir(p: string) returns (r: Result<()>)
      modifies this
      ensures MakeDir(old(entries), p).Ok? ==> r == Ok(()) && entries == MakeDir(old(entries), p).value
      ensures MakeDir(old(entries), p).Err? ==> r == Err(MakeDir(old(entries), p).error) && entries == old(entries)
    {
      match MakeDir(entries, p)
      case Ok(e) => entries := e; r := Ok(());
      case Err(x) => r := Err(x);
    }

    method Link(target: string, link: string) returns (r: Result<()>)
      modifies this
      ensures MakeLink(old(entries), target, link).Ok? ==> r == Ok(()) && entries == MakeLink(old(entries), target, link).value
      ensures MakeLink(old(entries), target, link).Err? ==> r == Err(MakeLink(old(entries), target, link).error) && entries == old(entries)
    {
      match MakeLink(entries, target, link)
      case Ok(e) => entries := e; r := Ok(());
      case Err(x) => r := Err(x);
    }

    method Write(dir: string, p: string, text: string) returns (r: Result<()>)
      modifies this
      ensures WriteText(old(entries), dir, p, text).Ok? ==> r == Ok(()) && entries == WriteText(old(entries), dir, p, text).value
      ensures WriteText(old(entries), dir, p, text).Err? ==> r == Err(WriteText(old(entries), dir, p, text).error) && entries == old(entries)
    {
      match WriteText(entries, dir, p, text)
      case Ok(e) => entries := e; r := Ok(());
      case Err(x) => r := Err(x);
    }
  }
}
