/** Failure-carrying wrappers shared by every module of the model. */
module Common {

  datatype Option<+T> = None | Some(value: T)

  /** The Python exceptions (and task failures) the pipeline layer can raise. */
  datatype Error =
    | KeyError(key: string)          // a dataId lacks a key the code subscripts
    | NotSubscriptable               // `None['filter']`
    | FormatError                    // a replacement field `.format` rejects
    | IndexError                     // a positional field or sky-map index out of range
    | FileExists(path: string)       // os.mkdir / os.symlink on an existing entry
    | IsADirectory(path: string)     // open(path, 'w') on a directory
    | NotADirectory(path: string)    // open(dir/name, 'w') when dir is not a directory
    | NoSkyMap                       // the butler finds no deepCoadd_skyMap dataset
    | TaskFailed(task: nat)          // `.result()` of a task that did not exit 0

  datatype Result<+T> = Ok(value: T) | Err(error: Error) {
    predicate IsFailure() { Err? }
    function PropagateFailure<U>(): Result<U>
      requires Err?
    {
      Err(error)
    }
    function Extract(): T
      requires Ok?
    {
      value
    }
  }

  /* Sequence facts the solver is slow to find inside larger proofs. */

  lemma ConcatAssoc<T>(a: seq<T>, b: seq<T>, c: seq<T>)
    ensures (a + b) + c == a + (b + c)
  {
  }

  lemma PrefixTrans<T>(a: seq<T>, b: seq<T>, c: seq<T>)
    requires a <= b && b <= c
    ensures a <= c
  {
    assert a == b[..|a|];
  }

  lemma PrefixOfAppend<T>(p: seq<T>, a: seq<T>, b: seq<T>)
    requires p <= a
    ensures p <= a + b
  {
    assert (a + b)[..|p|] == a[..|p|];
  }

  lemma PrefixExtend<T>(a: seq<T>, u: seq<T>, v: seq<T>)
    requires u <= v
    ensures a + u <= a + v
  {
    assert (a + v)[..|a + u|] == a + v[..|u|];
  }

  lemma DropFront<T>(a: seq<T>, b: seq<T>)
    ensures a <= a + b && (a + b)[|a|..] == b
  {
  }
}
