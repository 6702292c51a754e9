/**
 * What the two harness scripts get from the operating system, as values:
 * the directory tree they list and the analyser process they start.
 */
module Env {
  import opened Wrappers
  import opened Text

  /**
   * Directories by resolved path, each with its entries in `os.listdir`
   * order. A path names a directory exactly when its resolved form is a key.
   */
  type FileSystem = map<string, seq<string>>

  /**
   * Path resolution against the working directory, as far as the scripts
   * need it: leading `./` components name nothing, so `./d` and `d` are the
   * same directory and `.` is the working directory itself.
   */
  function Resolve(p: string): (r: string)
    ensures !StartsWith(r, "./")
    ensures EndsWith(p, r)
    decreases |p|
  {
    if StartsWith(p, "./") then Resolve(p[2..]) else p
  }

  /** `os.path.isdir(p)`. */
  predicate IsDir(fs: FileSystem, p: string) {
    Resolve(p) in fs
  }

  /** `os.listdir(p)`: `None` when it raises because `p` is not a directory. */
  function ListDir(fs: FileSystem, p: string): (r: Option<seq<string>>)
    ensures r.Some? <==> IsDir(fs, p)
  {
    if Resolve(p) in fs then Some(fs[Resolve(p)]) else None
  }

  /** Two trees with the same directories, each listing the same entries, perhaps in another order. */
  ghost predicate SameListings(fs1: FileSystem, fs2: FileSystem) {
    (forall p :: p in fs1 <==> p in fs2) &&
    (forall p :: p in fs1 ==> multiset(fs1[p]) == multiset(fs2[p]))
  }

  /** Text captured from a finished analyser process. */
  datatype Output = Output(stdout: string, stderr: string)

  /**
   * The analyser run through the shell: from the command line to the
   * captured output, or `None` when `subprocess.run(..., check=True)`
   * raises (the command exits non-zero or cannot be started).
   */
  type Tool = string -> Option<Output>
}
