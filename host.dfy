/**
 * What the program observes of its host, taken as inputs: which paths
 * exist, what a YAML file parses to, and what exit status a command has.
 */
module Host {
  import opened Yaml

  type Path = string

  /** `dir / name` for a pathlib path: an absolute name replaces the directory. */
  function Join(dir: Path, name: string): Path {
    if |name| > 0 && name[0] == '/' then name else dir + "/" + name
  }

  /** Distinct relative names land on distinct paths under the same directory. */
  lemma JoinInjective(dir: Path, a: string, b: string)
    requires a != b
    requires |a| == 0 || a[0] != '/'
    requires |b| == 0 || b[0] != '/'
    ensures Join(dir, a) != Join(dir, b)
  {
    var p := dir + "/";
    assert Join(dir, a) == p + a && Join(dir, b) == p + b;
    assert (p + a)[|p|..] == a && (p + b)[|p|..] == b;
  }

  /** A process the program starts: an argument vector, or a line for `sh -c` run in `cwd`. */
  datatype Command = Argv(args: seq<string>) | Shell(line: string, cwd: Path)

  /**
   * Exit status of every command. A program that cannot be found reads as a
   * non-zero status, which is how every caller in the core treats it.
   */
  type Runner = Command -> int

  /** A finished process whose output was captured: exit status and standard output. */
  datatype Completed = Completed(status: int, stdout: string)

  /** What running an argument vector with `capture_output=True` yields. */
  type Capture = seq<string> -> Completed

  /** What a YAML file yields to `yaml.safe_load`. */
  datatype Document = Parsed(value: Value) | SyntaxError

  /** The directories that exist, and the regular files with their parsed contents. */
  datatype FileSystem = FileSystem(dirs: set<Path>, docs: map<Path, Document>) {
    predicate Exists(p: Path) {
      p in dirs || p in docs
    }

    /** Every path that exists, directory or file. */
    function Present(): (ps: set<Path>)
      ensures forall p :: p in ps <==> Exists(p)
    {
      dirs + docs.Keys
    }
  }
}
