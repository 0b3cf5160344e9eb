/** A cloned repository as the nodes see it through `os.walk` and `glob`:
    one entry per directory, top-down, with the names of the files directly in it. */
module FileTree {
  import opened Text

  /** One directory: its path components below the repository root (`[]` for the
      root itself) and the names of the files it holds. */
  datatype WalkEntry = WalkEntry(dir: seq<string>, files: seq<string>)

  /** The `root` string `os.walk(base)` yields for a directory. */
  function Root(base: string, dir: seq<string>): string
    decreases |dir|
  {
    if dir == [] then base else Root(base + "/" + dir[0], dir[1..])
  }

  /** The path of a file relative to the repository root, '/'-separated. */
  function RelPath(dir: seq<string>, name: string): string {
    Join(dir + [name], "/")
  }

  /** Every file of the tree, by relative path, in walk order. */
  function AllFiles(walk: seq<WalkEntry>): seq<string>
    decreases |walk|
  {
    if walk == [] then []
    else
      var e := walk[0];
      seq(|e.files|, k requires 0 <= k < |e.files| => RelPath(e.dir, e.files[k])) + AllFiles(walk[1..])
  }

  /** A name `glob` skips unless the pattern asks for it: one starting with '.'. */
  predicate Hidden(name: string) {
    name != [] && name[0] == '.'
  }
}
