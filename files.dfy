/**
 * The part of the host file system the core touches: existence tests,
 * `stat().isDirectory()`, `readdirSync`, `unlinkSync` and `mkdirSync`.
 * Paths are plain strings; there is no normalisation.
 */
module Files {

  /** A file-system entry: a plain file, or a directory with its entry names in listing order. */
  datatype Node = File | Directory(entries: seq<string>)

  /** `mkdirSync(dir, { recursive: true })` guarded by `existsSync(dir)`. */
  function EnsureDir(nodes: map<string, Node>, dir: string): (r: map<string, Node>)
    ensures dir in r
    ensures forall p :: p != dir ==> (p in r <==> p in nodes)
    ensures forall p :: p in nodes ==> r[p] == nodes[p]
    ensures dir !in nodes ==> r[dir] == Directory([])
  {
    if dir in nodes then nodes else nodes[dir := Directory([])]
  }

  class FileSystem {
    var nodes: map<string, Node>

    constructor (initial: map<string, Node>)
      ensures nodes == initial
    {
      nodes := initial;
    }

    /** `fs.existsSync(p)` */
    predicate Exists(p: string)
      reads this
    {
      p in nodes
    }

    /** `fs.statSync(p).isDirectory()` */
    predicate IsDirectory(p: string)
      reads this
      requires Exists(p)
    {
      nodes[p].Directory?
    }

    /** `fs.readdirSync(p)`: the entry names of a directory. */
    function ReadDir(p: string): seq<string>
      reads this
      requires Exists(p) && IsDirectory(p)
    {
      nodes[p].entries
    }

    /** `fs.unlinkSync(p)`; callers only unlink a path they have just seen exist. */
    method Unlink(p: string)
      requires Exists(p)
      modifies this
      ensures nodes == old(nodes) - {p}
    {
      nodes := nodes - {p};
    }

    /** Create `dir` unless something already exists there. */
    method MakeDirectory(dir: string)
      modifies this
      ensures nodes == EnsureDir(old(nodes), dir)
    {
      if dir !in nodes {
        nodes := nodes[dir := Directory([])];
      }
    }
  }
}
