/**
 * The ENDIT directories as the provider sees them: a map from path to
 * entry.  The provider only ever asks whether a path exists, whether it is
 * a regular file, how large it is and what lines it holds; it writes,
 * deletes and atomically renames whole files.
 */
module Files {
  import opened Wrappers

  /** A hierarchical path; `Child(dir, name)` is `dir.resolve(name)`. */
  datatype Path = Root | Child(parent: Path, name: string)

  /** The fields of the JSON request record that asks the daemon to recall a file. */
  datatype RecallRequest = RecallRequest(
    fileSize: nat,
    parentPid: int,
    time: int,
    storageClass: string,
    action: string,
    path: Option<string>)

  /** What a regular file holds, as far as the provider interprets it. */
  datatype Content =
    | Data                          // bytes the provider never reads
    | Lines(lines: seq<string>)     // readable UTF-8 text, one line per element
    | Recall(request: RecallRequest)

  datatype Entry = Directory | Regular(size: nat, content: Content)

  type FileMap = map<Path, Entry>

  /** `Files.isRegularFile`. */
  predicate IsRegularFile(fs: FileMap, p: Path) {
    p in fs && fs[p].Regular?
  }

  /** `Files.readAllLines`: None when the path is missing, a directory or not readable text. */
  function ReadAllLines(fs: FileMap, p: Path): Option<seq<string>> {
    if p in fs && fs[p].Regular? && fs[p].content.Lines? then Some(fs[p].content.lines) else None
  }

  /** `Files.move(source, target, ATOMIC_MOVE)`: a rename that replaces the target. */
  function Moved(fs: FileMap, source: Path, target: Path): (r: FileMap)
    requires source in fs
    ensures target in r && r[target] == fs[source]
    ensures source != target ==> source !in r
    ensures forall q :: q != source && q != target ==> (q in r <==> q in fs)
    ensures forall q :: q in r && q != target ==> r[q] == fs[q]
    ensures source == target ==> r == fs
  {
    (fs - {source})[target := fs[source]]
  }

  /** The file system the provider and the daemon share. */
  class FileSystem {
    var entries: FileMap

    constructor (initial: FileMap)
      ensures entries == initial
    {
      entries := initial;
    }

    /** `Files.deleteIfExists`. */
    method DeleteIfExists(p: Path) returns (deleted: bool)
      modifies this
      ensures deleted == (p in old(entries))
      ensures entries == old(entries) - {p}
    {
      deleted := p in entries;
      entries := entries - {p};
    }

    /** `FileUtils.write`: creates or replaces a regular file. */
    method Write(p: Path, e: Entry)
      modifies this
      ensures entries == old(entries)[p := e]
    {
      entries := entries[p := e];
    }

    /** `Files.move` with `ATOMIC_MOVE`. */
    method AtomicMove(source: Path, target: Path)
      requires source in entries
      modifies this
      ensures entries == Moved(old(entries), source, target)
    {
      entries := Moved(entries, source, target);
    }
  }
}
