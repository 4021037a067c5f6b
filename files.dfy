/** The part of the filesystem the engine's fixers and project detectors look at.

    A tree is a map from path strings to nodes; `Path(p).exists()` is
    `p in t`. Only what the fixers read or change is kept: whether a node
    is a directory, its permission bits, its text, and whether the current
    user may read it (for `shutil.copy`), write it (create entries in it, for
    a directory) or change its mode (for `os.chmod`). */
module Files {
  import opened Text

  datatype Node = Node(isDir: bool, perm: nat, content: string, readable: bool, writable: bool, owned: bool)

  type Tree = map<string, Node>

  /** A mutable filesystem, for the operations that change it. */
  class FileSystem {
    var entries: Tree

    constructor(entries: Tree)
      ensures this.entries == entries
    {
      this.entries := entries;
    }
  }

  /** `Path(dir) / name`. */
  function Child(dir: string, name: string): string
  {
    dir + "/" + name
  }

  /** The `S_IFREG` and `S_IFDIR` file-type bits of `st_mode`. */
  const RegularFileBits: nat := 0x8000
  const DirectoryBits: nat := 0x4000

  /** Permission bits are the low twelve bits of a mode. */
  const PermissionRange: nat := 0x1000

  predicate ValidNode(n: Node)
  {
    n.perm < PermissionRange
  }

  /** `os.stat(path).st_mode`: the file-type bits plus the permission bits. */
  function StMode(n: Node): (m: nat)
    ensures ValidNode(n) ==> m % PermissionRange == n.perm
  {
    (if n.isDir then DirectoryBits else RegularFileBits) + n.perm
  }

  /** `os.chmod(path, mode)`: only the permission bits of the node change. */
  function Chmod(t: Tree, path: string, mode: nat): (r: Tree)
    requires path in t
    ensures r.Keys == t.Keys
    ensures ValidNode(r[path]) && r[path] == t[path].(perm := mode % PermissionRange)
    ensures forall p :: p in t && p != path ==> r[p] == t[p]
  {
    t[path := t[path].(perm := mode % PermissionRange)]
  }

  /** `shutil.copy` can read the node: a readable regular file. */
  predicate Copyable(n: Node)
  {
    !n.isDir && n.readable
  }

  /** A new entry can be created in `dir`: it exists, is a directory, and
      the current user may write it. */
  predicate CanCreateIn(t: Tree, dir: string)
  {
    dir in t && t[dir].isDir && t[dir].writable
  }

  /** `shutil.copy(src, Path(dir) / name)` succeeds for a destination that
      does not exist yet: the source can be read and `dir` written. */
  predicate CopySucceeds(t: Tree, src: string, dir: string)
  {
    src in t && Copyable(t[src]) && CanCreateIn(t, dir)
  }

  /** `shutil.copy(src, dst)`: the destination receives the source's text and
      permission bits, and belongs to the current user. */
  function CopyFile(t: Tree, src: string, dst: string): (r: Tree)
    requires src in t
    ensures r.Keys == t.Keys + {dst}
    ensures r[dst] == t[src].(owned := true)
    ensures forall p :: p in t && p != dst ==> r[p] == t[p]
  {
    t[dst := t[src].(owned := true)]
  }

  /** The text of the `OSError` raised by a failing `shutil.copy(src, dst)`
      into `dir`: the source is opened first, then the destination. */
  function CopyError(t: Tree, src: string, dir: string, dst: string): (m: string)
    requires src in t
    ensures Copyable(t[src]) && !CanCreateIn(t, dir) ==> EndsWith(m, dst + "'")
  {
    if t[src].isDir then "[Errno 21] Is a directory: '" + src + "'"
    else if !t[src].readable then "[Errno 13] Permission denied: '" + src + "'"
    else if dir !in t then "[Errno 2] No such file or directory: '" + dst + "'"
    else if !t[dir].isDir then "[Errno 20] Not a directory: '" + dst + "'"
    else "[Errno 13] Permission denied: '" + dst + "'"
  }

  /** The text of the `PermissionError` raised by `os.chmod` on a node the
      current user does not own. */
  function ChmodError(path: string): string
  {
    "[Errno 1] Operation not permitted: '" + path + "'"
  }

  /** `Path(path).read_text()`, or `None` where it raises (a missing path, a
      directory, an unreadable file). */
  function ReadText(t: Tree, path: string): (r: Option<string>)
    ensures r.Some? <==> path in t && !t[path].isDir && t[path].readable
  {
    if path in t && !t[path].isDir && t[path].readable then Some(t[path].content) else None
  }

  /** The fields of a parsed `package.json` that the engine reads: the keys
      of `dependencies`, `devDependencies` and `scripts` (a missing field is
      empty, as with `.get(field, {})`) and the `main` entry. */
  datatype PackageJson = PackageJson(
    dependencies: set<string>,
    devDependencies: set<string>,
    scripts: set<string>,
    main: Option<string>)

  /** `json.load`, as an oracle: `None` for malformed text. */
  type JsonParser = string -> Option<PackageJson>

  /** `open(path)` raises something other than `FileNotFoundError`: the path
      exists but is a directory (`IsADirectoryError`) or may not be read
      (`PermissionError`). */
  predicate OpenRaises(t: Tree, path: string)
  {
    path in t && (t[path].isDir || !t[path].readable)
  }

  /** What `_read_json` does: return the document or `None` (it catches
      `FileNotFoundError` and `JSONDecodeError`), or let another error
      through. */
  datatype JsonRead = Loaded(doc: Option<PackageJson>) | ReadRaised

  /** `_read_json`. */
  function ReadJson(t: Tree, path: string, parse: JsonParser): (r: JsonRead)
    ensures r == ReadRaised <==> OpenRaises(t, path)
    ensures path !in t ==> r == Loaded(None)
    ensures r.Loaded? && r.doc.Some? ==>
      path in t && ReadText(t, path) == Some(t[path].content) && parse(t[path].content) == r.doc
  {
    if OpenRaises(t, path) then ReadRaised
    else match ReadText(t, path)
      case Some(text) => Loaded(parse(text))
      case None => Loaded(None)
  }

  /** A name the glob `test_*.py` matches. */
  predicate TestFileName(name: string)
  {
    |name| >= 8 && StartsWith(name, "test_") && EndsWith(name, ".py") && '/' !in name
  }

  /** `p` is `dir/name` for a `name` that `test_*.py` matches. */
  predicate TestFileIn(dir: string, p: string)
  {
    |p| > |dir| && StartsWith(p, dir + "/") && TestFileName(p[|dir| + 1..])
  }

  /** `list(Path(dir).glob("test_*.py"))` is not empty. */
  predicate HasTestFile(t: Tree, dir: string)
  {
    exists p :: p in t && TestFileIn(dir, p)
  }

  lemma TestFileInChild(dir: string, name: string)
    ensures TestFileIn(dir, Child(dir, name)) <==> TestFileName(name)
  {
    assert Child(dir, name)[|dir| + 1..] == name;
  }
}
