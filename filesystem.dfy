/**
 * The part of the POSIX file system the configuration code touches, as
 * `pathlib` and `shutil` see it: directories and regular files with their
 * permission bits, keyed by resolved absolute paths (see `Paths.Resolve`).
 * The root directory always exists and is not stored.
 */
module FileSystems {
  import opened Wrappers
  import opened Paths
  import Bytes

  /** Permission bits, `0o7777` at most. */
  type Mode = bv12

  /** `0o777`: what `Path.mkdir()` asks for. */
  const DirectoryMode: Mode := 0x1FF
  /** `0o666`: what `open(..., 'wb')` asks for when it creates a file. */
  const NewFileMode: Mode := 0x1B6

  datatype Entry = Directory(mode: Mode) | RegularFile(content: seq<Bytes.byte>, mode: Mode)

  type Tree = map<seq<string>, Entry>

  /** The `OSError` subclasses these operations raise. */
  datatype OsError = FileExists | FileNotFound | IsADirectory | NotADirectory | SameFile

  /** `mode & ~umask`: the bits a newly created entry actually gets. */
  function Masked(mode: Mode, umask: Mode): Mode { mode & !umask }

  function Up(k: seq<string>): seq<string> { if k == [] then [] else k[..|k| - 1] }

  /** Keys are resolved non-root paths, and every proper ancestor of an entry is a directory. */
  predicate WellFormed(t: Tree)
  {
    forall k :: k in t ==>
      && k != [] && NormalKey(k)
      && (forall j :: 0 < j < |k| ==> k[..j] in t && t[k[..j]].Directory?)
  }

  predicate IsDirectoryAt(t: Tree, k: seq<string>) { k == [] || (k in t && t[k].Directory?) }

  /** `Path.exists()`. */
  predicate ExistsAt(t: Tree, k: seq<string>) { k == [] || k in t }

  /** The error the kernel reports when it walks to `d` expecting a directory, if any. */
  function DirectoryError(t: Tree, d: seq<string>): (r: Option<OsError>)
    ensures r.None? <==> IsDirectoryAt(t, d)
    ensures r.Some? ==> r.value == FileNotFound || r.value == NotADirectory
    decreases |d|
  {
    if d == [] then None
    else if d in t then (if t[d].Directory? then None else Some(NotADirectory))
    else match DirectoryError(t, Up(d))
      case Some(e) => Some(e)
      case None => Some(FileNotFound)
  }

  /** Adding an entry under an existing directory keeps the tree well formed. */
  lemma AddUnderDirectory(t: Tree, k: seq<string>, e: Entry)
    requires WellFormed(t) && k != [] && NormalKey(k) && k !in t && IsDirectoryAt(t, Up(k))
    ensures WellFormed(t[k := e])
  {
    var u := t[k := e];
    forall k', j | k' in u && 0 < j < |k'|
      ensures k'[..j] in u && u[k'[..j]].Directory?
    {
      if k' == k {
        if j < |k| - 1 {
          assert k[..j] == Up(k)[..j];
        } else {
          assert k[..j] == Up(k);
        }
      }
    }
  }

  /** Replacing a regular file by another keeps the tree well formed. */
  lemma ReplaceFile(t: Tree, k: seq<string>, e: Entry)
    requires WellFormed(t) && k in t && t[k].RegularFile? && e.RegularFile?
    ensures WellFormed(t[k := e])
  {
    var u := t[k := e];
    forall k', j | k' in u && 0 < j < |k'|
      ensures k'[..j] in u && u[k'[..j]].Directory?
    {
    }
  }

  /** `Path.mkdir()` with its defaults: no parents, an existing path is an error. */
  function MakeDirAt(t: Tree, k: seq<string>, umask: Mode): (r: Result<Tree, OsError>)
    requires WellFormed(t) && NormalKey(k)
    ensures r.Ok? <==> k != [] && k !in t && IsDirectoryAt(t, Up(k))
    ensures r.Ok? ==> WellFormed(r.value) && r.value == t[k := Directory(Masked(DirectoryMode, umask))]
    ensures r.Err? && ExistsAt(t, k) ==> r.error == FileExists
  {
    if k == [] || k in t then Err(FileExists)
    else match DirectoryError(t, Up(k))
      case Some(e) => Err(e)
      case None =>
        AddUnderDirectory(t, k, Directory(Masked(DirectoryMode, umask)));
        Ok(t[k := Directory(Masked(DirectoryMode, umask))])
  }

  /**
   * `open(path, 'wb')` followed by a write: an existing file keeps its mode and
   * loses its old content, a new one is created with `0o666 & ~umask`.
   */
  function WriteBytesAt(t: Tree, k: seq<string>, data: seq<Bytes.byte>, umask: Mode): (r: Result<Tree, OsError>)
    requires WellFormed(t) && NormalKey(k)
    ensures r.Ok? <==> (k in t && t[k].RegularFile?) || (k != [] && k !in t && IsDirectoryAt(t, Up(k)))
    ensures r.Ok? ==> WellFormed(r.value)
    ensures r.Ok? ==> r.value == t[k := RegularFile(data, if k in t then t[k].mode else Masked(NewFileMode, umask))]
  {
    if k == [] then Err(IsADirectory)
    else if k in t then
      if t[k].Directory? then Err(IsADirectory)
      else
        ReplaceFile(t, k, RegularFile(data, t[k].mode));
        Ok(t[k := RegularFile(data, t[k].mode)])
    else match DirectoryError(t, Up(k))
      case Some(e) => Err(e)
      case None =>
        AddUnderDirectory(t, k, RegularFile(data, Masked(NewFileMode, umask)));
        Ok(t[k := RegularFile(data, Masked(NewFileMode, umask))])
  }

  /**
   * `Path.touch(mode)`: an existing entry only has its times updated (the
   * model keeps no times); otherwise an empty file is created with `mode & ~umask`.
   */
  function TouchAt(t: Tree, k: seq<string>, mode: Mode, umask: Mode): (r: Result<Tree, OsError>)
    requires WellFormed(t) && NormalKey(k)
    ensures ExistsAt(t, k) ==> r == Ok(t)
    ensures r.Ok? <==> ExistsAt(t, k) || IsDirectoryAt(t, Up(k))
    ensures r.Ok? ==> WellFormed(r.value)
    ensures r.Ok? && !ExistsAt(t, k) ==> r.value == t[k := RegularFile([], Masked(mode, umask))]
  {
    if k == [] || k in t then Ok(t)
    else match DirectoryError(t, Up(k))
      case Some(e) => Err(e)
      case None =>
        AddUnderDirectory(t, k, RegularFile([], Masked(mode, umask)));
        Ok(t[k := RegularFile([], Masked(mode, umask))])
  }

  /** `Path.read_bytes()`. */
  function ReadBytesAt(t: Tree, k: seq<string>): (r: Result<seq<Bytes.byte>, OsError>)
    requires WellFormed(t)
    ensures r.Ok? <==> k in t && t[k].RegularFile?
    ensures r.Ok? ==> r.value == t[k].content
  {
    if k == [] then Err(IsADirectory)
    else if k in t then
      match t[k]
      case Directory(_) => Err(IsADirectory)
      case RegularFile(c, _) => Ok(c)
    else match DirectoryError(t, Up(k))
      case Some(e) => Err(e)
      case None => Err(FileNotFound)
  }

  /**
   * `shutil.copyfile(src, dst)`: the same file on both sides is an error,
   * then the source is opened for reading and the destination is written as
   * by `WriteBytesAt`; the permission bits are not copied.
   */
  function CopyFileAt(t: Tree, src: seq<string>, dst: seq<string>, umask: Mode): (r: Result<Tree, OsError>)
    requires WellFormed(t) && NormalKey(dst)
    ensures src == dst && ExistsAt(t, src) ==> r == Err(SameFile)
    ensures r.Ok? ==> src != dst && src in t && t[src].RegularFile?
    ensures r.Ok? ==> r == WriteBytesAt(t, dst, t[src].content, umask)
    ensures src != dst && src in t && t[src].RegularFile? ==> r == WriteBytesAt(t, dst, t[src].content, umask)
  {
    if src == dst && ExistsAt(t, src) then Err(SameFile)
    else match ReadBytesAt(t, src)
      case Err(e) => Err(e)
      case Ok(c) => WriteBytesAt(t, dst, c, umask)
  }

  /**
   * The file system of one process: its tree, its working directory and its
   * umask. The methods are the `pathlib`/`shutil` calls that change the tree.
   */
  class FileSystem {
    var tree: Tree
    const cwd: seq<string>
    const umask: Mode

    ghost predicate Valid()
      reads this
    {
      WellFormed(tree) && NormalKey(cwd)
    }

    constructor (tree0: Tree, cwd: seq<string>, umask: Mode)
      requires WellFormed(tree0) && NormalKey(cwd)
      ensures Valid() && tree == tree0 && this.cwd == cwd && this.umask == umask
    {
      tree := tree0;
      this.cwd := cwd;
      this.umask := umask;
    }

    /** Where the kernel finds `p`, relative paths being taken from `cwd`. */
    function Locate(p: Path): (k: seq<string>)
      requires Parsed(p) && NormalKey(cwd)
      ensures NormalKey(k)
    {
      Resolve(p, cwd)
    }

    predicate Exists(p: Path)
      reads this
      requires Valid() && Parsed(p)
    {
      ExistsAt(tree, Locate(p))
    }

    function ReadBytes(p: Path): Result<seq<Bytes.byte>, OsError>
      reads this
      requires Valid() && Parsed(p)
    {
      ReadBytesAt(tree, Locate(p))
    }

    method MakeDir(p: Path) returns (r: Result<(), OsError>)
      requires Valid() && Parsed(p)
      modifies this
      ensures Valid()
      ensures var s := MakeDirAt(old(tree), Locate(p), umask);
        r.Ok? == s.Ok? && tree == (if s.Ok? then s.value else old(tree))
    {
      var s := MakeDirAt(tree, Locate(p), umask);
      if s.Ok? {
        tree := s.value;
        r := Ok(());
      } else {
        r := Err(s.error);
      }
    }

    method WriteBytes(p: Path, data: seq<Bytes.byte>) returns (r: Result<(), OsError>)
      requires Valid() && Parsed(p)
      modifies this
      ensures Valid()
      ensures var s := WriteBytesAt(old(tree), Locate(p), data, umask);
        r.Ok? == s.Ok? && tree == (if s.Ok? then s.value else old(tree))
    {
      var s := WriteBytesAt(tree, Locate(p), data, umask);
      if s.Ok? {
        tree := s.value;
        r := Ok(());
      } else {
        r := Err(s.error);
      }
    }

    method Touch(p: Path, mode: Mode) returns (r: Result<(), OsError>)
      requires Valid() && Parsed(p)
      modifies this
      ensures Valid()
      ensures var s := TouchAt(old(tree), Locate(p), mode, umask);
        r.Ok? == s.Ok? && tree == (if s.Ok? then s.value else old(tree))
    {
      var s := TouchAt(tree, Locate(p), mode, umask);
      if s.Ok? {
        tree := s.value;
        r := Ok(());
      } else {
        r := Err(s.error);
      }
    }

    method CopyFile(src: Path, dst: Path) returns (r: Result<(), OsError>)
      requires Valid() && Parsed(src) && Parsed(dst)
      modifies this
      ensures Valid()
      ensures var s := CopyFileAt(old(tree), Locate(src), Locate(dst), umask);
        r.Ok? == s.Ok? && tree == (if s.Ok? then s.value else old(tree))
    {
      var s := CopyFileAt(tree, Locate(src), Locate(dst), umask);
      if s.Ok? {
        tree := s.value;
        r := Ok(());
      } else {
        r := Err(s.error);
      }
    }
  }
}
