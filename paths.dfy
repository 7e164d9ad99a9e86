/**
 * `pathlib.Path` on POSIX, lexically: a path is a flag for a leading `/` and
 * its list of segments. Parsing drops empty and `.` segments as pathlib does;
 * `..` is kept until `resolve()`, which here removes it lexically (the model
 * has no symbolic links).
 */
module Paths {
  import opened Text

  datatype Path = Path(absolute: bool, parts: seq<string>)

  /** A segment pathlib keeps when it parses a string: not empty, not `.`, no `/`. */
  predicate IsSegment(x: string) { x != "" && x != "." && '/' !in x }

  /** A segment that names an entry (what is left after `resolve()`). */
  predicate IsName(x: string) { IsSegment(x) && x != ".." }

  predicate Parsed(p: Path) { forall i :: 0 <= i < |p.parts| ==> IsSegment(p.parts[i]) }

  /** The segments of an absolute path after `resolve()`: names only. */
  predicate NormalKey(k: seq<string>) { forall i :: 0 <= i < |k| ==> IsName(k[i]) }

  function KeepSegments(xs: seq<string>): (r: seq<string>)
    requires forall i :: 0 <= i < |xs| ==> '/' !in xs[i]
    ensures forall i :: 0 <= i < |r| ==> IsSegment(r[i])
  {
    if xs == [] then []
    else if xs[0] == "" || xs[0] == "." then KeepSegments(xs[1..])
    else [xs[0]] + KeepSegments(xs[1..])
  }

  /** `Path(s)`: absolute exactly when `s` starts with `/`. */
  function FromString(s: string): (p: Path)
    ensures Parsed(p)
    ensures p.absolute <==> (|s| > 0 && s[0] == '/')
  {
    Path(|s| > 0 && s[0] == '/', KeepSegments(Split(s, '/')))
  }

  /** `str(p)`: `/` for the root, `.` for the empty relative path. */
  function Render(p: Path): string
  {
    if p.absolute then "/" + Join('/', p.parts)
    else if p.parts == [] then "."
    else Join('/', p.parts)
  }

  /** `p.expanduser()` for the `~` form: a leading `~` segment becomes the home directory. */
  function ExpandUser(p: Path, home: string): (r: Path)
    ensures Parsed(p) ==> Parsed(r)
    ensures p.absolute ==> r == p
    ensures (p.parts == [] || p.parts[0] != "~") ==> r == p
    ensures !p.absolute && |p.parts| > 0 && p.parts[0] == "~" ==>
      r == Path(FromString(home).absolute, FromString(home).parts + p.parts[1..])
  {
    if !p.absolute && |p.parts| > 0 && p.parts[0] == "~" then
      var h := FromString(home);
      Path(h.absolute, h.parts + p.parts[1..])
    else p
  }

  /** `p.parent`: the last segment removed; the root and `.` are their own parents. */
  function Parent(p: Path): (r: Path)
    ensures r.absolute == p.absolute
    ensures |p.parts| > 0 ==> |r.parts| + 1 == |p.parts| && r.parts == p.parts[..|r.parts|]
    ensures p.parts == [] ==> r == p
  {
    if p.parts == [] then p else Path(p.absolute, p.parts[..|p.parts| - 1])
  }

  /** `base / rel`: an absolute right-hand side replaces the base. */
  function JoinPath(base: Path, rel: Path): (r: Path)
    ensures Parsed(base) && Parsed(rel) ==> Parsed(r)
    ensures rel.absolute ==> r == rel
    ensures !rel.absolute ==> r.absolute == base.absolute && |r.parts| >= |base.parts|
    ensures !rel.absolute ==> r.parts[..|base.parts|] == base.parts && r.parts[|base.parts|..] == rel.parts
  {
    if rel.absolute then rel else Path(base.absolute, base.parts + rel.parts)
  }

  /** Applies the segments to a directory, `..` going up one level (never above the root). */
  function Normalize(base: seq<string>, parts: seq<string>): (k: seq<string>)
    requires NormalKey(base)
    requires forall i :: 0 <= i < |parts| ==> IsSegment(parts[i])
    ensures NormalKey(k)
    decreases |parts|
  {
    if parts == [] then base
    else if parts[0] == ".." then Normalize(if base == [] then [] else base[..|base| - 1], parts[1..])
    else Normalize(base + [parts[0]], parts[1..])
  }

  /**
   * `p.resolve()`: a relative path is first taken from the working directory
   * `cwd`; the result is an absolute path given by its names.
   */
  function Resolve(p: Path, cwd: seq<string>): (k: seq<string>)
    requires Parsed(p) && NormalKey(cwd)
    ensures NormalKey(k)
  {
    Normalize(if p.absolute then [] else cwd, p.parts)
  }

  lemma {:induction false} NormalizeNames(base: seq<string>, parts: seq<string>)
    requires NormalKey(base) && NormalKey(parts)
    ensures Normalize(base, parts) == base + parts
    decreases |parts|
  {
    if parts != [] {
      NormalizeNames(base + [parts[0]], parts[1..]);
      assert base + [parts[0]] + parts[1..] == base + parts;
    }
  }

  /** An absolute path that is already resolved resolves to itself, whatever the working directory. */
  lemma ResolveNormal(k: seq<string>, cwd: seq<string>)
    requires NormalKey(k) && NormalKey(cwd)
    ensures Resolve(Path(true, k), cwd) == k
  {
    NormalizeNames([], k);
  }

  /** `resolve()` is idempotent. */
  lemma ResolveIdempotent(p: Path, cwd: seq<string>)
    requires Parsed(p) && NormalKey(cwd)
    ensures Resolve(Path(true, Resolve(p, cwd)), cwd) == Resolve(p, cwd)
  {
    ResolveNormal(Resolve(p, cwd), cwd);
  }

  /** A relative path without `..` resolves to the working directory followed by its segments. */
  lemma ResolveRelative(p: Path, cwd: seq<string>)
    requires !p.absolute && NormalKey(p.parts) && NormalKey(cwd)
    ensures Resolve(p, cwd) == cwd + p.parts
  {
    NormalizeNames(cwd, p.parts);
  }

  lemma {:induction false} NormalizeSnoc(base: seq<string>, parts: seq<string>, name: string)
    requires NormalKey(base) && IsName(name)
    requires forall i :: 0 <= i < |parts| ==> IsSegment(parts[i])
    ensures Normalize(base, parts + [name]) == Normalize(base, parts) + [name]
    decreases |parts|
  {
    if parts == [] {
      assert Normalize(base + [name], []) == base + [name];
    } else {
      assert (parts + [name])[1..] == parts[1..] + [name];
      if parts[0] == ".." {
        NormalizeSnoc(if base == [] then [] else base[..|base| - 1], parts[1..], name);
      } else {
        NormalizeSnoc(base + [parts[0]], parts[1..], name);
      }
    }
  }

  lemma {:induction false} NormalizeSnocUp(base: seq<string>, parts: seq<string>)
    requires NormalKey(base)
    requires forall i :: 0 <= i < |parts| ==> IsSegment(parts[i])
    ensures var k := Normalize(base, parts);
      Normalize(base, parts + [".."]) == if k == [] then [] else k[..|k| - 1]
    decreases |parts|
  {
    if parts == [] {
      assert Normalize(base, [".."]) == Normalize(if base == [] then [] else base[..|base| - 1], []);
    } else {
      assert (parts + [".."])[1..] == parts[1..] + [".."];
      if parts[0] == ".." {
        NormalizeSnocUp(if base == [] then [] else base[..|base| - 1], parts[1..]);
      } else {
        NormalizeSnocUp(base + [parts[0]], parts[1..]);
      }
    }
  }

  /** A trailing `..` takes the resolved path one level up, and the root stays where it is. */
  lemma ResolveUp(p: Path, cwd: seq<string>)
    requires Parsed(p) && NormalKey(cwd)
    ensures Parsed(Path(p.absolute, p.parts + [".."]))
    ensures var k := Resolve(p, cwd);
      Resolve(Path(p.absolute, p.parts + [".."]), cwd) == if k == [] then [] else k[..|k| - 1]
  {
    NormalizeSnocUp(if p.absolute then [] else cwd, p.parts);
  }

  /** Resolving `p / name` for a plain name resolves `p` and appends the name. */
  lemma ResolveChild(p: Path, name: string, cwd: seq<string>)
    requires Parsed(p) && NormalKey(cwd) && IsName(name)
    ensures Parsed(Path(p.absolute, p.parts + [name]))
    ensures Resolve(Path(p.absolute, p.parts + [name]), cwd) == Resolve(p, cwd) + [name]
  {
    NormalizeSnoc(if p.absolute then [] else cwd, p.parts, name);
  }

  /** Expanding `~` commutes with appending a segment, once there is a segment to expand. */
  lemma ExpandUserChild(p: Path, name: string, home: string)
    requires p.parts != []
    ensures ExpandUser(Path(p.absolute, p.parts + [name]), home)
            == Path(ExpandUser(p, home).absolute, ExpandUser(p, home).parts + [name])
  {
    assert (p.parts + [name])[0] == p.parts[0];
    assert (p.parts + [name])[1..] == p.parts[1..] + [name];
  }

  /** A string holding one plain name parses to a relative path of that one segment. */
  lemma NameAsPath(name: string)
    requires IsName(name)
    ensures FromString(name) == Path(false, [name])
  {
    SplitWithout(name, '/');
    assert KeepSegments([name]) == [name];
  }

  lemma {:induction false} KeepAllSegments(xs: seq<string>)
    requires forall i :: 0 <= i < |xs| ==> IsSegment(xs[i])
    ensures forall i :: 0 <= i < |xs| ==> '/' !in xs[i]
    ensures KeepSegments(xs) == xs
  {
    if xs != [] {
      KeepAllSegments(xs[1..]);
      assert xs == [xs[0]] + xs[1..];
    }
  }

  /** Parsing what `str()` prints gives the same path back. */
  lemma RenderParse(p: Path)
    requires Parsed(p)
    ensures FromString(Render(p)) == p
  {
    if p.parts == [] {
      if p.absolute {
        SplitAt("", "", '/');
        assert Render(p) == "" + ['/'] + "";
        assert Split("", '/') == [""];
        assert KeepSegments([""]) == [];
      } else {
        SplitWithout(".", '/');
        assert KeepSegments(["."]) == [];
      }
    } else {
      RenderParseParts(p);
    }
  }

  lemma RenderParseParts(p: Path)
    requires Parsed(p) && p.parts != []
    ensures FromString(Render(p)) == p
  {
    var j := Join('/', p.parts);
    SplitJoin('/', p.parts);
    KeepAllSegments(p.parts);
    JoinHead(p.parts);
    if p.absolute {
      SplitAt("", j, '/');
      assert "" + ['/'] + j == Render(p);
      assert KeepSegments([""] + p.parts) == KeepSegments(p.parts);
    }
  }

  lemma JoinHead(parts: seq<string>)
    requires |parts| > 0 && |parts[0]| > 0
    ensures |Join('/', parts)| > 0 && Join('/', parts)[0] == parts[0][0]
  {
  }
}
