/**
 * POSIX paths as sequences of components below the root, with the lexical
 * part of pathlib's Path(...).resolve(): relative paths are taken from the
 * working directory, empty and "." components are dropped and ".." removes
 * the previous component (staying at the root).
 */
module Paths {

  /** An absolute path: its components below "/". */
  type Path = seq<string>

  /** A component that can appear in a resolved path. */
  predicate IsName(c: string) {
    c != "" && c != "." && c != ".." && '/' !in c
  }

  predicate Normal(p: Path) {
    forall k :: 0 <= k < |p| ==> IsName(p[k])
  }

  predicate NoSlashes(segments: seq<string>) {
    forall k :: 0 <= k < |segments| ==> '/' !in segments[k]
  }

  /** Python's s.split('/'): the pieces between slashes, empty ones included. */
  function Split(s: string): (segments: seq<string>)
    ensures |segments| >= 1 && NoSlashes(segments)
    decreases |s|
  {
    if s == [] then [[]]
    else if s[0] == '/' then [[]] + Split(s[1..])
    else
      var rest := Split(s[1..]);
      [[s[0]] + rest[0]] + rest[1..]
  }

  lemma {:induction false} SplitWithoutSlash(a: string)
    requires '/' !in a
    ensures Split(a) == [a]
    decreases |a|
  {
    if a != [] {
      assert a[0] != '/' && '/' !in a[1..] by {
        assert a[0] in a;
        forall c | c in a[1..] ensures c in a { }
      }
      SplitWithoutSlash(a[1..]);
      assert [a[0]] + a[1..] == a;
    }
  }

  /** Splitting at the first slash: a leading slash-free piece comes off whole. */
  lemma {:induction false} SplitAtSlash(a: string, b: string)
    requires '/' !in a
    ensures Split(a + "/" + b) == [a] + Split(b)
    decreases |a|
  {
    if a == [] {
      assert a + "/" + b == "/" + b;
      assert ("/" + b)[1..] == b;
    } else {
      assert (a + "/" + b)[1..] == a[1..] + "/" + b;
      SplitAtSlash(a[1..], b);
      assert [a[0]] + a[1..] == a;
    }
  }

  predicate IsAbsolute(s: string) {
    |s| > 0 && s[0] == '/'
  }

  /** Applies the segments in order to base: "" and "." stay, ".." goes up, a name goes down. */
  function Walk(base: Path, segments: seq<string>): (p: Path)
    ensures Normal(base) && NoSlashes(segments) ==> Normal(p)
    decreases |segments|
  {
    if segments == [] then base
    else
      var seg := segments[0];
      var next :=
        if seg == "" || seg == "." then base
        else if seg == ".." then (if base == [] then base else base[..|base| - 1])
        else base + [seg];
      Walk(next, segments[1..])
  }

  /** Lexical Path(s).resolve() with working directory cwd. */
  function Resolve(cwd: Path, s: string): (p: Path)
    ensures Normal(cwd) ==> Normal(p)
  {
    Walk(if IsAbsolute(s) then [] else cwd, Split(s))
  }

  /** A relative path made of plain names resolves below the working directory. */
  lemma {:induction false} WalkNames(base: Path, names: seq<string>)
    requires Normal(names)
    ensures Walk(base, names) == base + names
    decreases |names|
  {
    if names != [] {
      WalkNames(base + [names[0]], names[1..]);
      assert base + [names[0]] + names[1..] == base + names;
    }
  }

  /** pathlib's p.parents: every strict ancestor of p, the root included. */
  function Parents(p: Path): (r: set<Path>)
    ensures p !in r && (p != [] ==> [] in r)
    ensures forall q :: q in r ==> |q| < |p| && q == p[..|q|]
  {
    var r := set k | 0 <= k < |p| :: p[..k];
    assert p != [] ==> p[..0] in r;
    r
  }

  predicate IsPrefix(a: Path, b: Path) {
    |a| <= |b| && b[..|a|] == a
  }

  /** The containment test of delete_file: dir is an ancestor of p, or p itself. */
  predicate Contained(dir: Path, p: Path)
    ensures Contained(dir, p) ==> |dir| <= |p|
  {
    dir in Parents(p) || p == dir
  }

  /** Being in Parents or equal is exactly being a prefix; in Parents is being a strict one. */
  lemma ContainedIffPrefix(dir: Path, p: Path)
    ensures dir in Parents(p) <==> IsPrefix(dir, p) && |dir| < |p|
    ensures Contained(dir, p) <==> IsPrefix(dir, p)
  {
    if IsPrefix(dir, p) && |dir| < |p| {
      assert dir == p[..|dir|];
    }
  }

  /** The last component, as pathlib's .name ("" for the root). */
  function Name(p: Path): string {
    if p == [] then "" else p[|p| - 1]
  }

  /** posixpath.join of two pieces. */
  function Join(a: string, b: string): (r: string)
    ensures !IsAbsolute(b) && a != [] && a[|a| - 1] != '/' ==> r == a + "/" + b
    ensures IsAbsolute(b) ==> r == b
  {
    if IsAbsolute(b) then b
    else if a == [] || a[|a| - 1] == '/' then a + b
    else a + "/" + b
  }
}
