/** Files and paths as FileChooserFxImpl sees them through java.io.File:
    a path, its parent, its metadata, its canonical form (which may fail with
    an IOException) and the listing of a directory (which may be null). */
module Paths {
  import opened Wrappers

  /** A path as its sequence of name components; the filesystem root is [].
      A canonical path is always absolute. */
  type Path = seq<string>

  /** What File.isDirectory() and File.isHidden() report for a path. */
  datatype FileMeta = FileMeta(isDir: bool, isHidden: bool)

  /** A directory entry: the File and its metadata at the time it was listed. */
  datatype File = File(path: Path, meta: FileMeta)

  /** A snapshot of the filesystem queries the chooser makes.
      A path missing from `meta` does not exist; one missing from `canonical`
      makes getCanonicalFile throw an IOException; a directory missing from
      `contents` makes listFiles return null (unreadable). */
  datatype FileSystem = FileSystem(
    meta: map<Path, FileMeta>,
    canonical: map<Path, Path>,
    contents: map<Path, seq<File>>)

  /** The path `new File(".")` denotes; `canonical` resolves it to the working directory. */
  const WorkingDirectory: Path := ["."]

  /** File.getParentFile: the path without its last component, or null at the root. */
  function Parent(p: Path): (parent: Option<Path>)
    ensures parent.None? <==> p == []
    ensures parent.Some? ==> parent.value + [p[|p| - 1]] == p
  {
    if p == [] then None else Some(p[..|p| - 1])
  }

  /** File.isDirectory: false for a path that does not exist. */
  predicate IsDirectory(fs: FileSystem, p: Path) {
    p in fs.meta && fs.meta[p].isDir
  }

  /** File.getCanonicalFile, with None for the IOException. */
  function Canonical(fs: FileSystem, p: Path): Option<Path> {
    if p in fs.canonical then Some(fs.canonical[p]) else None
  }

  /** pathsEqual (FileChooserFxImpl.java:476-483): compares the two canonical
      paths; a canonicalisation failure on either side is logged and reads as
      "different". */
  function PathsEqual(fs: FileSystem, p1: Path, p2: Path): (equal: bool)
    ensures equal ==> Canonical(fs, p1).Some? && Canonical(fs, p2).Some?
    ensures equal ==> Canonical(fs, p1) == Canonical(fs, p2)
  {
    match (Canonical(fs, p1), Canonical(fs, p2))
    case (Some(c1), Some(c2)) => c1 == c2
    case _ => false
  }

  /** pathsEqual is a partial equivalence: symmetric, transitive, and
      reflexive exactly on the paths that canonicalise. */
  lemma PathsEqualIsPartialEquivalence(fs: FileSystem, a: Path, b: Path, c: Path)
    ensures PathsEqual(fs, a, b) == PathsEqual(fs, b, a)
    ensures PathsEqual(fs, a, b) && PathsEqual(fs, b, c) ==> PathsEqual(fs, a, c)
    ensures PathsEqual(fs, a, a) <==> a in fs.canonical
    ensures Canonical(fs, a).Some? && Canonical(fs, a) == Canonical(fs, b) ==> PathsEqual(fs, a, b)
  {
  }

  /** The ancestor chain of `p`, root first: [p[..0], p[..1], ..., p].
      This is the breadcrumb updateDirBreadCrumbBar builds from a canonical
      directory: the root is outermost, each crumb is the parent of the next,
      and the last (selected) crumb is `p` itself. */
  function Ancestors(p: Path): (chain: seq<Path>)
    ensures |chain| == |p| + 1
    ensures Parent(chain[0]).None? && chain[|p|] == p
    ensures forall i :: 0 <= i < |p| ==> Parent(chain[i + 1]) == Some(chain[i])
  {
    var chain := seq(|p| + 1, i requires 0 <= i <= |p| => p[..i]);
    assert forall i :: 0 <= i < |p| ==> chain[i + 1][..i] == chain[i];
    chain
  }

  /** The chain is determined by its last element: any root-first sequence
      that starts at a root and steps from parent to child ending at `p` is
      Ancestors(p). */
  lemma {:induction false} AncestorsUnique(p: Path, chain: seq<Path>)
    requires chain != [] && Parent(chain[0]).None?
    requires chain[|chain| - 1] == p
    requires forall i :: 0 <= i < |chain| - 1 ==> Parent(chain[i + 1]) == Some(chain[i])
    ensures chain == Ancestors(p)
    decreases |chain|
  {
    if |chain| == 1 {
      assert p == [];
    } else {
      var n := |chain| - 1;
      var q := chain[n - 1];
      assert Parent(p) == Some(q);
      AncestorsUnique(q, chain[..n]);
      assert |p| == |q| + 1;
      var a := Ancestors(p);
      forall i | 0 <= i < |chain| ensures chain[i] == a[i] {
        if i < n {
          assert chain[i] == chain[..n][i] == Ancestors(q)[i] == q[..i];
          assert q == p[..|p| - 1];
        }
      }
    }
  }

  /** Cutting the chain after the crumb at index k leaves the chain of that crumb. */
  lemma AncestorsPrefix(p: Path, k: nat)
    requires k <= |p|
    ensures Ancestors(p)[..k + 1] == Ancestors(p[..k])
  {
    var a := Ancestors(p)[..k + 1];
    var b := Ancestors(p[..k]);
    forall i | 0 <= i <= k ensures a[i] == b[i] {
      assert p[..k][..i] == p[..i];
    }
  }

  /** The breadcrumb of the directory /a/b/c is /, /a, /a/b, /a/b/c. */
  lemma AncestorsExample()
    ensures Ancestors(["a", "b", "c"]) == [[], ["a"], ["a", "b"], ["a", "b", "c"]]
  {
    var p: Path := ["a", "b", "c"];
    assert p[..0] == [] && p[..1] == ["a"] && p[..2] == ["a", "b"] && p[..3] == p;
  }
}
