/** Paths as their segments, and which directories overlap. */
module WorkspacePaths {
  /** An absolute, resolved and case-normalised path: a root and the segments below it. */
  datatype Path = Path(root: string, segments: seq<string>)

  const UP := ".."

  ghost predicate Resolved(path: Path) { UP !in path.segments }

  function CommonPrefix(a: seq<string>, b: seq<string>): (n: nat)
    ensures n <= |a| && n <= |b| && a[..n] == b[..n]
    ensures n < |a| && n < |b| ==> a[n] != b[n]
  {
    if a == [] || b == [] || a[0] != b[0] then 0 else
      var n := CommonPrefix(a[1..], b[1..]);
      assert a[..n + 1] == [a[0]] + a[1..][..n] && b[..n + 1] == [b[0]] + b[1..][..n];
      n + 1
  }

  /** The way from one path to another; across roots it is absolute. */
  datatype Suffix = Absolute | Relative(segments: seq<string>)

  function RelativePath(from: Path, to: Path): Suffix {
    if from.root != to.root then Absolute
    else
      var n := CommonPrefix(from.segments, to.segments);
      Relative(seq(|from.segments| - n, _ => UP) + to.segments[n..])
  }

  /** The path text is neither `..` nor starts with `../`, and it is relative. */
  predicate ContainsPath(parent: Path, child: Path) {
    var suffix := RelativePath(parent, child);
    suffix.Relative? && (suffix.segments == [] || suffix.segments[0] != UP)
  }

  predicate DirectoriesOverlap(left: Path, right: Path) { ContainsPath(left, right) || ContainsPath(right, left) }

  /** Containment of resolved paths is the prefix order of their segments. */
  lemma ContainsIsPrefix(parent: Path, child: Path)
    requires Resolved(child)
    ensures ContainsPath(parent, child) <==> parent.root == child.root && parent.segments <= child.segments
  {
    if parent.root == child.root {
      var n := CommonPrefix(parent.segments, child.segments);
      if parent.segments <= child.segments {
        assert parent.segments == child.segments[..|parent.segments|];
        assert n == |parent.segments|;
      }
    }
  }

  /** Two directories overlap exactly when some path lies in both. */
  lemma OverlapIsSharedPath(left: Path, right: Path)
    requires Resolved(left) && Resolved(right)
    ensures DirectoriesOverlap(left, right) <==>
      exists path :: Resolved(path) && ContainsPath(left, path) && ContainsPath(right, path)
  {
    hide ContainsPath;
    ContainsIsPrefix(left, left);
    ContainsIsPrefix(right, right);
    if DirectoriesOverlap(left, right) {
      var path := if ContainsPath(left, right) then right else left;
      assert ContainsPath(left, path) && ContainsPath(right, path);
    }
    forall path | Resolved(path) && ContainsPath(left, path) && ContainsPath(right, path)
      ensures DirectoriesOverlap(left, right)
    {
      SharedPathOverlaps(left, right, path);
    }
  }

  lemma SharedPathOverlaps(left: Path, right: Path, path: Path)
    requires Resolved(left) && Resolved(right) && Resolved(path)
    requires ContainsPath(left, path) && ContainsPath(right, path)
    ensures DirectoriesOverlap(left, right)
  {
    hide ContainsPath;
    ContainsIsPrefix(left, path);
    ContainsIsPrefix(right, path);
    ContainsIsPrefix(left, right);
    ContainsIsPrefix(right, left);
    var l, r := left.segments, right.segments;
    assert l == path.segments[..|l|] && r == path.segments[..|r|];
    if |l| <= |r| {
      assert l == r[..|l|];
    } else {
      assert r == l[..|r|];
    }
  }

  /** The planned directories of different workspaces do not overlap. */
  lemma PlannedDirectoriesDisjoint(root: Path, id: string, other: string)
    requires Resolved(root) && id != other && id != UP && other != UP
    ensures !DirectoriesOverlap(root.(segments := root.segments + [id]), root.(segments := root.segments + [other]))
  {
    var a, b := root.(segments := root.segments + [id]), root.(segments := root.segments + [other]);
    ContainsIsPrefix(a, b);
    ContainsIsPrefix(b, a);
    assert a.segments[|root.segments|] == id && b.segments[|root.segments|] == other;
  }
}
