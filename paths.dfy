/** The part of Python's `pathlib.PurePosixPath` the static-file code relies on:
    parsing a string into a root and components, the `/` operator, and the lexical
    `is_relative_to`; and the filesystem the static-file code queries, as an abstract
    value keyed by the lexical path (symbolic links and ".." are not resolved). */
module Paths {
  /** A parsed path: its root ("", "/" or the POSIX-reserved "//") and its
      components, none of them empty, "." or containing '/'. */
  datatype Path = Path(root: string, parts: seq<string>)

  predicate WellFormed(p: Path) {
    && p.root in {"", "/", "//"}
    && forall i :: 0 <= i < |p.parts| ==> p.parts[i] != "" && p.parts[i] != "." && '/' !in p.parts[i]
  }

  /** The root of a path string: exactly two leading slashes are kept as "//", one or
      three and more collapse to "/". */
  function RootOf(s: string): (r: string)
    ensures r in {"", "/", "//"}
    ensures r == "" <==> (|s| == 0 || s[0] != '/')
  {
    if |s| >= 2 && s[0] == '/' && s[1] == '/' && !(|s| >= 3 && s[2] == '/') then "//"
    else if |s| >= 1 && s[0] == '/' then "/"
    else ""
  }

  /** The pieces of `s` between slashes, in order (empty pieces included). */
  function Segments(s: string): (r: seq<string>)
    ensures |r| >= 1
    ensures forall i :: 0 <= i < |r| ==> '/' !in r[i]
  {
    if s == "" then [""]
    else
      var rest := Segments(s[1..]);
      if s[0] == '/' then [""] + rest else [[s[0]] + rest[0]] + rest[1..]
  }

  /** The segments that name something: "" and "." are dropped, ".." is kept. */
  function Named(segs: seq<string>): (r: seq<string>)
    ensures forall i :: 0 <= i < |r| ==> r[i] != "" && r[i] != "." && r[i] in segs
  {
    if segs == [] then []
    else if segs[0] == "" || segs[0] == "." then Named(segs[1..])
    else [segs[0]] + Named(segs[1..])
  }

  /** A string without '/' is one segment. */
  lemma {:induction false} SegmentsOfName(a: string)
    requires '/' !in a
    ensures Segments(a) == [a]
  {
    if a != "" {
      SegmentsOfName(a[1..]);
      assert [a[0]] + a[1..] == a;
    }
  }

  /** A '/' after a slash-free prefix ends exactly one segment. */
  lemma {:induction false} SegmentsSplit(a: string, b: string)
    requires '/' !in a
    ensures Segments(a + "/" + b) == [a] + Segments(b)
  {
    if a == "" {
      assert a + "/" + b == "/" + b;
      assert ("/" + b)[1..] == b;
    } else {
      SegmentsSplit(a[1..], b);
      assert (a + "/" + b)[1..] == a[1..] + "/" + b;
      assert [a[0]] + a[1..] == a;
    }
  }

  /** Two plain names separated by one slash parse to those two components. */
  lemma TwoNames(a: string, b: string)
    requires '/' !in a && '/' !in b
    requires a != "" && a != "." && b != "" && b != "."
    ensures Parse(a + "/" + b) == Path("", [a, b])
  {
    SegmentsSplit(a, b);
    SegmentsOfName(b);
    assert Named([a, b]) == [a] + Named([b]);
    assert Named([b]) == [b] + Named([]);
  }

  /** `PurePosixPath(s)`. */
  function Parse(s: string): (r: Path)
    ensures WellFormed(r)
    ensures r.root == RootOf(s)
  {
    var segs := Segments(s);
    var parts := Named(segs);
    assert forall i :: 0 <= i < |parts| ==> '/' !in parts[i] by {
      forall i | 0 <= i < |parts| ensures '/' !in parts[i] {
        var j :| 0 <= j < |segs| && segs[j] == parts[i];
      }
    }
    Path(RootOf(s), parts)
  }

  /** An absolute string, i.e. one that starts with '/'. */
  predicate IsAbsolute(s: string) {
    |s| > 0 && s[0] == '/'
  }

  /** `base / s`: a relative `s` extends `base`; an absolute one replaces it. */
  function Join(base: Path, s: string): (r: Path)
    ensures WellFormed(base) ==> WellFormed(r)
    ensures IsAbsolute(s) ==> r == Parse(s)
    ensures !IsAbsolute(s) ==> r == Path(base.root, base.parts + Parse(s).parts)
  {
    var p := Parse(s);
    if p.root != "" then p else Path(base.root, base.parts + p.parts)
  }

  /** `a.is_relative_to(b)`: `b` is `a` itself or one of `a.parents`. */
  predicate IsRelativeTo(a: Path, b: Path)
    ensures IsRelativeTo(a, b) ==> a.root == b.root && b.parts <= a.parts
  {
    exists i :: 0 <= i <= |a.parts| && b == Path(a.root, a.parts[..i])
  }

  /** The lexical reading of `is_relative_to`: same root, and `b`'s components are a
      prefix of `a`'s. No ".." is resolved. */
  lemma RelativeIffPrefix(a: Path, b: Path)
    ensures IsRelativeTo(a, b) <==> a.root == b.root && b.parts <= a.parts
  {
    if a.root == b.root && b.parts <= a.parts {
      assert b == Path(a.root, a.parts[..|b.parts|]);
    }
  }

  /** Joining a relative string never leaves `base`, whatever it contains: "../x"
      included. */
  lemma {:induction false} RelativeJoinStaysInside(base: Path, s: string)
    requires !IsAbsolute(s)
    ensures IsRelativeTo(Join(base, s), base)
  {
    var j := Join(base, s);
    assert j.parts[..|base.parts|] == base.parts;
    assert base == Path(j.root, j.parts[..|base.parts|]);
  }

  /** An absolute string escapes a base whose root differs from its own. */
  lemma AbsoluteJoinLeavesOtherRoots(base: Path, s: string)
    requires IsAbsolute(s) && base.root != RootOf(s)
    ensures !IsRelativeTo(Join(base, s), base)
  {
    RelativeIffPrefix(Join(base, s), base);
  }

  /** The last component, `p.name` ("" for a root or the empty path). */
  function Name(p: Path): (r: string)
    ensures WellFormed(p) ==> (r == "" <==> p.parts == []) && '/' !in r
  {
    if p.parts == [] then "" else p.parts[|p.parts| - 1]
  }

  /** The name of `base / n`, for one plain component `n`, is `n` itself. */
  lemma {:induction false} NameOfJoinedName(base: Path, n: string)
    requires n != "" && n != "." && '/' !in n
    ensures Name(Join(base, n)) == n
  {
    SegmentsOfName(n);
    assert Named([n]) == [n] + Named([]);
    assert Parse(n).parts == [n];
  }

  /** The files (with their bytes) and directories that exist. */
  datatype Fs = Fs(files: map<Path, seq<bv8>>, dirs: set<Path>)

  predicate Exists(fs: Fs, p: Path) {
    p in fs.files || p in fs.dirs
  }
}
