/** The part of Node's `path` module (POSIX flavour) that the scripts' results depend on. */
module NodePath {

  predicate NoSlash(s: string) {
    forall k :: 0 <= k < |s| ==> s[k] != '/'
  }

  /** `p` without its trailing '/' characters. */
  function StripTrailingSlashes(p: string): (r: string)
    ensures |r| <= |p| && r == p[..|r|]
    ensures forall k :: |r| <= k < |p| ==> p[k] == '/'
    ensures r == [] || r[|r| - 1] != '/'
  {
    if p != [] && p[|p| - 1] == '/' then StripTrailingSlashes(p[..|p| - 1]) else p
  }

  /** The index just after the last '/' of `q`, or 0 when `q` has none. */
  function AfterLastSlash(q: string): (i: nat)
    ensures i <= |q|
    ensures NoSlash(q[i..])
    ensures i == 0 || q[i - 1] == '/'
  {
    if q == [] then 0
    else if q[|q| - 1] == '/' then |q|
    else AfterLastSlash(q[..|q| - 1])
  }

  /** `path.basename`: the last segment, trailing separators ignored. */
  function Basename(p: string): string {
    var q := StripTrailingSlashes(p);
    q[AfterLastSlash(q)..]
  }

  /** The index of the last '.' of `b`, or -1. */
  function LastDot(b: string): (d: int)
    ensures -1 <= d < |b|
  {
    if b == [] then -1
    else if b[|b| - 1] == '.' then |b| - 1
    else LastDot(b[..|b| - 1])
  }

  /**
   * `path.extname`: from the last '.' of the last segment to its end; empty
   * when that segment has no '.', starts with its only leading '.' (a dot
   * file) or is "..".
   */
  function Extname(p: string): string {
    SegmentExt(Basename(p))
  }

  /** The extension of one path segment `b`. */
  function SegmentExt(b: string): string {
    var d := LastDot(b);
    if d <= 0 || b == ".." then "" else b[d..]
  }

  /** A name without '/' has no slash to cut at. */
  lemma {:induction false} AfterLastSlashOfName(q: string)
    requires NoSlash(q)
    ensures AfterLastSlash(q) == 0
  {
    if q != [] {
      assert NoSlash(q[..|q| - 1]);
      AfterLastSlashOfName(q[..|q| - 1]);
    }
  }

  /** The last dot, when there is one, is a '.', and no '.' follows it. */
  lemma {:induction false} LastDotIsLast(b: string)
    ensures var d := LastDot(b); (d >= 0 ==> b[d] == '.') && forall k :: d < k < |b| ==> b[k] != '.'
  {
    if b != [] && b[|b| - 1] != '.' {
      LastDotIsLast(b[..|b| - 1]);
    }
  }

  /**
   * The basename is the slash-free run of `p` that ends where its trailing
   * '/' characters begin and starts after a '/' or at the start of `p`.
   */
  lemma BasenameIsLastSegment(p: string)
    ensures var q := StripTrailingSlashes(p); var i := AfterLastSlash(q);
      && Basename(p) == p[i..|q|]
      && NoSlash(Basename(p))
      && (i == 0 || p[i - 1] == '/')
      && (forall k :: |q| <= k < |p| ==> p[k] == '/')
      && (|q| == 0 || p[|q| - 1] != '/')
  {
    var q := StripTrailingSlashes(p);
    assert q[AfterLastSlash(q)..] == p[AfterLastSlash(q)..|q|];
  }

  /**
   * The extension of a segment is `""` or a proper suffix of it that starts
   * with its last '.'; it is `""` exactly when the segment is ".." or has no
   * '.' after its first character.
   */
  lemma SegmentExtIsSuffix(b: string)
    ensures var ext := SegmentExt(b);
      && |ext| <= |b|
      && b[..|b| - |ext|] + ext == b
      && (ext != "" ==> |ext| < |b| && ext[0] == '.' && forall k :: 0 < k < |ext| ==> ext[k] != '.')
      && (ext == "" <==> b == ".." || forall k :: 0 < k < |b| ==> b[k] != '.')
  {
    LastDotIsLast(b);
    var d := LastDot(b);
    if 0 < d && b != ".." {
      assert SegmentExt(b) == b[d..];
      assert forall k :: 0 < k < |b| - d ==> b[d..][k] == b[d + k];
    }
  }

  /** `path.extname` of any path is the extension of its basename, as described above. */
  lemma ExtnameIsSuffixOfBasename(p: string)
    ensures var b := Basename(p); var ext := Extname(p);
      && |ext| <= |b|
      && b[..|b| - |ext|] + ext == b
      && (ext != "" ==> |ext| < |b| && ext[0] == '.' && forall k :: 0 < k < |ext| ==> ext[k] != '.')
      && (ext == "" <==> b == ".." || forall k :: 0 < k < |b| ==> b[k] != '.')
  {
    SegmentExtIsSuffix(Basename(p));
  }

  /** A name without '/' is its own basename. */
  lemma BasenameOfName(name: string)
    requires NoSlash(name)
    ensures Basename(name) == name
  {
    AfterLastSlashOfName(name);
  }

  /**
   * The extension of a name without '/' is `""` or a proper suffix of the name that starts with
   * its only '.', so that the name is the part before it followed by it.
   */
  lemma ExtnameOfName(name: string)
    requires NoSlash(name)
    ensures var ext := Extname(name);
      && |ext| <= |name|
      && name[..|name| - |ext|] + ext == name
      && (ext != "" ==> |ext| < |name| && ext[0] == '.' && forall k :: 0 < k < |ext| ==> ext[k] != '.')
  {
    BasenameOfName(name);
    ExtnameIsSuffixOfBasename(name);
  }
}
