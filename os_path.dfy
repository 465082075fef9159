/**
 * The three POSIX path functions the pipeline calls: `os.path.splitext`,
 * `os.path.basename` and the two-argument `os.path.join`.
 */
module OsPath {
  import opened Text

  /** The last path component of `p` holds a dot after some non-dot character. */
  ghost predicate HasExtension(p: string)
  {
    exists i, d :: RFind(p, '/') < i < d < |p| && p[d] == '.' && p[i] != '.'
  }

  /**
   * Where `splitext` cuts `p`: at the last dot, provided it lies in the last
   * component and is not part of that component's leading dots; otherwise at
   * the end of `p`.
   */
  function ExtStart(p: string): nat
  {
    var sep := RFind(p, '/');
    var dot := RFind(p, '.');
    if dot > sep && exists i | sep + 1 <= i < dot :: p[i] != '.' then dot else |p|
  }

  /** `os.path.splitext(p)` as a (root, extension) pair. */
  function Splitext(p: string): (string, string)
  {
    var k := ExtStart(p);
    assert k <= |p|;
    (p[..k], p[k..])
  }

  /**
   * The extension is empty or one dot followed by neither dots nor slashes,
   * root and extension put back together give the path, and the extension
   * is non-empty exactly when the last component has a dot after a non-dot.
   */
  lemma SplitextSpec(p: string)
    ensures Splitext(p).0 + Splitext(p).1 == p
    ensures var ext := Splitext(p).1;
      ext != "" ==> ext[0] == '.' && forall j :: 0 < j < |ext| ==> ext[j] != '.' && ext[j] != '/'
    ensures Splitext(p).1 != "" <==> HasExtension(p)
  {
    var sep := RFind(p, '/');
    var dot := RFind(p, '.');
    if HasExtension(p) {
      var i, d :| sep < i < d < |p| && p[d] == '.' && p[i] != '.';
      assert d <= dot;
      assert sep + 1 <= i < dot && p[i] != '.';
    }
    if Splitext(p).1 != "" {
      var i :| sep + 1 <= i < dot && p[i] != '.';
      assert sep < i < dot < |p| && p[dot] == '.';
    }
  }

  /** RFind only looks at where `c` is. */
  lemma {:induction false} RFindSameShape(p: string, q: string, c: char)
    requires |p| == |q|
    requires forall i :: 0 <= i < |p| ==> (p[i] == c <==> q[i] == c)
    ensures RFind(p, c) == RFind(q, c)
  {
    if |p| > 0 && p[|p| - 1] != c {
      RFindSameShape(p[..|p| - 1], q[..|q| - 1], c);
    }
  }

  /** Where the extension starts depends only on the positions of dots and slashes. */
  lemma ExtStartSameShape(p: string, q: string)
    requires |p| == |q|
    requires forall i :: 0 <= i < |p| ==> (p[i] == '.' <==> q[i] == '.') && (p[i] == '/' <==> q[i] == '/')
    ensures ExtStart(p) == ExtStart(q)
  {
    RFindSameShape(p, q, '/');
    RFindSameShape(p, q, '.');
  }

  /** `os.path.basename(p)`: everything after the last slash, that is the whole last component. */
  function Basename(p: string): (b: string)
    ensures '/' !in b
    ensures |b| <= |p| && p[|p| - |b|..] == b
    ensures |b| == |p| || p[|p| - |b| - 1] == '/'
  {
    p[RFind(p, '/') + 1..]
  }

  /** `os.path.join(a, b)`: an absolute `b` replaces `a`; otherwise one slash separates them. */
  function JoinPath(a: string, b: string): string
  {
    if |b| > 0 && b[0] == '/' then b
    else if a == "" || a[|a| - 1] == '/' then a + b
    else a + "/" + b
  }

  /** Joining a slash-free name onto a directory gives back that name as the basename. */
  lemma BasenameJoinPath(dir: string, name: string)
    requires '/' !in name
    ensures Basename(JoinPath(dir, name)) == name
  {
    var j := JoinPath(dir, name);
    var k := |j| - |name|;
    assert j[k..] == name;
    assert k == 0 || j[k - 1] == '/';
    forall i | k <= i < |j| ensures j[i] != '/' {
      assert j[i] == name[i - k];
    }
    assert RFind(j, '/') == k - 1;
  }
}
