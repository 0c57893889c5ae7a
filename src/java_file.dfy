/**
 * The path arithmetic of java.io.File as the JDK performs it on a Unix file
 * system: the constructors normalise their argument, `isAbsolute` looks at the
 * leading separator, `new File(parent, child)` resolves the child against the
 * parent and `getAbsolutePath` resolves a relative path against the working
 * directory (the `user.dir` property, passed in as `cwd`).
 */
module JavaFile {

  type Path = string

  /** File.isAbsolute on Unix: the path begins with the separator. */
  predicate IsAbsolute(p: Path) {
    |p| > 0 && p[0] == '/'
  }

  /** Two separators in a row at position i. */
  predicate SlashPairAt(s: string, i: nat)
    requires i + 1 < |s|
  {
    s[i] == '/' && s[i + 1] == '/'
  }

  predicate NoDoubleSlash(s: string) {
    forall i: nat :: i + 1 < |s| ==> !SlashPairAt(s, i)
  }

  /** The shape of every path a File holds: no repeated separators and no trailing one (except "/"). */
  predicate IsNormal(s: string) {
    NoDoubleSlash(s) && (|s| > 1 ==> s[|s| - 1] != '/')
  }

  /** The characters of a path other than separators, in order. */
  function NonSeparators(s: string): (r: string)
    ensures |r| <= |s|
    decreases |s|
  {
    if s == [] then [] else (if s[0] == '/' then [] else [s[0]]) + NonSeparators(s[1..])
  }

  /** Dropping separators distributes over concatenation. */
  lemma {:induction false} NonSeparatorsAppend(a: string, b: string)
    ensures NonSeparators(a + b) == NonSeparators(a) + NonSeparators(b)
    decreases |a|
  {
    if a == [] {
      assert a + b == b;
    } else {
      assert (a + b)[1..] == a[1..] + b;
      NonSeparatorsAppend(a[1..], b);
    }
  }

  /** A prefix of a path without repeated separators has none either. */
  lemma NoDoubleSlashPrefix(s: string, n: nat)
    requires NoDoubleSlash(s) && n <= |s|
    ensures NoDoubleSlash(s[..n])
  {
    forall i: nat | i + 1 < n ensures !SlashPairAt(s[..n], i) {
      assert !SlashPairAt(s, i);
    }
  }

  /** Prepending a character keeps a path free of repeated separators unless it makes a new pair. */
  lemma NoDoubleSlashCons(ch: char, s: string)
    requires NoDoubleSlash(s)
    requires |s| > 0 ==> !(ch == '/' && s[0] == '/')
    ensures NoDoubleSlash([ch] + s)
  {
    var t := [ch] + s;
    forall i: nat | i + 1 < |t| ensures !SlashPairAt(t, i) {
      if i > 0 {
        assert !SlashPairAt(s, i - 1);
      }
    }
  }

  /** Collapses every run of separators into one. */
  function Collapse(s: string): (r: string)
    ensures |r| <= |s|
    ensures |s| > 0 ==> |r| > 0 && r[0] == s[0] && r[|r| - 1] == s[|s| - 1]
    ensures NoDoubleSlash(r)
    ensures NoDoubleSlash(s) ==> r == s
    ensures NonSeparators(r) == NonSeparators(s)
    decreases |s|
  {
    if |s| <= 1 then s
    else if s[0] == '/' && s[1] == '/' then
      assert SlashPairAt(s, 0);
      assert NonSeparators(s) == NonSeparators(s[1..]);
      Collapse(s[1..])
    else
      var c := Collapse(s[1..]);
      assert ([s[0]] + c)[1..] == c;
      assert NonSeparators([s[0]] + c) == (if s[0] == '/' then [] else [s[0]]) + NonSeparators(c);
      assert NoDoubleSlash(s) ==> NoDoubleSlash(s[1..]) by {
        if NoDoubleSlash(s) {
          forall i: nat | i + 1 < |s[1..]| ensures !SlashPairAt(s[1..], i) {
            assert !SlashPairAt(s, i + 1);
          }
        }
      }
      NoDoubleSlashCons(s[0], c);
      [s[0]] + c
  }

  /** UnixFileSystem.normalize, applied by every File constructor to its path argument. */
  function Normalize(p: string): (r: Path)
    ensures IsNormal(r)
    ensures IsAbsolute(r) <==> IsAbsolute(p)
    ensures IsNormal(p) ==> r == p
    ensures r == [] <==> p == []
    ensures NonSeparators(r) == NonSeparators(p)
  {
    var c := Collapse(p);
    if |c| > 1 && c[|c| - 1] == '/' then
      assert !SlashPairAt(c, |c| - 2);
      NoDoubleSlashPrefix(c, |c| - 1);
      assert c == c[..|c| - 1] + ['/'];
      NonSeparatorsAppend(c[..|c| - 1], ['/']);
      assert NonSeparators(['/']) == [];
      c[..|c| - 1]
    else c
  }

  /** UnixFileSystem.resolve(parent, child) on two normalised paths. */
  function Resolve(parent: Path, child: Path): (r: Path)
    ensures IsAbsolute(parent) ==> IsAbsolute(r)
    ensures |parent| <= |r| && r[..|parent|] == parent
    ensures |child| <= |r| && r[|r| - |child|..] == child
  {
    if child == [] then parent
    else if child[0] == '/' then (if parent == "/" then child else parent + child)
    else if parent == "/" then parent + child
    else parent + "/" + child
  }

  /**
   * The path of `new File(parent, child)` for a File `parent` whose path is
   * `parentPath`: an empty parent path stands for the root.
   */
  function ChildOf(parentPath: Path, child: string): (r: Path)
    ensures parentPath == [] || IsAbsolute(parentPath) ==> IsAbsolute(r)
    ensures parentPath != [] ==> |parentPath| <= |r| && r[..|parentPath|] == parentPath
    ensures |Normalize(child)| <= |r| && r[|r| - |Normalize(child)|..] == Normalize(child)
  {
    Resolve(if parentPath == [] then "/" else parentPath, Normalize(child))
  }

  /**
   * The path of `new File(parent, child)` for a String `parent`: the empty
   * string stands for the root, any other parent is normalised first. It is
   * the path of `new File(new File(parent), child)`.
   */
  function ChildOfString(parent: string, child: string): (r: Path)
    ensures r == ChildOf(Normalize(parent), child)
    ensures parent == [] || IsAbsolute(parent) ==> IsAbsolute(r)
  {
    if parent == [] then Resolve("/", Normalize(child))
    else Resolve(Normalize(parent), Normalize(child))
  }

  /** File.getAbsolutePath for a File whose path is `path`. */
  function AbsolutePath(path: Path, cwd: Path): (r: Path)
    ensures IsAbsolute(cwd) ==> IsAbsolute(r)
    ensures IsAbsolute(path) ==> r == path
    ensures !IsAbsolute(path) ==>
      && |cwd| <= |r| && r[..|cwd|] == cwd
      && |path| <= |r| && r[|r| - |path|..] == path
  {
    if IsAbsolute(path) then path else Resolve(cwd, path)
  }

  /** Normalising twice changes nothing: `new File(new File(s).getPath())` names the path of `new File(s)`. */
  lemma NormalizeIdempotent(p: string)
    ensures Normalize(Normalize(p)) == Normalize(p)
  {
  }

  /**
   * A relative child under a directory that is neither empty nor the root is
   * the directory, one separator and the child.
   */
  lemma ChildOfRelative(dir: Path, child: string)
    requires IsNormal(dir) && dir != [] && dir != "/"
    requires IsNormal(child) && child != [] && !IsAbsolute(child)
    ensures ChildOf(dir, child) == dir + "/" + child
  {
  }
}
