/** The POSIX path operations the checkers use: `os.path.isabs`, `os.path.dirname` and
    `os.path.join` on text. */
module Paths {

  /** `os.path.isabs(p)`: the path starts at the root. */
  predicate IsAbs(p: string) {
    |p| > 0 && p[0] == '/'
  }

  /** The length of the text up to and including the last '/', 0 when there is none. */
  function HeadLength(p: string): (k: nat)
    ensures k <= |p|
    ensures k > 0 ==> p[k - 1] == '/'
    ensures '/' !in p[k..]
  {
    if p == [] then 0
    else if p[|p| - 1] == '/' then |p|
    else
      var k := HeadLength(p[..|p| - 1]);
      assert p[k..] == p[..|p| - 1][k..] + [p[|p| - 1]];
      k
  }

  predicate AllSlashes(s: string) {
    forall i :: 0 <= i < |s| ==> s[i] == '/'
  }

  /** `s.rstrip('/')`. */
  function RStripSlashes(s: string): (r: string)
    ensures |r| <= |s| && r == s[..|r|]
    ensures r == [] || r[|r| - 1] != '/'
  {
    if s == [] || s[|s| - 1] != '/' then s else RStripSlashes(s[..|s| - 1])
  }

  /** `os.path.dirname(p)`: everything up to the last '/', with trailing slashes removed
      unless the head is nothing but slashes. */
  function DirName(p: string): string {
    var head := p[..HeadLength(p)];
    if head != [] && !AllSlashes(head) then RStripSlashes(head) else head
  }

  /** `os.path.join(a, b)`: an absolute `b` replaces `a`; otherwise `b` is appended with a
      '/' between them unless `a` is empty or already ends with one. */
  function PathJoin(a: string, b: string): string {
    if IsAbs(b) then b
    else if a == [] || a[|a| - 1] == '/' then a + b
    else a + "/" + b
  }

  /** An absolute second path wins, a relative one is placed under the first. */
  lemma JoinCases(a: string, b: string)
    ensures IsAbs(b) ==> PathJoin(a, b) == b
    ensures !IsAbs(b) && a != [] && a[|a| - 1] != '/' ==> PathJoin(a, b) == a + "/" + b
    ensures !IsAbs(b) ==> PathJoin(a, b)[..|a|] == a && PathJoin(a, b)[|PathJoin(a, b)| - |b|..] == b
  {
  }

  /** The directory of a path is a prefix of it that ends at a '/' boundary: it is empty,
      all slashes, or followed in the path by a '/'. */
  lemma DirNameShape(p: string)
    ensures |DirName(p)| <= |p| && DirName(p) == p[..|DirName(p)|]
    ensures DirName(p) == [] || AllSlashes(DirName(p)) || (DirName(p)[|DirName(p)| - 1] != '/' && p[|DirName(p)|] == '/')
    ensures '/' !in p ==> DirName(p) == []
  {
    var k := HeadLength(p);
    var head := p[..k];
    if head != [] && !AllSlashes(head) {
      var r := RStripSlashes(head);
      RStripSlashesNotEmpty(head);
      if |r| < k {
        RStripSlashesNext(head);
      }
    }
  }

  /** Stripping trailing slashes from a text that is not all slashes leaves something. */
  lemma {:induction false} RStripSlashesNotEmpty(s: string)
    requires !AllSlashes(s)
    ensures RStripSlashes(s) != []
  {
    if s != [] && s[|s| - 1] == '/' {
      var t := s[..|s| - 1];
      RStripSlashesNotEmpty(t);
    }
  }

  /** What stripping removed begins with a '/'. */
  lemma {:induction false} RStripSlashesNext(s: string)
    requires |RStripSlashes(s)| < |s|
    ensures s[|RStripSlashes(s)|] == '/'
  {
    var t := s[..|s| - 1];
    if |RStripSlashes(t)| < |t| {
      RStripSlashesNext(t);
    }
  }

  /** A config file under `/a/b` puts its relative paths under `/a/b`. */
  lemma JoinUnderConfigDir()
    ensures DirName("/a/b/cfg.ini") == "/a/b"
    ensures PathJoin(DirName("/a/b/cfg.ini"), "data") == "/a/b/data"
    ensures PathJoin(DirName("/a/b/cfg.ini"), "/data") == "/data"
  {
    var p := "/a/b/cfg.ini";
    assert HeadLength(p[..5]) == 5;
    assert HeadLength(p) == 5 by {
      assert p[..|p| - 1] == "/a/b/cfg.in";
      assert p[..|p| - 1][..10] == "/a/b/cfg.i";
      assert HeadLength("/a/b/cfg.ini") == HeadLength("/a/b/cfg.in");
    }
    assert p[..5] == "/a/b/";
    assert !AllSlashes("/a/b/") by {
      assert "/a/b/"[1] == 'a';
    }
    assert RStripSlashes("/a/b/") == RStripSlashes("/a/b");
  }

  /** A file name without any '/' has an empty directory, so relative paths stay as given. */
  lemma JoinBareFileName(p: string, b: string)
    requires '/' !in p && !IsAbs(b)
    ensures PathJoin(DirName(p), b) == b
  {
    DirNameShape(p);
  }
}
