/** The Python `str` operations the modelled code uses, on `seq<char>`, restricted to ASCII:
    case folding touches only `A`-`Z` and `a`-`z`, and stripping removes only ASCII whitespace. */
module Strings {

  /** The ASCII whitespace characters, the only ones `Strip` removes (Python 3's `str.strip()`
      also removes the other Unicode spaces). */
  predicate IsSpace(c: char) {
    c == ' ' || c == '\t' || c == '\n' || c == '\r' || c == '\U{0B}' || c == '\U{0C}'
  }

  function LowerChar(c: char): char {
    if 'A' <= c <= 'Z' then (c as int + 32) as char else c
  }

  function UpperChar(c: char): char {
    if 'a' <= c <= 'z' then (c as int - 32) as char else c
  }

  /** `s.lower()` on ASCII letters. */
  function Lower(s: string): (r: string)
    ensures |r| == |s|
  {
    if s == [] then [] else [LowerChar(s[0])] + Lower(s[1..])
  }

  /** `s.upper()` on ASCII letters. */
  function Upper(s: string): (r: string)
    ensures |r| == |s|
  {
    if s == [] then [] else [UpperChar(s[0])] + Upper(s[1..])
  }

  /** `s.lstrip()`. */
  function LStrip(s: string): (r: string)
    ensures |r| <= |s|
  {
    if s != [] && IsSpace(s[0]) then LStrip(s[1..]) else s
  }

  /** `lstrip()` keeps a suffix. */
  lemma {:induction false} LStripSuffix(s: string)
    ensures LStrip(s) == s[|s| - |LStrip(s)|..]
  {
    if s != [] && IsSpace(s[0]) {
      LStripSuffix(s[1..]);
    }
  }

  /** `s.rstrip()`. */
  function RStrip(s: string): (r: string)
    ensures |r| <= |s|
  {
    if s != [] && IsSpace(s[|s| - 1]) then RStrip(s[..|s| - 1]) else s
  }

  /** `rstrip()` keeps a prefix. */
  lemma {:induction false} RStripPrefix(s: string)
    ensures RStrip(s) == s[..|RStrip(s)|]
  {
    if s != [] && IsSpace(s[|s| - 1]) {
      RStripPrefix(s[..|s| - 1]);
    }
  }

  /** `s.strip()`. */
  function Strip(s: string): string {
    RStrip(LStrip(s))
  }

  predicate StartsWith(s: string, p: string) {
    |p| <= |s| && s[..|p|] == p
  }

  /** Python's `w in s` for a substring `w`. */
  predicate HasInfix(s: string, w: string)
    decreases |s|
  {
    StartsWith(s, w) || (s != [] && HasInfix(s[1..], w))
  }

  /** Index of the first `c` in `s` (`s.index(c)`). */
  function IndexOf(s: string, c: char): (k: nat)
    requires c in s
    ensures k < |s| && s[k] == c && c !in s[..k]
  {
    if s[0] == c then 0 else 1 + IndexOf(s[1..], c)
  }

  /** `s.split(sep)` for a one-character separator. */
  function Split(s: string, sep: char): (r: seq<string>)
    ensures |r| >= 1
    ensures sep in s <==> |r| >= 2
    decreases |s|
  {
    if sep in s then
      var k := IndexOf(s, sep);
      [s[..k]] + Split(s[k + 1..], sep)
    else [s]
  }

  /** `sep.join(parts)`. */
  function Join(sep: string, parts: seq<string>): string {
    if parts == [] then ""
    else if |parts| == 1 then parts[0]
    else parts[0] + sep + Join(sep, parts[1..])
  }

  /** `s.replace(w, "")`: non-overlapping occurrences of `w`, left to right, removed. */
  function RemoveWord(s: string, w: string): string
    requires w != []
    decreases |s|
  {
    if s == [] then []
    else if StartsWith(s, w) then RemoveWord(s[|w|..], w)
    else [s[0]] + RemoveWord(s[1..], w)
  }

  /** `[x.strip() for x in parts]`. */
  function StripAll(parts: seq<string>): (r: seq<string>)
    ensures |r| == |parts|
    ensures forall i :: 0 <= i < |parts| ==> r[i] == Strip(parts[i])
  {
    seq(|parts|, i requires 0 <= i < |parts| => Strip(parts[i]))
  }

  // ---------------------------------------------------------------- lemmas

  /** Splitting on `sep` and joining with `sep` gives the string back. */
  lemma {:induction false} JoinSplit(s: string, sep: char)
    ensures Join([sep], Split(s, sep)) == s
    decreases |s|
  {
    if sep in s {
      var k := IndexOf(s, sep);
      JoinSplit(s[k + 1..], sep);
      assert s == s[..k] + [sep] + s[k + 1..];
    }
  }

  /** No piece of a split holds the separator. */
  lemma {:induction false} SplitPiecesFree(s: string, sep: char)
    ensures forall p :: p in Split(s, sep) ==> sep !in p
    decreases |s|
  {
    if sep in s {
      var k := IndexOf(s, sep);
      SplitPiecesFree(s[k + 1..], sep);
    }
  }

  /** A string without the separator splits into itself alone. */
  lemma SplitNoSep(s: string, sep: char)
    requires sep !in s
    ensures Split(s, sep) == [s]
  {
  }

  lemma {:induction false} LowerIdempotent(s: string)
    ensures Lower(Lower(s)) == Lower(s)
  {
    if s != [] {
      LowerIdempotent(s[1..]);
    }
  }

  /** Text with exactly one separator splits into the text on either side of it. */
  lemma SplitOnce(a: string, b: string, c: char)
    requires c !in a && c !in b
    ensures Split(a + [c] + b, c) == [a, b]
  {
    var s := a + [c] + b;
    IndexOfFirst(s, c, |a|);
    assert s[..|a|] == a && s[|a| + 1..] == b;
    SplitCutAt(s, c, |a|, a, b);
    SplitNoSep(b, c);
  }

  /** Text without upper-case letters is its own lowercase. */
  lemma {:induction false} LowerOfLower(s: string)
    requires forall i :: 0 <= i < |s| ==> !('A' <= s[i] <= 'Z')
    ensures Lower(s) == s
  {
    if s != [] {
      LowerOfLower(s[1..]);
    }
  }

  /** `Lower` commutes with concatenation. */
  /** Lowercased text holds no upper-case letter. */
  lemma {:induction false} LowerNoUpper(s: string)
    ensures forall i :: 0 <= i < |Lower(s)| ==> !('A' <= Lower(s)[i] <= 'Z')
  {
    if s != [] {
      LowerNoUpper(s[1..]);
      assert Lower(s) == [LowerChar(s[0])] + Lower(s[1..]);
    }
  }

  /** Lowercasing neither adds nor removes a character that is not a letter. */
  lemma {:induction false} LowerKeepsMark(s: string, c: char)
    requires !('A' <= c <= 'Z') && !('a' <= c <= 'z')
    ensures c in Lower(s) <==> c in s
  {
    if s != [] {
      LowerKeepsMark(s[1..], c);
      assert s == [s[0]] + s[1..];
    }
  }

  lemma {:induction false} LowerAppend(a: string, b: string)
    ensures Lower(a + b) == Lower(a) + Lower(b)
  {
    if a == [] {
      assert a + b == b;
    } else {
      assert (a + b)[1..] == a[1..] + b;
      LowerAppend(a[1..], b);
      assert Lower(a) == [LowerChar(a[0])] + Lower(a[1..]);
    }
  }

  lemma {:induction false} LStripFront(s: string)
    ensures LStrip(s) == [] || !IsSpace(LStrip(s)[0])
  {
    if s != [] && IsSpace(s[0]) {
      LStripFront(s[1..]);
    }
  }

  lemma {:induction false} RStripBack(s: string)
    ensures RStrip(s) == [] || !IsSpace(RStrip(s)[|RStrip(s)| - 1])
  {
    if s != [] && IsSpace(s[|s| - 1]) {
      RStripBack(s[..|s| - 1]);
    }
  }

  lemma {:induction false} RStripKeepsFront(s: string)
    requires s != [] && !IsSpace(s[0])
    ensures RStrip(s) != [] && RStrip(s)[0] == s[0]
  {
    if IsSpace(s[|s| - 1]) {
      RStripKeepsFront(s[..|s| - 1]);
    }
  }

  /** `strip()` leaves no whitespace at either end of its result. */
  lemma StripEdges(s: string)
    ensures Strip(s) == [] || (!IsSpace(Strip(s)[0]) && !IsSpace(Strip(s)[|Strip(s)| - 1]))
  {
    LStripFront(s);
    RStripBack(LStrip(s));
    if LStrip(s) != [] {
      RStripKeepsFront(LStrip(s));
    }
  }

  /** A string containing `w` loses characters under `RemoveWord`; one without keeps them all. */
  lemma {:induction false} RemoveWordShrinks(s: string, w: string)
    requires w != []
    ensures HasInfix(s, w) <==> |RemoveWord(s, w)| < |s|
    ensures !HasInfix(s, w) ==> RemoveWord(s, w) == s
    decreases |s|
  {
    if s == [] {
    } else if StartsWith(s, w) {
      RemoveWordLength(s[|w|..], w);
    } else {
      RemoveWordShrinks(s[1..], w);
    }
  }

  lemma {:induction false} RemoveWordLength(s: string, w: string)
    requires w != []
    ensures |RemoveWord(s, w)| <= |s|
    decreases |s|
  {
    if s == [] {
    } else if StartsWith(s, w) {
      RemoveWordLength(s[|w|..], w);
    } else {
      RemoveWordLength(s[1..], w);
    }
  }

  /** An occurrence of `w` puts its first two characters side by side somewhere in `s`. */
  lemma {:induction false} InfixPair(s: string, w: string)
    requires |w| >= 2
    ensures HasInfix(s, w) ==> exists j :: 0 <= j < |s| - 1 && s[j] == w[0] && s[j + 1] == w[1]
  {
    if HasInfix(s, w) {
      if StartsWith(s, w) {
        assert s[0] == w[0] && s[1] == w[1];
      } else {
        InfixPair(s[1..], w);
        var j :| 0 <= j < |s[1..]| - 1 && s[1..][j] == w[0] && s[1..][j + 1] == w[1];
        assert s[j + 1] == w[0] && s[j + 2] == w[1];
      }
    }
  }

  /** So `w` is absent when its first two characters never meet in `s`. */
  lemma NoInfixByPair(s: string, w: string)
    requires |w| >= 2
    requires forall j :: 0 <= j < |s| - 1 && s[j] == w[0] ==> s[j + 1] != w[1]
    ensures !HasInfix(s, w)
  {
    InfixPair(s, w);
  }

  /** Every character of an occurring `w` is a character of `s`. */
  lemma {:induction false} InfixChars(s: string, w: string)
    requires HasInfix(s, w)
    ensures forall c :: c in w ==> c in s
    decreases |s|
  {
    if StartsWith(s, w) {
      assert forall c :: c in w ==> c in s[..|w|];
    } else {
      InfixChars(s[1..], w);
    }
  }

  /** So `w` is absent when one of its characters is. */
  lemma NoInfixByChar(s: string, w: string, c: char)
    requires c in w && c !in s
    ensures !HasInfix(s, w)
  {
    if HasInfix(s, w) {
      InfixChars(s, w);
    }
  }

  /** `w` occurs where `s` holds it. */
  lemma {:induction false} InfixAt(s: string, w: string, k: nat)
    requires k + |w| <= |s| && s[k..k + |w|] == w
    ensures HasInfix(s, w)
    decreases k
  {
    if k > 0 {
      assert s[1..][k - 1..k - 1 + |w|] == s[k..k + |w|];
      InfixAt(s[1..], w, k - 1);
    }
  }

  /** Every character of a piece comes from the split string. */
  lemma {:induction false} SplitSubset(s: string, sep: char, w: string)
    requires w in Split(s, sep)
    ensures forall c :: c in w ==> c in s
    decreases |s|
  {
    if sep in s {
      var k := IndexOf(s, sep);
      if w != s[..k] {
        SplitSubset(s[k + 1..], sep, w);
      }
    }
  }

  // ------------------------------------------------------------ strip and split

  predicate AllSpace(w: string) {
    forall i :: 0 <= i < |w| ==> IsSpace(w[i])
  }

  lemma {:induction false} LStripSpaces(w: string, q: string)
    requires AllSpace(w)
    ensures LStrip(w + q) == LStrip(q)
  {
    if w != [] {
      assert (w + q)[1..] == w[1..] + q;
      LStripSpaces(w[1..], q);
    } else {
      assert w + q == q;
    }
  }

  lemma {:induction false} RStripSpaces(q: string, w: string)
    requires AllSpace(w)
    ensures RStrip(q + w) == RStrip(q)
  {
    if w != [] {
      assert (q + w)[..|q + w| - 1] == q + w[..|w| - 1];
      RStripSpaces(q, w[..|w| - 1]);
    } else {
      assert q + w == q;
    }
  }

  /** Trailing whitespace survives `lstrip` unless nothing else is left. */
  lemma {:induction false} LStripAppendSpaces(p: string, w: string)
    requires AllSpace(w)
    ensures LStrip(p + w) == if LStrip(p) == [] then LStrip(w) else LStrip(p) + w
  {
    if p == [] {
      assert p + w == w;
    } else if IsSpace(p[0]) {
      assert (p + w)[1..] == p[1..] + w;
      LStripAppendSpaces(p[1..], w);
    }
  }

  lemma LStripAllSpace(w: string)
    requires AllSpace(w)
    ensures LStrip(w) == []
  {
    LStripSpaces(w, []);
    assert w + [] == w;
  }

  /** Whitespace around a string does not change its `strip()`. */
  lemma StripAround(w1: string, p: string, w2: string)
    requires AllSpace(w1) && AllSpace(w2)
    ensures Strip(w1 + p + w2) == Strip(p)
  {
    assert w1 + p + w2 == w1 + (p + w2);
    LStripSpaces(w1, p + w2);
    LStripAppendSpaces(p, w2);
    if LStrip(p) == [] {
      LStripAllSpace(w2);
    } else {
      RStripSpaces(LStrip(p), w2);
    }
  }

  /** `strip()` cuts whitespace only. */
  lemma {:induction false} LStripCut(s: string)
    ensures AllSpace(s[..|s| - |LStrip(s)|])
  {
    if s != [] && IsSpace(s[0]) {
      LStripCut(s[1..]);
      assert s[..|s| - |LStrip(s)|] == [s[0]] + s[1..][..|s[1..]| - |LStrip(s[1..])|];
    }
  }

  lemma {:induction false} RStripCut(s: string)
    ensures AllSpace(s[|RStrip(s)|..])
  {
    if s != [] && IsSpace(s[|s| - 1]) {
      RStripCut(s[..|s| - 1]);
      assert s[|RStrip(s)|..] == s[..|s| - 1][|RStrip(s[..|s| - 1])|..] + [s[|s| - 1]];
    }
  }

  /** The whitespace `strip()` cuts from the front. */
  function Leading(y: string): string {
    y[..|y| - |LStrip(y)|]
  }

  /** The whitespace `strip()` cuts from the back. */
  function Trailing(y: string): string {
    LStrip(y)[|Strip(y)|..]
  }

  /** A string is its `strip()` with whitespace on either side. */
  lemma StripSplitsOff(y: string)
    ensures AllSpace(Leading(y)) && AllSpace(Trailing(y))
    ensures y == Leading(y) + Strip(y) + Trailing(y)
  {
    LStripCut(y);
    RStripCut(LStrip(y));
    LStripSuffix(y);
    RStripPrefix(LStrip(y));
    StripPieces(y, Leading(y), LStrip(y), Strip(y), Trailing(y));
  }

  lemma StripPieces(y: string, w1: string, l: string, r: string, w2: string)
    requires |l| <= |y| && l == y[|y| - |l|..] && w1 == y[..|y| - |l|]
    requires |r| <= |l| && r == l[..|r|] && w2 == l[|r|..]
    ensures y == w1 + r + w2
  {
    assert l == r + w2;
    assert y == w1 + l;
    assert w1 + l == w1 + (r + w2);
  }

  lemma StripIdempotent(s: string)
    ensures Strip(Strip(s)) == Strip(s)
  {
    StripSplitsOff(s);
    StripEdges(s);
    var t := Strip(s);
    if t != [] {
      assert LStrip(t) == t;
      assert RStrip(t) == t;
    }
  }

  /** `strip()` keeps characters of its input only. */
  lemma StripSubset(s: string)
    ensures forall c :: c in Strip(s) ==> c in s
  {
    var l := LStrip(s);
    LStripSuffix(s);
    RStripPrefix(l);
    assert forall c :: c in l ==> c in s;
    assert forall c :: c in RStrip(l) ==> c in l;
  }

  /** Splitting after a separator-free prefix puts the prefix in front of the first piece. */
  lemma SplitAfterPrefix(w: string, z: string, c: char)
    requires c !in w
    ensures Split(w + z, c) == [w + Split(z, c)[0]] + Split(z, c)[1..]
  {
    if c in z {
      SplitAfterPrefixCut(w, z, c);
    } else {
      NotInConcat(w, z, c);
      SplitNoSep(w + z, c);
      SplitNoSep(z, c);
    }
  }

  lemma SplitAfterPrefixCut(w: string, z: string, c: char)
    requires c !in w && c in z
    ensures Split(w + z, c) == [w + Split(z, c)[0]] + Split(z, c)[1..]
  {
    var s := w + z;
    var k := IndexOf(z, c);
    var rest := Split(z[k + 1..], c);
    assert Split(z, c)[0] == z[..k] && Split(z, c)[1..] == rest by {
      SplitAt(z, c);
    }
    assert Split(s, c) == [w + z[..k]] + rest by {
      IndexOfAfterPrefix(w, z, c);
      ConcatCut(w, z, k);
      SplitCutAt(s, c, |w| + k, w + z[..k], z[k + 1..]);
    }
  }

  /** Cutting `w + z` around the position `k` of `z`. */
  lemma ConcatCut(w: string, z: string, k: nat)
    requires k < |z|
    ensures (w + z)[..|w| + k] == w + z[..k] && (w + z)[|w| + k + 1..] == z[k + 1..]
  {
  }

  /** One step of `split` with the cut position and both pieces named. */
  lemma SplitCutAt(s: string, c: char, i: nat, head: string, tail: string)
    requires c in s && i == IndexOf(s, c)
    requires head == s[..i] && tail == s[i + 1..]
    ensures Split(s, c) == [head] + Split(tail, c)
  {
    hide *;
    SplitAt(s, c);
  }

  lemma NotInConcat(a: string, b: string, c: char)
    requires c !in a && c !in b
    ensures c !in a + b
  {
  }

  /** One step of `split`: the text before the first separator, then the rest split. */
  lemma SplitAt(s: string, c: char)
    requires c in s
    ensures Split(s, c) == [s[..IndexOf(s, c)]] + Split(s[IndexOf(s, c) + 1..], c)
  {
  }

  lemma {:induction false} IndexOfAfterPrefix(w: string, z: string, c: char)
    requires c !in w && c in z
    ensures IndexOf(w + z, c) == |w| + IndexOf(z, c)
  {
    if w != [] {
      assert (w + z)[1..] == w[1..] + z;
      IndexOfAfterPrefix(w[1..], z, c);
    } else {
      assert w + z == z;
    }
  }

  /** Splitting `z + w` puts `w` behind the last piece of `z`'s split. */
  predicate SuffixJoinsLast(z: string, w: string, c: char) {
    var p := Split(z, c);
    Split(z + w, c) == p[..|p| - 1] + [p[|p| - 1] + w]
  }

  /** Splitting before a separator-free suffix puts the suffix behind the last piece. */
  lemma {:induction false} SplitBeforeSuffix(z: string, w: string, c: char)
    requires c !in w
    ensures SuffixJoinsLast(z, w, c)
    decreases |z|
  {
    if c in z {
      var k := IndexOf(z, c);
      SplitBeforeSuffix(z[k + 1..], w, c);
      SplitBeforeSuffixStep(z, w, c, k);
    } else {
      SplitBeforeSuffixBase(z, w, c);
    }
  }

  lemma SplitBeforeSuffixBase(z: string, w: string, c: char)
    requires c !in w && c !in z
    ensures SuffixJoinsLast(z, w, c)
  {
    NotInConcat(z, w, c);
    SplitNoSep(z + w, c);
    SplitNoSep(z, c);
  }

  lemma SplitBeforeSuffixStep(z: string, w: string, c: char, k: nat)
    requires c !in w && k < |z| && z[k] == c && c !in z[..k]
    requires SuffixJoinsLast(z[k + 1..], w, c)
    ensures SuffixJoinsLast(z, w, c)
  {
    assert (z + w)[..k] == z[..k];
    assert (z + w)[k + 1..] == z[k + 1..] + w;
    SplitAtIndex(z + w, c, k);
    SplitAtIndex(z, c, k);
    var p' := Split(z[k + 1..], c);
    ConsSnoc(z[..k], p', p'[|p'| - 1] + w);
  }

  /** One step of `split`, at the first separator `k`. */
  lemma SplitAtIndex(s: string, c: char, k: nat)
    requires k < |s| && s[k] == c && c !in s[..k]
    ensures Split(s, c) == [s[..k]] + Split(s[k + 1..], c)
  {
    IndexOfFirst(s, c, k);
  }

  /** Replacing the last element commutes with putting one in front. */
  lemma ConsSnoc<T>(a: T, q: seq<T>, x: T)
    requires |q| >= 1
    ensures var p := [a] + q;
      [a] + (q[..|q| - 1] + [x]) == p[..|p| - 1] + [x] && p[|p| - 1] == q[|q| - 1]
  {
    var p := [a] + q;
    assert p[..|p| - 1] == [a] + q[..|q| - 1];
  }

  /** The first occurrence is the one with no earlier occurrence. */
  lemma {:induction false} IndexOfFirst(s: string, c: char, k: nat)
    requires k < |s| && s[k] == c && c !in s[..k]
    ensures IndexOf(s, c) == k
  {
    if k > 0 {
      assert s[0] in s[..k];
      assert s[1..][..k - 1] == s[..k][1..];
      IndexOfFirst(s[1..], c, k - 1);
    }
  }

  /** Stripping every piece of a split forgets whitespace around the whole string, for a
      separator that is not whitespace. */
  lemma StripAllSplitStrip(y: string, c: char)
    requires !IsSpace(c)
    ensures StripAll(Split(Strip(y), c)) == StripAll(Split(y, c))
  {
    StripSplitsOff(y);
    StripAllSplitAround(Leading(y), Strip(y), Trailing(y), c);
  }

  lemma StripAllSplitAround(w1: string, z: string, w2: string, c: char)
    requires AllSpace(w1) && AllSpace(w2) && !IsSpace(c)
    ensures StripAll(Split(w1 + z + w2, c)) == StripAll(Split(z, c))
  {
    SpaceHasNoSep(w1, c);
    SpaceHasNoSep(w2, c);
    var p := Split(z, c);
    SplitBeforeSuffix(z, w2, c);
    var q := Split(z + w2, c);
    assert w1 + z + w2 == w1 + (z + w2);
    SplitAfterPrefix(w1, z + w2, c);
    var r := Split(w1 + z + w2, c);
    PiecesAround(w1, p, w2, q, r);
  }

  /** The pieces of `w1 + z + w2` strip like those of `z`. */
  lemma PiecesAround(w1: string, p: seq<string>, w2: string, q: seq<string>, r: seq<string>)
    requires AllSpace(w1) && AllSpace(w2) && |p| >= 1
    requires q == p[..|p| - 1] + [p[|p| - 1] + w2]
    requires r == [w1 + q[0]] + q[1..]
    ensures StripAll(r) == StripAll(p)
  {
    forall i | 0 <= i < |p|
      ensures Strip(r[i]) == Strip(p[i])
    {
      if i == 0 && |p| == 1 {
        assert r[0] == w1 + p[0] + w2;
        StripAround(w1, p[0], w2);
      } else if i == 0 {
        assert r[0] == w1 + p[0] + [];
        StripAround(w1, p[0], []);
      } else if i == |p| - 1 {
        assert r[i] == [] + p[i] + w2;
        StripAround([], p[i], w2);
      } else {
        assert r[i] == p[i];
      }
    }
    StripAllPointwise(r, p);
  }

  lemma SpaceHasNoSep(w: string, c: char)
    requires AllSpace(w) && !IsSpace(c)
    ensures c !in w
  {
  }

  lemma StripAllPointwise(r: seq<string>, p: seq<string>)
    requires |r| == |p| && forall i :: 0 <= i < |p| ==> Strip(r[i]) == Strip(p[i])
    ensures StripAll(r) == StripAll(p)
  {
  }

  /** Joining separator-free pieces and splitting again gives the pieces back. */
  lemma {:induction false} SplitJoin(qs: seq<string>, c: char)
    requires |qs| >= 1
    requires forall i :: 0 <= i < |qs| ==> c !in qs[i]
    ensures Split(Join([c], qs), c) == qs
  {
    if |qs| == 1 {
      assert Join([c], qs) == qs[0];
    } else {
      var rest := Join([c], qs[1..]);
      var s := qs[0] + [c] + rest;
      assert Join([c], qs) == s;
      assert Split(s, c) == [qs[0]] + Split(rest, c) by {
        IndexOfFirst(s, c, |qs[0]|);
        assert s[..|qs[0]|] == qs[0];
        assert s[|qs[0]| + 1..] == rest;
      }
      SplitJoin(qs[1..], c);
      assert qs == [qs[0]] + qs[1..];
    }
  }

  /** Every piece but the first behind one space. */
  function Spaced(ts: seq<string>): (r: seq<string>)
    ensures |r| == |ts| && forall i :: 0 <= i < |ts| ==> r[i] == " " + ts[i]
  {
    if ts == [] then [] else [" " + ts[0]] + Spaced(ts[1..])
  }

  lemma JoinPrefixFirst(sep: string, p: string, x: string, rest: seq<string>)
    ensures Join(sep, [p + x] + rest) == p + Join(sep, [x] + rest)
  {
    assert ([p + x] + rest)[1..] == rest == ([x] + rest)[1..];
  }

  /** `", ".join(ts)` is `",".join` of the same pieces with a space in front of all but the first. */
  lemma {:induction false} JoinCommaSpace(a: string, rest: seq<string>)
    ensures Join(", ", [a] + rest) == Join([','], [a] + Spaced(rest))
    decreases |rest|
  {
    if rest != [] {
      var b := rest[0];
      JoinCommaSpace(b, rest[1..]);
      assert ([a] + rest)[1..] == [b] + rest[1..];
      assert ([a] + Spaced(rest))[1..] == [" " + b] + Spaced(rest[1..]);
      JoinPrefixFirst([','], " ", b, Spaced(rest[1..]));
    }
  }

  /** `", ".join(x.strip() for x in s.split(','))`: the comma normalisation of a list text. */
  function CommaNormal(v: string): string {
    Join(", ", StripAll(Split(v, ',')))
  }

  /** Comma normalisation, followed by `strip()`, keeps the stripped comma tokens. */
  lemma CommaNormalTokens(v: string)
    ensures StripAll(Split(Strip(CommaNormal(v)), ',')) == StripAll(Split(v, ','))
  {
    var ts := StripAll(Split(v, ','));
    StripAllSplitStrip(CommaNormal(v), ',');
    TokensClean(v, ts);
    SplitCommaSpace(ts);
  }

  /** Splitting a `", "`-join of clean tokens at commas and stripping gives the tokens. */
  lemma SplitCommaSpace(ts: seq<string>)
    requires |ts| >= 1
    requires forall i :: 0 <= i < |ts| ==> ',' !in ts[i] && Strip(ts[i]) == ts[i]
    ensures StripAll(Split(Join(", ", ts), ',')) == ts
  {
    var pad := [ts[0]] + Spaced(ts[1..]);
    JoinPadded(ts);
    PaddedTokens(ts, pad);
    SplitJoin(pad, ',');
  }

  lemma JoinPadded(ts: seq<string>)
    requires |ts| >= 1
    ensures Join(", ", ts) == Join([','], [ts[0]] + Spaced(ts[1..]))
  {
    hide *;
    assert ts == [ts[0]] + ts[1..];
    JoinCommaSpace(ts[0], ts[1..]);
  }

  /** The stripped tokens of a comma split hold no comma and are already stripped. */
  lemma TokensClean(v: string, ts: seq<string>)
    requires ts == StripAll(Split(v, ','))
    ensures forall i :: 0 <= i < |ts| ==> ',' !in ts[i] && Strip(ts[i]) == ts[i]
  {
    var ps := Split(v, ',');
    SplitPiecesFree(v, ',');
    forall i | 0 <= i < |ts|
      ensures ',' !in ts[i] && Strip(ts[i]) == ts[i]
    {
      assert ps[i] in ps;
      assert ts[i] == Strip(ps[i]);
      StripSubset(ps[i]);
      StripIdempotent(ps[i]);
    }
  }

  /** Putting a space in front of stripped, comma-free tokens keeps them comma-free and
      strips back to the tokens. */
  lemma PaddedTokens(ts: seq<string>, pad: seq<string>)
    requires |ts| >= 1 && pad == [ts[0]] + Spaced(ts[1..])
    requires forall i :: 0 <= i < |ts| ==> ',' !in ts[i] && Strip(ts[i]) == ts[i]
    ensures forall i :: 0 <= i < |pad| ==> ',' !in pad[i]
    ensures StripAll(pad) == ts
  {
    forall i | 0 <= i < |pad|
      ensures ',' !in pad[i] && Strip(pad[i]) == ts[i]
    {
      if i > 0 {
        assert pad[i] == Spaced(ts[1..])[i - 1];
        SpaceBefore(ts[i]);
      }
    }
    StripAllFixed(pad, ts);
  }

  lemma SpaceBefore(t: string)
    ensures Strip(" " + t) == Strip(t)
    ensures forall c :: c in " " + t && c != ' ' ==> c in t
  {
    assert AllSpace(" ");
    assert " " + t + [] == " " + t;
    StripAround(" ", t, []);
  }

  lemma StripAllFixed(pad: seq<string>, ts: seq<string>)
    requires |pad| == |ts| && forall i :: 0 <= i < |pad| ==> Strip(pad[i]) == ts[i]
    ensures StripAll(pad) == ts
  {
  }

  /** `lstrip()` keeps every character that is not whitespace. */
  lemma {:induction false} LStripKeeps(s: string, c: char)
    requires c in s && !IsSpace(c)
    ensures c in LStrip(s)
  {
    if s != [] && IsSpace(s[0]) {
      assert s == [s[0]] + s[1..];
      LStripKeeps(s[1..], c);
    }
  }
}
