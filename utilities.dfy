/** Character filtering, comment stripping and the substring-dispatched cast of utilities.py. */
module Utilities {
  import opened Base
  import opened Strings
  import opened Values

  /** `remove_chars(orig, chars, replace)`: with no replacement, characters of `chars` are
      dropped; with one, each of them becomes `replace`. Every other character is kept. */
  function RemoveChars(orig: string, chars: string, replace: Option<string> := None): string {
    if orig == [] then []
    else
      var head := if orig[0] !in chars then [orig[0]] else if replace.Some? then replace.value else [];
      head + RemoveChars(orig[1..], chars, replace)
  }

  /** `remove_chars` works character by character: it distributes over concatenation. */
  lemma {:induction false} RemoveCharsAppend(a: string, b: string, chars: string, replace: Option<string>)
    ensures RemoveChars(a + b, chars, replace) == RemoveChars(a, chars, replace) + RemoveChars(b, chars, replace)
  {
    if a == [] {
      assert a + b == b;
    } else {
      assert (a + b)[1..] == a[1..] + b;
      RemoveCharsAppend(a[1..], b, chars, replace);
    }
  }

  /** Without a replacement the result holds exactly the characters of the input outside `chars`. */
  lemma {:induction false} RemoveCharsMembers(orig: string, chars: string)
    ensures forall c :: c in RemoveChars(orig, chars) <==> c in orig && c !in chars
  {
    if orig != [] {
      RemoveCharsMembers(orig[1..], chars);
      assert orig == [orig[0]] + orig[1..];
    }
  }

  /** A string with none of the characters is returned unchanged. */
  lemma {:induction false} RemoveCharsNoop(orig: string, chars: string, replace: Option<string>)
    requires forall c :: c in orig ==> c !in chars
    ensures RemoveChars(orig, chars, replace) == orig
  {
    if orig != [] {
      RemoveCharsNoop(orig[1..], chars, replace);
    }
  }

  /** A one-character replacement keeps the length and rewrites exactly the listed characters. */
  lemma {:induction false} ReplaceCharsPointwise(orig: string, chars: string, rep: char)
    ensures |RemoveChars(orig, chars, Some([rep]))| == |orig|
    ensures forall i :: 0 <= i < |orig| ==>
      RemoveChars(orig, chars, Some([rep]))[i] == if orig[i] in chars then rep else orig[i]
  {
    if orig != [] {
      ReplaceCharsPointwise(orig[1..], chars, rep);
    }
  }

  /** Comment markers. */
  predicate IsCommentMark(c: char) { c == '#' || c == ';' }

  /** `remove_comment`: the text before the first `#` or `;`. */
  function RemoveComment(s: string): string {
    if s == [] || IsCommentMark(s[0]) then [] else [s[0]] + RemoveComment(s[1..])
  }

  /** The kept text is a prefix without markers, cut exactly at the first marker. */
  lemma {:induction false} RemoveCommentCut(s: string)
    ensures var r := RemoveComment(s);
      && StartsWith(s, r)
      && (forall c :: c in r ==> !IsCommentMark(c))
      && (|r| < |s| ==> IsCommentMark(s[|r|]))
  {
    if s != [] && !IsCommentMark(s[0]) {
      RemoveCommentCut(s[1..]);
    }
  }

  /** Text without markers survives in front of whatever the rest leaves. */
  lemma {:induction false} RemoveCommentPrefix(a: string, b: string)
    requires forall c :: c in a ==> !IsCommentMark(c)
    ensures RemoveComment(a + b) == a + RemoveComment(b)
  {
    if a == [] {
      assert a + b == b;
    } else {
      assert (a + b)[1..] == a[1..] + b;
      RemoveCommentPrefix(a[1..], b);
    }
  }

  /** The cut falls at the first marker. */
  lemma RemoveCommentAt(s: string, k: nat)
    requires k < |s| && IsCommentMark(s[k])
    requires forall i :: 0 <= i < k ==> !IsCommentMark(s[i])
    ensures RemoveComment(s) == s[..k]
  {
    assert s == s[..k] + s[k..];
    RemoveCommentPrefix(s[..k], s[k..]);
  }

  /** The four inputs the utilities tests pin. */
  lemma RemoveCommentPinned()
    ensures RemoveComment("test#comment") == "test"
    ensures RemoveComment("test1;comment") == "test1"
    ensures RemoveComment(";full in line comment") == ""
    ensures RemoveComment("testboth" + "; test a comment with both " + "types of # comments ") == "testboth"
  {
    RemoveCommentHash();
    RemoveCommentSemicolon();
    RemoveCommentBoth();
  }

  lemma RemoveCommentHash()
    ensures RemoveComment("test#comment") == "test"
  {
    RemoveCommentAt("test#comment", 4);
  }

  lemma RemoveCommentSemicolon()
    ensures RemoveComment("test1;comment") == "test1"
  {
    RemoveCommentAt("test1;comment", 5);
  }

  lemma RemoveCommentBoth()
    ensures RemoveComment("testboth" + "; test a comment with both " + "types of # comments ") == "testboth"
  {
    var tail := "; test a comment with both " + "types of # comments ";
    assert "testboth" + "; test a comment with both " + "types of # comments " == "testboth" + tail;
    RemoveCommentPrefix("testboth", tail);
  }

  // ------------------------------------------------------------ cast_variable

  const Affirmatives: seq<string> := ["yes", "y", "true"]
  const Negatives: seq<string> := ["no", "n", "false"]

  /** One element of `cast_variable`: the first type keyword found in `t` decides.
      The `datetime` branch is pandas' `to_datetime`, given as `n.toDatetime`; `int()` and
      `float()` are `PyInt` and `PyFloat`. Only text has `.lower()`. */
  function CastOne(v: Scalar, t: string, n: Natives): Result<Scalar> {
    if HasInfix(t, "datetime") then
      (match n.toDatetime(One(v)) case Some(d) => Ok(Date(d)) case None => Err(CastFailed("datetime")))
    else if HasInfix(t, "bool") then
      // unknown words fall through to Python truthiness: only "" is False
      if !v.Str? then Err(AttributeError)
      else Ok(Bool(if Lower(v.s) in Affirmatives then true else if Lower(v.s) in Negatives then false else v.s != ""))
    else if HasInfix(t, "int") then
      (match PyInt(v, n) case Some(i) => Ok(Int(i)) case None => Err(CastFailed("int")))
    else if HasInfix(t, "float") then
      (match PyFloat(v, n) case Some(x) => Ok(Float(x)) case None => Err(CastFailed("float")))
    else if t == "filename" || t == "directory" then Ok(v)
    else if v == Str("none") then Ok(Null)
    else if HasInfix(t, "str") then
      if v.Str? then Ok(Str(Lower(v.s))) else Err(AttributeError)
    else Err(UnknownType(t))
  }

  /** All elements in order; the first failure aborts. */
  function CastEach(vs: seq<Scalar>, t: string, n: Natives): Result<seq<Scalar>> {
    if vs == [] then Ok([])
    else
      var x :- CastOne(vs[0], t, n);
      var rest :- CastEach(vs[1..], t, n);
      Ok([x] + rest)
  }

  /** `done` followed by the outcome of the remaining elements. */
  function After(done: seq<Scalar>, rest: Result<seq<Scalar>>): Result<seq<Scalar>> {
    match rest
    case Ok(xs) => Ok(done + xs)
    case Err(e) => Err(e)
  }

  /** The outcome of `cast_variable(variable, t)`: a bare value is wrapped, the elements
      are cast in order, and a single result is unwrapped. */
  function CastOf(variable: Value, t: string, n: Natives): Result<Value> {
    match CastEach(MkLst(variable), t, n)
    case Ok(xs) => Ok(Unlist(xs))
    case Err(e) => Err(e)
  }

  /** `cast_variable(variable, type_value)`. */
  method CastVariable(variable: Value, t: string, n: Natives) returns (r: Result<Value>)
    ensures r == CastOf(variable, t, n)
  {
    var vs := MkLst(variable);
    var value: seq<Scalar> := [];
    var i := 0;
    assert vs[0..] == vs;
    if CastEach(vs, t, n).Ok? {
      assert [] + CastEach(vs, t, n).value == CastEach(vs, t, n).value;
    }
    while i < |vs|
      invariant 0 <= i <= |vs|
      invariant CastEach(vs, t, n) == After(value, CastEach(vs[i..], t, n))
    {
      assert vs[i..][1..] == vs[i + 1..];
      var x := CastOne(vs[i], t, n);
      if x.Err? {
        return Err(x.error);
      }
      var rest := CastEach(vs[i + 1..], t, n);
      if rest.Ok? {
        assert value + ([x.value] + rest.value) == (value + [x.value]) + rest.value;
      }
      value := value + [x.value];
      i := i + 1;
    }
    assert vs[i..] == [];
    assert value + [] == value;
    r := Ok(Unlist(value));
  }

  /** Casting keeps the number of elements, and a value comes back bare exactly when
      there was one element. */
  lemma {:induction false} CastEachLength(vs: seq<Scalar>, t: string, n: Natives)
    ensures CastEach(vs, t, n).Ok? ==> |CastEach(vs, t, n).value| == |vs|
  {
    if vs != [] {
      CastEachLength(vs[1..], t, n);
    }
  }

  lemma CastVariableShape(variable: Value, t: string, n: Natives)
    requires CastOf(variable, t, n).Ok?
    ensures CastOf(variable, t, n).value.One? <==> |MkLst(variable)| == 1
  {
    CastEachLength(MkLst(variable), t, n);
  }

  /** The boolean branch maps the yes/no words exactly, raises only on non-text. */
  lemma BoolBranch(v: Scalar, t: string, n: Natives)
    requires !HasInfix(t, "datetime") && HasInfix(t, "bool")
    ensures CastOne(v, t, n).Ok? <==> v.Str?
    ensures CastOne(v, t, n).Ok? ==> CastOne(v, t, n).value.Bool?
    ensures v.Str? && Lower(v.s) in Affirmatives ==> CastOne(v, t, n).value == Bool(true)
    ensures v.Str? && Lower(v.s) in Negatives ==> CastOne(v, t, n).value == Bool(false)
    ensures v.Str? && Lower(v.s) !in Affirmatives + Negatives ==> CastOne(v, t, n).value == Bool(v.s != "")
  {
  }

  /** No type keyword occurs in `filename` or in `directory`. */
  lemma PathWordsHaveNoKeyword()
    ensures !HasInfix("filename", "datetime") && !HasInfix("filename", "bool")
    ensures !HasInfix("filename", "int") && !HasInfix("filename", "float")
    ensures !HasInfix("directory", "datetime") && !HasInfix("directory", "bool")
    ensures !HasInfix("directory", "int") && !HasInfix("directory", "float")
  {
    hide *;
    NoInfixByChar("filename", "datetime", 'd');
    NoInfixByChar("filename", "bool", 'b');
    NoInfixByChar("filename", "int", 't');
    NoInfixByChar("filename", "float", 'o');
    NoInfixByChar("directory", "datetime", 'm');
    NoInfixByChar("directory", "bool", 'b');
    NoInfixByChar("directory", "int", 'n');
    NoInfixByChar("directory", "float", 'f');
  }

  /** `filename` and `directory` values pass through unchanged, whatever they hold. */
  lemma {:induction false} PathsPassThrough(vs: seq<Scalar>, t: string, n: Natives)
    requires t == "filename" || t == "directory"
    ensures CastEach(vs, t, n) == Ok(vs)
  {
    if vs != [] {
      PathPassesThrough(vs[0], t, n);
      PathsPassThrough(vs[1..], t, n);
      assert [vs[0]] + vs[1..] == vs;
    }
  }

  /** One `filename` or `directory` element is kept as it is. */
  lemma PathPassesThrough(v: Scalar, t: string, n: Natives)
    requires t == "filename" || t == "directory"
    ensures CastOne(v, t, n) == Ok(v)
  {
    PathWordsHaveNoKeyword();
  }

  /** With a type named only by `str`, text is lowercased and only `none` becomes None;
      with no keyword at all anything but `none` raises. */
  lemma StrBranch(v: string, t: string, n: Natives)
    requires !HasInfix(t, "datetime") && !HasInfix(t, "bool") && !HasInfix(t, "int") && !HasInfix(t, "float")
    requires t != "filename" && t != "directory"
    ensures v == "none" ==> CastOne(Str(v), t, n) == Ok(Null)
    ensures v != "none" && HasInfix(t, "str") ==> CastOne(Str(v), t, n) == Ok(Str(Lower(v)))
    ensures v != "none" && !HasInfix(t, "str") ==> CastOne(Str(v), t, n) == Err(UnknownType(t))
  {
  }
}
