/** inicheck.py: the older helpers around a master config — the `<type>` and
    `name = value` parsers, the list-option parser, filling in defaults, making paths
    relative to the config file, and the section and option checks of `check_config_file`.
    Its `cast_variable` is the one of utilities.py, word for word, and is `CastOne` here. */
module Inicheck {
  import opened Base
  import opened Strings
  import opened OrdMaps
  import opened Values
  import opened Utilities
  import opened Paths
  import opened Config
  import opened Tools

  // ------------------------------------------------------------ parse_config_type

  /** The type names an option may carry between `<` and `>`. */
  const TypeOptions: seq<string> := ["datetime", "filename", "directory", "bool", "int", "float", "str"]

  /** A type name and the option text after it. */
  datatype Typed = Typed(typ: string, option: string)

  /** `parse_config_type(options)`: with both `<` and `>` present, the type is the text
      between the first `<` and the first `>` (empty when `>` comes first) and the option
      is what follows that `>`; otherwise the type is `str` and the option is the whole
      text. A type outside `TypeOptions` raises. */
  function ParseConfigType(options: string): (r: Result<Typed>)
    ensures r.Ok? ==> r.value.typ in TypeOptions
    ensures r.Ok? ==> |r.value.option| <= |options| && options[|options| - |r.value.option|..] == r.value.option
    ensures r.Err? ==> r.error == UnrecognizedType(options)
    ensures !('<' in options && '>' in options) ==> r == Ok(Typed("str", options))
  {
    var t :=
      if '<' in options && '>' in options then
        var start, end := IndexOf(options, '<'), IndexOf(options, '>');
        Typed(if start + 1 <= end then options[start + 1..end] else "", options[end + 1..])
      else Typed("str", options);
    if t.typ in TypeOptions then Ok(t) else Err(UnrecognizedType(options))
  }

  /** No type name contains an angle bracket, an equals sign, or an upper-case letter. */
  lemma TypeWordsPlain(t: string)
    requires t in TypeOptions
    ensures '<' !in t && '>' !in t && '=' !in t && Lower(t) == t
  {
    assert forall i :: 0 <= i < |t| ==> 'a' <= t[i] <= 'z';
    LowerOfLower(t);
  }

  /** A type written as `<t>` in front of an option is read back with that option. */
  lemma TypeRoundTrip(t: string, rest: string)
    requires t in TypeOptions
    ensures ParseConfigType("<" + t + ">" + rest) == Ok(Typed(t, rest))
  {
    var s := "<" + t + ">" + rest;
    TypeWordsPlain(t);
    IndexOfFirst(s, '<', 0);
    assert s[..|t| + 1] == "<" + t;
    IndexOfFirst(s, '>', |t| + 1);
    assert s[1..|t| + 1] == t;
    assert s[|t| + 2..] == rest;
  }

  // ------------------------------------------------------------ parse_str_setting

  /** A setting: its name, its type and its option text. */
  datatype Setting = Setting(name: string, typ: string, option: string)

  /** `parse_str_setting(s)`: exactly one '=' splits the text into a name and an option,
      both lowercased and stripped, and the option's type is parsed. No '=' raises, and so
      does more than one, as the two-name unpacking fails. */
  function ParseStrSetting(s: string): (r: Result<Setting>)
    ensures '=' !in s <==> r == Err(NoSetting(s))
    ensures |Split(s, '=')| > 2 ==> r == Err(UnpackError)
    ensures r.Ok? ==> r.value.typ in TypeOptions && '=' !in r.value.name && '=' !in r.value.option
  {
    if '=' !in s then Err(NoSetting(s))
    else
      var parts := Split(s, '=');
      if |parts| != 2 then Err(UnpackError)
      else
        SplitPiecesFree(s, '=');
        assert parts[0] in parts && parts[1] in parts;
        StripSubset(Lower(parts[0]));
        StripSubset(Lower(parts[1]));
        LowerKeepsMark(parts[0], '=');
        LowerKeepsMark(parts[1], '=');
        var t :- ParseConfigType(Strip(Lower(parts[1])));
        Ok(Setting(Strip(Lower(parts[0])), t.typ, t.option))
  }

  /** A setting is normalised text: name and option are lowercase, the name is stripped,
      and the option is stripped too when the text carries no `<type>`. */
  lemma SettingNormalised(s: string)
    ensures var r := ParseStrSetting(s);
      && (r.Ok? ==> Lower(r.value.name) == r.value.name && Strip(r.value.name) == r.value.name)
      && (r.Ok? ==> Lower(r.value.option) == r.value.option)
      && (r.Ok? && !('<' in s && '>' in s) ==> r.value.typ == "str" && Strip(r.value.option) == r.value.option)
  {
    if ParseStrSetting(s).Ok? {
      var parts := Split(s, '=');
      assert parts[0] in parts && parts[1] in parts;
      NormalName(parts[0]);
      var t := ParseConfigType(Strip(Lower(parts[1]))).value;
      NormalOption(parts[1], t);
      if !('<' in s && '>' in s) {
        SplitSubset(s, '=', parts[1]);
        UntypedOption(parts[1], t);
      }
    }
  }

  /** A lowercased, stripped text is its own lowercase and its own strip. */
  lemma NormalName(name: string)
    ensures Lower(Strip(Lower(name))) == Strip(Lower(name)) && Strip(Strip(Lower(name))) == Strip(Lower(name))
  {
    LowerNoUpper(name);
    StripSubset(Lower(name));
    var sn := Strip(Lower(name));
    assert forall i :: 0 <= i < |sn| ==> sn[i] in Lower(name);
    LowerOfLower(sn);
    StripIdempotent(Lower(name));
  }

  /** The option after a `<type>` is a piece of lowercased text, so lowercase itself. */
  lemma NormalOption(opt: string, t: Typed)
    requires ParseConfigType(Strip(Lower(opt))) == Ok(t)
    ensures Lower(t.option) == t.option
  {
    LowerNoUpper(opt);
    StripSubset(Lower(opt));
    var so := Strip(Lower(opt));
    assert forall i :: 0 <= i < |t.option| ==> t.option[i] == so[|so| - |t.option| + i];
    assert forall i :: 0 <= i < |t.option| ==> t.option[i] in Lower(opt);
    LowerOfLower(t.option);
  }

  /** Without both angle brackets the option is the whole stripped text, typed `str`. */
  lemma UntypedOption(opt: string, t: Typed)
    requires !('<' in opt && '>' in opt)
    requires ParseConfigType(Strip(Lower(opt))) == Ok(t)
    ensures t.typ == "str" && Strip(t.option) == t.option
  {
    LowerKeepsMark(opt, '<');
    LowerKeepsMark(opt, '>');
    StripSubset(Lower(opt));
    StripIdempotent(Lower(opt));
  }

  /** Text whose first and last characters are not blank is its own strip. */
  lemma StripPlain(s: string)
    requires s != [] && !IsSpace(s[0]) && !IsSpace(s[|s| - 1])
    ensures Strip(s) == s
  {
  }

  /** `name=opt` with a plain name and option: the setting is that name with the parsed
      type of the option. */
  lemma PlainSetting(name: string, opt: string)
    requires '=' !in name && '=' !in opt
    requires Lower(name) == name && Strip(name) == name && Strip(Lower(opt)) == opt
    ensures ParseConfigType(opt).Ok? ==>
      ParseStrSetting(name + "=" + opt) == Ok(Setting(name, ParseConfigType(opt).value.typ, ParseConfigType(opt).value.option))
  {
    SplitOnce(name, opt, '=');
    assert name + "=" + opt == name + ['='] + opt;
  }

  /** A setting written in its plain form, `name=<t>rest`, is read back as written. */
  lemma SettingRoundTrip(name: string, t: string, rest: string)
    requires t in TypeOptions
    requires '=' !in name && '=' !in rest
    requires Lower(name) == name && Strip(name) == name
    requires Lower(rest) == rest && Strip(rest) == rest
    ensures ParseStrSetting(name + "=<" + t + ">" + rest) == Ok(Setting(name, t, rest))
  {
    TypeWordsPlain(t);
    var opt := "<" + t + ">" + rest;
    assert name + "=<" + t + ">" + rest == name + "=" + opt;
    PlainOption(t, rest);
    TypeRoundTrip(t, rest);
    PlainSetting(name, opt);
  }

  /** `<t>rest` with a plain `rest` is unchanged by lowercasing and stripping. */
  lemma PlainOption(t: string, rest: string)
    requires t in TypeOptions
    requires Lower(rest) == rest && Strip(rest) == rest
    ensures Strip(Lower("<" + t + ">" + rest)) == "<" + t + ">" + rest
  {
    var opt := "<" + t + ">" + rest;
    TypeWordsPlain(t);
    assert Lower(opt) == opt by {
      LowerOfLower("<");
      LowerOfLower(">");
      LowerAppend("<", t);
      LowerAppend("<" + t, ">");
      LowerAppend("<" + t + ">", rest);
    }
    if rest != [] {
      StripEdges(rest);
    }
    StripPlain(opt);
  }

  // ------------------------------------------------------------ parse_lst_options

  /** One parsed list option: its name, its type when types were asked for, and its cast
      options, a single one unwrapped. */
  datatype Listed = Listed(name: string, typ: Option<string>, options: Value)

  /** The entries `parse_lst_options` walks: none for None, a bare value as a list of one. */
  function Parseable(x: Value): (r: seq<Scalar>)
    ensures x == One(Null) ==> r == []
    ensures x.One? && x.x != Null ==> r == [x.x]
    ensures x.Many? ==> r == x.xs
  {
    if x == One(Null) then [] else MkLst(x)
  }

  /** The tokens of an option text: brackets dropped, newlines made blanks, then split on
      single blanks, so runs of blanks leave empty tokens. */
  function Tokens(option: string): seq<string> {
    Split(RemoveChars(RemoveChars(option, "[]"), "\n", Some(" ")), ' ')
  }

  /** One token: empty stays `""`, any other is `cast_variable(o, t)`, whose one element comes
      back unwrapped. */
  function CastToken(o: string, t: string, n: Natives): Result<Scalar> {
    if o == "" then Ok(Str("")) else CastOne(Str(o), t, n)
  }

  /** All tokens in order; the first cast that raises ends the parse. */
  function CastTokens(ts: seq<string>, t: string, n: Natives): Result<seq<Scalar>>
    decreases |ts|
  {
    if ts == [] then Ok([])
    else
      var x :- CastToken(ts[0], t, n);
      var rest :- CastTokens(ts[1..], t, n);
      Ok([x] + rest)
  }

  /** One entry of the option list: it must be text, a setting, with castable tokens. */
  function ListedEntry(e: Scalar, types: bool, n: Natives): Result<Listed> {
    if !e.Str? then Err(TypeError)  // `'=' in e` needs text
    else
      var st :- ParseStrSetting(e.s);
      var opts :- CastTokens(Tokens(st.option), st.typ, n);
      Ok(Listed(st.name, if types then Some(st.typ) else None, Unlist(opts)))
  }

  /** The entries `es` stored in `acc` by name, a later name replacing an earlier one. */
  function Available(es: seq<Scalar>, types: bool, n: Natives, acc: OrdMap<Listed>): Result<OrdMap<Listed>>
    decreases |es|
  {
    if es == [] then Ok(acc)
    else
      var l :- ListedEntry(es[0], types, n);
      Available(es[1..], types, n, acc.Put(l.name, l))
  }

  /** One step of the entry walk. */
  lemma AvailableStep(es: seq<Scalar>, types: bool, n: Natives, acc: OrdMap<Listed>)
    requires es != [] && ListedEntry(es[0], types, n).Ok?
    ensures Available(es, types, n, acc) ==
      Available(es[1..], types, n, acc.Put(ListedEntry(es[0], types, n).value.name, ListedEntry(es[0], types, n).value))
  {
  }

  /** `parse_lst_options(x, types)` with each entry stored as its parsed `Listed`. */
  function LstOptions(x: Value, types: bool, n: Natives): Result<OrdMap<Listed>> {
    Available(Parseable(x), types, n, Empty())
  }

  /** `parse_lst_options(x, types)` as written: the entry is built as
      `ConfigEntry(name=..., available_options=...)`, a keyword no `ConfigEntry`
      constructor takes, so the first entry that parses raises TypeError (with `ConfigEntry`
      read as imported; the file itself does not import it). */
  function LstOptionsAsWritten(x: Value, types: bool, n: Natives): (r: Result<OrdMap<Listed>>)
    ensures r.Ok? <==> Parseable(x) == []
  {
    var es := Parseable(x);
    if es == [] then Ok(Empty())
    else
      var _ :- ListedEntry(es[0], types, n);
      Err(TypeError)
  }

  /** The options loop, `options[i] = value` in place over the token list. */
  method CastOptions(ts: seq<string>, t: string, n: Natives) returns (r: Result<seq<Scalar>>)
    ensures r == CastTokens(ts, t, n)
  {
    var options := Texts(ts);
    var i := 0;
    AfterNothing(CastTokens(ts, t, n));
    assert ts[0..] == ts;
    while i < |ts|
      invariant 0 <= i <= |ts| && |options| == |ts|
      invariant forall j :: i <= j < |ts| ==> options[j] == Str(ts[j])
      invariant CastTokens(ts, t, n) == After(options[..i], CastTokens(ts[i..], t, n))
    {
      var o := options[i].s;
      var value: Scalar;
      if o != "" {
        var cast := CastOne(Str(o), t, n);
        if cast.Err? {
          assert CastTokens(ts[i..], t, n) == Err(cast.error);
          return Err(cast.error);
        }
        value := cast.value;
      } else {
        value := Str("");
      }
      AfterStep(ts[i..], t, n, options[..i]);
      assert ts[i..][1..] == ts[i + 1..];
      options := options[i := value];
      assert options[..i + 1] == options[..i] + [value];
      i := i + 1;
    }
    assert ts[i..] == [];
    assert options[..i] == options;
    AfterNothing(Ok(options));
    return Ok(options);
  }

  lemma AfterNothing(x: Result<seq<Scalar>>)
    ensures After([], x) == x
    ensures x.Ok? ==> After(x.value, Ok([])) == x
  {
    if x.Ok? {
      assert [] + x.value == x.value && x.value + [] == x.value;
    }
  }

  /** One token cast onto the done part. */
  lemma AfterStep(ts: seq<string>, t: string, n: Natives, done: seq<Scalar>)
    requires ts != [] && CastToken(ts[0], t, n).Ok?
    ensures After(done, CastTokens(ts, t, n)) == After(done + [CastToken(ts[0], t, n).value], CastTokens(ts[1..], t, n))
  {
    var rest := CastTokens(ts[1..], t, n);
    if rest.Ok? {
      assert done + ([CastToken(ts[0], t, n).value] + rest.value) == (done + [CastToken(ts[0], t, n).value]) + rest.value;
    }
  }

  /** The body of the entry loop: the setting parsed, its tokens cast, one element unwrapped. */
  method ParseEntry(entry: Scalar, types: bool, n: Natives) returns (r: Result<Listed>)
    ensures r == ListedEntry(entry, types, n)
  {
    if !entry.Str? {
      return Err(TypeError);
    }
    var st := ParseStrSetting(entry.s);
    if st.Err? {
      return Err(st.error);
    }
    var options := CastOptions(Tokens(st.value.option), st.value.typ, n);
    if options.Err? {
      return Err(options.error);
    }
    return Ok(Listed(st.value.name, if types then Some(st.value.typ) else None, Unlist(options.value)));
  }

  /** `parse_lst_options(x, types)`, with each entry stored as its parsed `Listed`. */
  method ParseLstOptions(x: Value, types: bool, n: Natives) returns (r: Result<OrdMap<Listed>>)
    ensures r == LstOptions(x, types, n)
  {
    var available: OrdMap<Listed> := Empty();
    var es := Parseable(x);
    var k := 0;
    while k < |es|
      invariant 0 <= k <= |es|
      invariant LstOptions(x, types, n) == Available(es[k..], types, n, available)
    {
      assert es[k..][1..] == es[k + 1..];
      var l := ParseEntry(es[k], types, n);
      if l.Err? {
        return Err(l.error);
      }
      AvailableStep(es[k..], types, n, available);
      available := available.Put(l.value.name, l.value);
      k := k + 1;
    }
    assert es[k..] == [];
    return Ok(available);
  }

  /** Each token is cast on its own: the tokens succeed together or the first failure is
      the outcome, and every result is the cast of the token at its place. */
  lemma {:induction false} CastTokensSpec(ts: seq<string>, t: string, n: Natives)
    ensures CastTokens(ts, t, n).Ok? <==> forall i :: 0 <= i < |ts| ==> CastToken(ts[i], t, n).Ok?
    ensures CastTokens(ts, t, n).Ok? ==>
      |CastTokens(ts, t, n).value| == |ts| &&
      forall i :: 0 <= i < |ts| ==> CastToken(ts[i], t, n) == Ok(CastTokens(ts, t, n).value[i])
    decreases |ts|
  {
    if ts != [] {
      CastTokensSpec(ts[1..], t, n);
      assert forall i :: 1 <= i < |ts| ==> ts[1..][i - 1] == ts[i];
      if CastToken(ts[0], t, n).Ok? && CastTokens(ts[1..], t, n).Ok? {
        var r := CastTokens(ts, t, n).value;
        assert r == [CastToken(ts[0], t, n).value] + CastTokens(ts[1..], t, n).value;
        assert forall i :: 1 <= i < |ts| ==> r[i] == CastTokens(ts[1..], t, n).value[i - 1];
      }
    }
  }

  /** No token holds a bracket, a newline or a blank. */
  lemma TokensClean(option: string)
    ensures forall tok :: tok in Tokens(option) ==> '[' !in tok && ']' !in tok && '\n' !in tok && ' ' !in tok
  {
    var a := RemoveChars(option, "[]");
    var b := RemoveChars(a, "\n", Some(" "));
    RemoveCharsMembers(option, "[]");
    ReplaceCharsPointwise(a, "\n", ' ');
    assert '[' !in b && ']' !in b && '\n' !in b by {
      forall i | 0 <= i < |b|
        ensures b[i] != '[' && b[i] != ']' && b[i] != '\n'
      {
        assert a[i] in a;
      }
    }
    SplitPiecesFree(b, ' ');
    forall tok | tok in Tokens(option)
      ensures '[' !in tok && ']' !in tok && '\n' !in tok
    {
      SplitSubset(b, ' ', tok);
    }
  }

  /** Every stored entry sits under its own name and carries a type exactly when types
      were asked for. */
  lemma {:induction false} AvailableNames(es: seq<Scalar>, types: bool, n: Natives, acc: OrdMap<Listed>)
    requires forall k :: k in acc.vals ==> acc.vals[k].name == k && (acc.vals[k].typ.Some? <==> types)
    requires Available(es, types, n, acc).Ok?
    ensures var r := Available(es, types, n, acc).value;
      forall k :: k in r.vals ==> r.vals[k].name == k && (r.vals[k].typ.Some? <==> types)
    decreases |es|
  {
    if es != [] {
      var l := ListedEntry(es[0], types, n).value;
      AvailableNames(es[1..], types, n, acc.Put(l.name, l));
    }
  }

  /** A plain word: lower-case letters and digits, and not the word `none`. */
  predicate PlainWord(w: string) {
    w != [] && w != "none" && forall i :: 0 <= i < |w| ==> 'a' <= w[i] <= 'z' || '0' <= w[i] <= '9'
  }

  lemma PlainWordFacts(w: string)
    requires PlainWord(w)
    ensures Lower(w) == w && Strip(w) == w
    ensures '[' !in w && ']' !in w && '\n' !in w && ' ' !in w && '=' !in w && '<' !in w
  {
    LowerOfLower(w);
    StripPlain(w);
  }

  /** `name=[a b]` with plain words: as written the call raises TypeError; with the entry
      stored, `name` maps to the two words, kept as text. */
  lemma PairListed(name: string, a: string, b: string, types: bool, n: Natives)
    requires PlainWord(name) && PlainWord(a) && PlainWord(b)
    ensures LstOptionsAsWritten(One(Str(name + "=[" + a + " " + b + "]")), types, n) == Err(TypeError)
    ensures LstOptions(One(Str(name + "=[" + a + " " + b + "]")), types, n) ==
      Ok(OrdMap([name], map[name := Listed(name, if types then Some("str") else None, Many([Str(a), Str(b)]))]))
  {
    var line := name + "=[" + a + " " + b + "]";
    assert line == name + "=" + ("[" + (a + " " + b) + "]");
    PairEntry(name, a, b, types, n);
    var l := Listed(name, if types then Some("str") else None, Many([Str(a), Str(b)]));
    SingleAvailable(Str(line), types, n, l);
  }

  /** A single entry that parses is the whole map. */
  lemma SingleAvailable(e: Scalar, types: bool, n: Natives, l: Listed)
    requires e != Null && ListedEntry(e, types, n) == Ok(l)
    ensures LstOptionsAsWritten(One(e), types, n) == Err(TypeError)
    ensures LstOptions(One(e), types, n) == Ok(OrdMap([l.name], map[l.name := l]))
  {
    assert Parseable(One(e)) == [e];
    AvailableStep([e], types, n, Empty());
    assert [e][1..] == [];
    assert Empty<Listed>().Put(l.name, l) == OrdMap([l.name], map[l.name := l]);
  }

  /** The entry `name=[a b]` alone. */
  lemma PairEntry(name: string, a: string, b: string, types: bool, n: Natives)
    requires PlainWord(name) && PlainWord(a) && PlainWord(b)
    ensures ListedEntry(Str(name + "=" + ("[" + (a + " " + b) + "]")), types, n) ==
      Ok(Listed(name, if types then Some("str") else None, Many([Str(a), Str(b)])))
  {
    PairSetting(name, a, b);
    PlainWordFacts(a);
    PlainWordFacts(b);
    BracketedPair(a, b);
    PairCasts(a, b, n);
  }

  /** The setting `name=[a b]` is untyped text. */
  lemma PairSetting(name: string, a: string, b: string)
    requires PlainWord(name) && PlainWord(a) && PlainWord(b)
    ensures ParseStrSetting(name + "=" + ("[" + (a + " " + b) + "]")) == Ok(Setting(name, "str", "[" + (a + " " + b) + "]"))
  {
    var opt := "[" + (a + " " + b) + "]";
    PlainWordFacts(name);
    PlainPair(a, b);
    PlainSetting(name, opt);
    assert ParseConfigType(opt) == Ok(Typed("str", opt));
  }

  /** `[a b]` for plain words holds no '=' or '<' and is unchanged by lowercasing and
      stripping. */
  lemma PlainPair(a: string, b: string)
    requires PlainWord(a) && PlainWord(b)
    ensures var opt := "[" + (a + " " + b) + "]";
      '=' !in opt && '<' !in opt && Strip(Lower(opt)) == opt
  {
    PlainWordFacts(a);
    PlainWordFacts(b);
    var x := a + " " + b;
    assert Lower(x) == x by {
      LowerOfLower(" ");
      LowerAppend(a, " ");
      LowerAppend(a + " ", b);
    }
    PlainBracketed(x);
    assert '=' !in x && '<' !in x by {
      forall c | c in x ensures c != '=' && c != '<' {
        assert c in a || c in b || c == ' ';
      }
    }
  }

  /** Two plain words cast as text. */
  lemma PairCasts(a: string, b: string, n: Natives)
    requires PlainWord(a) && PlainWord(b)
    ensures CastTokens([a, b], "str", n) == Ok([Str(a), Str(b)])
  {
    StrTokenCast(a, n);
    StrTokenCast(b, n);
    CastTokensCons(b, [], "str", n);
    assert [b] + [] == [b] && [Str(b)] + [] == [Str(b)];
    CastTokensCons(a, [b], "str", n);
    assert [a] + [b] == [a, b] && [Str(a)] + [Str(b)] == [Str(a), Str(b)];
  }

  lemma CastTokensCons(x: string, rest: seq<string>, t: string, n: Natives)
    requires CastToken(x, t, n).Ok? && CastTokens(rest, t, n).Ok?
    ensures CastTokens([x] + rest, t, n) == Ok([CastToken(x, t, n).value] + CastTokens(rest, t, n).value)
  {
    assert ([x] + rest)[1..] == rest;
  }

  /** Bracketed text that is already lower case is unchanged by lowercasing and stripping. */
  lemma PlainBracketed(x: string)
    requires Lower(x) == x
    ensures Strip(Lower("[" + x + "]")) == "[" + x + "]"
  {
    LowerOfLower("[");
    LowerOfLower("]");
    LowerAppend("[", x);
    LowerAppend("[" + x, "]");
    StripPlain("[" + x + "]");
  }

  /** Two plain words in brackets are the two tokens. */
  lemma BracketedPair(a: string, b: string)
    requires '[' !in a && ']' !in a && '\n' !in a && ' ' !in a
    requires '[' !in b && ']' !in b && '\n' !in b && ' ' !in b
    ensures Tokens("[" + (a + " " + b) + "]") == [a, b]
  {
    var inner := a + " " + b;
    assert forall c :: c in inner ==> c !in "[]" by {
      forall c | c in inner ensures c !in "[]" {
        assert c in a || c in b || c == ' ';
      }
    }
    RemoveCharsAppend("[", inner + "]", "[]", None);
    RemoveCharsAppend(inner, "]", "[]", None);
    RemoveCharsNoop(inner, "[]", None);
    assert RemoveChars("[", "[]") == [] && RemoveChars("]", "[]") == [];
    assert "[" + (a + " " + b) + "]" == "[" + (inner + "]");
    assert RemoveChars("[" + (a + " " + b) + "]", "[]") == inner;
    assert forall c :: c in inner ==> c !in "\n" by {
      forall c | c in inner ensures c !in "\n" {
        assert c in a || c in b || c == ' ';
      }
    }
    RemoveCharsNoop(inner, "\n", Some(" "));
    assert inner == a + [' '] + b;
    SplitOnce(a, b, ' ');
  }

  /** Under the type `str` a plain word is kept as it is. */
  lemma StrTokenCast(d: string, n: Natives)
    requires PlainWord(d)
    ensures CastToken(d, "str", n) == Ok(Str(d))
  {
    LowerOfLower(d);
    NoInfixByChar("str", "datetime", 'd');
    NoInfixByChar("str", "bool", 'b');
    NoInfixByChar("str", "int", 'i');
    NoInfixByChar("str", "float", 'f');
    assert HasInfix("str", "str");
  }

  // ------------------------------------------------------------ add_defaults

  /** A plain config dictionary that the helpers update in place and hand back. */
  class ConfigDict {
    var cfg: Cfg

    constructor (cfg: Cfg)
      ensures this.cfg == cfg
    {
      this.cfg := cfg;
    }
  }

  /** `v.name not in configured.keys()`, negated: whether the entry's name is already a key
      of the section. A name that is not text is never a key; a list name is unhashable. */
  function Configured(e: ConfigEntry, sec: OrdMap<Value>): Result<bool> {
    match e.name
    case One(Str(s)) => Ok(s in sec.vals)
    case One(_) => Ok(false)
    case Many(_) => Err(TypeError)
  }

  /** The master items `ks` of section `s` in order: an entry whose name is not configured
      puts its default under the item's key. */
  function DefaultsItems(ms: OrdMap<ConfigEntry>, s: string, ks: seq<string>, cfg: Cfg): Outcome
    requires s in cfg.vals
    decreases |ks|
  {
    if ks == [] then Outcome(cfg, None)
    else if ks[0] !in ms.vals then Outcome(cfg, Some(KeyError(Some(ks[0]))))
    else
      var e := ms.vals[ks[0]];
      match Configured(e, cfg.vals[s])
      case Err(err) => Outcome(cfg, Some(err))
      case Ok(true) => DefaultsItems(ms, s, ks[1..], cfg)
      case Ok(false) => DefaultsItems(ms, s, ks[1..], cfg.Put(s, cfg.vals[s].Put(ks[0], e.default)))
  }

  /** The user sections `ss` in order; one the master config lacks raises KeyError. */
  function DefaultsSections(m: Master, ss: seq<string>, cfg: Cfg): Outcome
    decreases |ss|
  {
    if ss == [] then Outcome(cfg, None)
    else if ss[0] !in cfg.vals || ss[0] !in m.vals then Outcome(cfg, Some(KeyError(Some(ss[0]))))
    else
      var o := DefaultsItems(m.vals[ss[0]], ss[0], m.vals[ss[0]].keys, cfg);
      if o.error.Some? then o else DefaultsSections(m, ss[1..], o.cfg)
  }

  /** `add_defaults(user_config, master_config)`. */
  function Defaults(m: Master, cfg: Cfg): Outcome {
    DefaultsSections(m, cfg.keys, cfg)
  }

  /** `add_defaults(u, m)`: the dictionary is filled in place and returned. */
  method AddDefaults(u: ConfigDict, m: Master) returns (r: Result<ConfigDict>)
    modifies u
    ensures r.Ok? ==> r.value == u
    ensures Outcome(u.cfg, if r.Ok? then None else Some(r.error)) == Defaults(m, old(u.cfg))
  {
    var sections := u.cfg.keys;
    var k := 0;
    while k < |sections|
      invariant 0 <= k <= |sections|
      invariant Defaults(m, old(u.cfg)) == DefaultsSections(m, sections[k..], u.cfg)
    {
      assert sections[k..][1..] == sections[k + 1..];
      var s := sections[k];
      if s !in u.cfg.vals || s !in m.vals {
        return Err(KeyError(Some(s)));
      }
      var err := FillSection(u, m.vals[s], s);
      if err.Some? {
        return Err(err.value);
      }
      k := k + 1;
    }
    return Ok(u);
  }

  /** The master items of one section, in order. */
  method FillSection(u: ConfigDict, ms: OrdMap<ConfigEntry>, s: string) returns (err: Option<Error>)
    requires s in u.cfg.vals
    modifies u
    ensures Outcome(u.cfg, err) == DefaultsItems(ms, s, ms.keys, old(u.cfg))
  {
    var k := 0;
    while k < |ms.keys|
      invariant 0 <= k <= |ms.keys| && s in u.cfg.vals
      invariant DefaultsItems(ms, s, ms.keys, old(u.cfg)) == DefaultsItems(ms, s, ms.keys[k..], u.cfg)
    {
      assert ms.keys[k..][1..] == ms.keys[k + 1..];
      var key := ms.keys[k];
      if key !in ms.vals {
        return Some(KeyError(Some(key)));
      }
      var v := ms.vals[key];
      var found := Configured(v, u.cfg.vals[s]);
      if found.Err? {
        return Some(found.error);
      }
      if !found.value {
        u.cfg := u.cfg.Put(s, u.cfg.vals[s].Put(key, v.default));
      }
      k := k + 1;
    }
    return None;
  }

  /** Every master entry is named by its own key, as a master config read from a file
      without `name` properties is. */
  ghost predicate NamedByKey(m: Master) {
    forall s, k :: s in m.vals && k in m.vals[s].vals ==> m.vals[s].vals[k].name == One(Str(k))
  }

  /** `after` has the sections of `before`, in the same order, keeps every item of them with
      its value, and holds besides only master defaults. */
  ghost predicate OnlyDefaultsAdded(m: Master, before: Cfg, after: Cfg) {
    && after.keys == before.keys && after.vals.Keys == before.vals.Keys
    && forall s :: s in before.vals ==>
         && (forall i :: i in before.vals[s].vals ==> i in after.vals[s].vals && after.vals[s].vals[i] == before.vals[s].vals[i])
         && (forall i :: i in after.vals[s].vals && i !in before.vals[s].vals ==>
               s in m.vals && i in m.vals[s].vals && after.vals[s].vals[i] == m.vals[s].vals[i].default)
  }

  lemma OnlyDefaultsTrans(m: Master, a: Cfg, b: Cfg, c: Cfg)
    requires OnlyDefaultsAdded(m, a, b) && OnlyDefaultsAdded(m, b, c)
    ensures OnlyDefaultsAdded(m, a, c)
  {
  }

  /** One default added to a section the master config has. */
  lemma OnlyDefaultsPut(m: Master, cfg: Cfg, s: string, k: string)
    requires s in cfg.vals && s in m.vals && k in m.vals[s].vals && k !in cfg.vals[s].vals
    ensures OnlyDefaultsAdded(m, cfg, cfg.Put(s, cfg.vals[s].Put(k, m.vals[s].vals[k].default)))
  {
  }

  /** Filling one section only adds defaults, and, when it finishes, every master item of
      the section is there. */
  lemma {:induction false} DefaultsItemsSpec(m: Master, s: string, ks: seq<string>, cfg: Cfg)
    requires NamedByKey(m) && s in m.vals && s in cfg.vals
    ensures var o := DefaultsItems(m.vals[s], s, ks, cfg);
      && OnlyDefaultsAdded(m, cfg, o.cfg)
      && (o.error.None? ==> forall k :: k in ks ==> k in o.cfg.vals[s].vals)
    decreases |ks|
  {
    var ms := m.vals[s];
    if ks != [] && ks[0] in ms.vals {
      var k := ks[0];
      var next := if k in cfg.vals[s].vals then cfg else cfg.Put(s, cfg.vals[s].Put(k, ms.vals[k].default));
      if k !in cfg.vals[s].vals {
        OnlyDefaultsPut(m, cfg, s, k);
      }
      assert ms.vals[k].name == One(Str(k));
      assert k in next.vals[s].vals;
      assert DefaultsItems(ms, s, ks, cfg) == DefaultsItems(ms, s, ks[1..], next);
      DefaultsItemsSpec(m, s, ks[1..], next);
      OnlyDefaultsTrans(m, cfg, next, DefaultsItems(ms, s, ks, cfg).cfg);
    }
  }

  /** Filling the sections `ss` only adds defaults, and, when it finishes, every master item
      of each of them is there. */
  lemma {:induction false} DefaultsSectionsSpec(m: Master, ss: seq<string>, cfg: Cfg)
    requires NamedByKey(m)
    ensures var o := DefaultsSections(m, ss, cfg);
      && OnlyDefaultsAdded(m, cfg, o.cfg)
      && (o.error.None? ==> forall s :: s in ss ==> Filled(m, s, o.cfg))
    decreases |ss|
  {
    if ss != [] && ss[0] in cfg.vals && ss[0] in m.vals {
      var s := ss[0];
      var o1 := DefaultsItems(m.vals[s], s, m.vals[s].keys, cfg);
      DefaultsItemsSpec(m, s, m.vals[s].keys, cfg);
      if o1.error.None? {
        var o := DefaultsSections(m, ss[1..], o1.cfg);
        DefaultsSectionsSpec(m, ss[1..], o1.cfg);
        OnlyDefaultsTrans(m, cfg, o1.cfg, o.cfg);
        if o.error.None? {
          assert Filled(m, s, o1.cfg);
          assert Filled(m, s, o.cfg);
        }
      }
    }
  }

  /** Section `s` is in both configs and has every item of the master section. */
  ghost predicate Filled(m: Master, s: string, cfg: Cfg) {
    s in m.vals && s in cfg.vals && forall k :: k in m.vals[s].keys ==> k in cfg.vals[s].vals
  }

  /** `add_defaults` adds the master default of every master item missing from a section
      the user has, never overwrites an item, never adds a section, and keeps the section
      order. */
  lemma DefaultsSpec(m: Master, cfg: Cfg)
    requires NamedByKey(m)
    ensures OnlyDefaultsAdded(m, cfg, Defaults(m, cfg).cfg)
    ensures Defaults(m, cfg).error.None? ==>
      forall s :: s in cfg.keys ==> Filled(m, s, Defaults(m, cfg).cfg)
  {
    DefaultsSectionsSpec(m, cfg.keys, cfg);
  }

  /** A user section the master config lacks stops the pass, before any section after it. */
  lemma DefaultsUnknownSection(m: Master, cfg: Cfg)
    requires cfg.keys != [] && cfg.keys[0] in cfg.vals && cfg.keys[0] !in m.vals
    ensures Defaults(m, cfg) == Outcome(cfg, Some(KeyError(Some(cfg.keys[0]))))
  {
  }

  // ------------------------------------------------------------ update_config_paths

  /** The entry types whose values are paths. */
  predicate IsPathType(t: Value) {
    t == One(Str("filename")) || t == One(Str("directory"))
  }

  /** What `update_config_paths` does to the value `d` of item `item` in section `s`:
      `None` when it is left alone, the new path when it is rewritten. Only a registered,
      non-None value of a path type that is not absolute is rewritten, to the value joined
      under the directory of the config file. */
  function NewPath(m: Master, s: string, item: string, d: Value, path: Option<string>): Result<Option<string>> {
    if s !in m.vals then Err(KeyError(Some(s)))
    else if item !in m.vals[s].vals || d == One(Null) || !IsPathType(m.vals[s].vals[item].typ) then Ok(None)
    else
      match d
      case One(Str(p)) =>
        if IsAbs(p) then Ok(None)
        else if path.None? then Err(TypeError)  // `os.path.split(None)`
        else Ok(Some(PathJoin(DirName(path.value), p)))
      case _ => Err(TypeError)  // `os.path.isabs` needs text
  }

  /** The items `ks` of section `s`, in order, each rewritten in place when due. */
  function PathItems(m: Master, s: string, ks: seq<string>, path: Option<string>, cfg: Cfg): Outcome
    requires s in cfg.vals
    decreases |ks|
  {
    if ks == [] then Outcome(cfg, None)
    else if ks[0] !in cfg.vals[s].vals then Outcome(cfg, Some(KeyError(Some(ks[0]))))
    else
      match NewPath(m, s, ks[0], cfg.vals[s].vals[ks[0]], path)
      case Err(e) => Outcome(cfg, Some(e))
      case Ok(None) => PathItems(m, s, ks[1..], path, cfg)
      case Ok(Some(p)) => PathItems(m, s, ks[1..], path, cfg.Put(s, cfg.vals[s].Put(ks[0], One(Str(p)))))
  }

  /** The sections `ss`, in order. */
  function PathSections(m: Master, ss: seq<string>, path: Option<string>, cfg: Cfg): Outcome
    decreases |ss|
  {
    if ss == [] then Outcome(cfg, None)
    else if ss[0] !in cfg.vals then Outcome(cfg, Some(KeyError(Some(ss[0]))))
    else
      var o := PathItems(m, ss[0], cfg.vals[ss[0]].keys, path, cfg);
      if o.error.Some? then o else PathSections(m, ss[1..], path, o.cfg)
  }

  /** `update_config_paths(cfg, user_cfg_path, mcfg)`. */
  function ConfigPaths(m: Master, cfg: Cfg, path: Option<string>): Outcome {
    PathSections(m, cfg.keys, path, cfg)
  }

  /** `update_config_paths(u, path, m)`: the dictionary is rewritten in place and returned. */
  method UpdateConfigPaths(u: ConfigDict, path: Option<string>, m: Master) returns (r: Result<ConfigDict>)
    modifies u
    ensures r.Ok? ==> r.value == u
    ensures Outcome(u.cfg, if r.Ok? then None else Some(r.error)) == ConfigPaths(m, old(u.cfg), path)
  {
    var sections := u.cfg.keys;
    var k := 0;
    while k < |sections|
      invariant 0 <= k <= |sections|
      invariant ConfigPaths(m, old(u.cfg), path) == PathSections(m, sections[k..], path, u.cfg)
    {
      assert sections[k..][1..] == sections[k + 1..];
      var s := sections[k];
      if s !in u.cfg.vals {
        return Err(KeyError(Some(s)));
      }
      var err := UpdateSection(u, m, s, path);
      if err.Some? {
        return Err(err.value);
      }
      k := k + 1;
    }
    return Ok(u);
  }

  /** The items of one section, in order. */
  method UpdateSection(u: ConfigDict, m: Master, s: string, path: Option<string>) returns (err: Option<Error>)
    requires s in u.cfg.vals
    modifies u
    ensures Outcome(u.cfg, err) == PathItems(m, s, old(u.cfg).vals[s].keys, path, old(u.cfg))
  {
    var items := u.cfg.vals[s].keys;
    var k := 0;
    while k < |items|
      invariant 0 <= k <= |items| && s in u.cfg.vals
      invariant PathItems(m, s, items, path, old(u.cfg)) == PathItems(m, s, items[k..], path, u.cfg)
    {
      assert items[k..][1..] == items[k + 1..];
      var item := items[k];
      if item !in u.cfg.vals[s].vals {
        return Some(KeyError(Some(item)));
      }
      var d := u.cfg.vals[s].vals[item];
      if s !in m.vals {
        return Some(KeyError(Some(s)));
      }
      if item in m.vals[s].vals && d != One(Null) && IsPathType(m.vals[s].vals[item].typ) {
        if !d.One? || !d.x.Str? {
          return Some(TypeError);
        }
        if !IsAbs(d.x.s) {
          if path.None? {
            return Some(TypeError);
          }
          u.cfg := u.cfg.Put(s, u.cfg.vals[s].Put(item, One(Str(PathJoin(DirName(path.value), d.x.s)))));
        }
      }
      k := k + 1;
    }
    return None;
  }

  /** The value an item has after the pass: the new path, or the value as it was. */
  function Rewrite(m: Master, s: string, item: string, d: Value, path: Option<string>): Value {
    match NewPath(m, s, item, d, path)
    case Ok(Some(p)) => One(Str(p))
    case _ => d
  }

  /** A rewritten path ends with the value as written and starts with the directory of the
      config file; under an absolute directory it is absolute. */
  lemma NewPathShape(m: Master, s: string, item: string, d: Value, path: Option<string>)
    requires NewPath(m, s, item, d, path).Ok? && NewPath(m, s, item, d, path).value.Some?
    ensures var p := NewPath(m, s, item, d, path).value.value;
      && s in m.vals && item in m.vals[s].vals && IsPathType(m.vals[s].vals[item].typ)
      && d.One? && d.x.Str? && !IsAbs(d.x.s) && path.Some?
      && |d.x.s| <= |p| && p[|p| - |d.x.s|..] == d.x.s
      && p[..|DirName(path.value)|] == DirName(path.value)
      && (IsAbs(DirName(path.value)) ==> IsAbs(p))
  {
    JoinCases(DirName(path.value), d.x.s);
  }

  /** Every section's keys are distinct and are its items. */
  ghost predicate SectionsValid(cfg: Cfg) {
    forall s :: s in cfg.vals ==> cfg.vals[s].Valid()
  }

  /** `before` and `after` have the same sections and items, in the same order. */
  ghost predicate SameShape(before: Cfg, after: Cfg) {
    && after.keys == before.keys && after.vals.Keys == before.vals.Keys
    && forall s :: s in before.vals ==>
         after.vals[s].keys == before.vals[s].keys && after.vals[s].vals.Keys == before.vals[s].vals.Keys
  }

  /** One item rewritten when due: the config after that item. */
  function ApplyItem(m: Master, s: string, k: string, path: Option<string>, cfg: Cfg): (r: Cfg)
    requires s in cfg.vals && k in cfg.vals[s].vals
    ensures SameShape(cfg, r)
    ensures forall t :: t in cfg.vals && t != s ==> r.vals[t] == cfg.vals[t]
    ensures r.vals[s].vals[k] == Rewrite(m, s, k, cfg.vals[s].vals[k], path)
    ensures forall i :: i in cfg.vals[s].vals && i != k ==> r.vals[s].vals[i] == cfg.vals[s].vals[i]
  {
    match NewPath(m, s, k, cfg.vals[s].vals[k], path)
    case Ok(Some(p)) => cfg.Put(s, cfg.vals[s].Put(k, One(Str(p))))
    case _ => cfg
  }

  lemma PathItemsStep(m: Master, s: string, ks: seq<string>, path: Option<string>, cfg: Cfg)
    requires s in cfg.vals && ks != [] && ks[0] in cfg.vals[s].vals
    requires NewPath(m, s, ks[0], cfg.vals[s].vals[ks[0]], path).Ok?
    ensures PathItems(m, s, ks, path, cfg) == PathItems(m, s, ks[1..], path, ApplyItem(m, s, ks[0], path, cfg))
  {
  }

  /** The items rewritten so far: `after` agrees with `before` outside section `s`, and in
      it holds the rewritten values of the items `ks` and the old values of the others. */
  ghost predicate RewrittenItems(m: Master, s: string, ks: seq<string>, path: Option<string>, before: Cfg, after: Cfg)
    requires s in before.vals && SameShape(before, after)
  {
    && (forall t :: t in before.vals && t != s ==> after.vals[t] == before.vals[t])
    && (forall i :: i in before.vals[s].vals ==>
          after.vals[s].vals[i] == if i in ks then Rewrite(m, s, i, before.vals[s].vals[i], path) else before.vals[s].vals[i])
  }

  /** A finished walk over the distinct items `ks` of section `s` rewrites each of them
      and changes nothing else. */
  lemma {:induction false} PathItemsSpec(m: Master, s: string, ks: seq<string>, path: Option<string>, cfg: Cfg)
    requires s in cfg.vals
    requires forall i, j :: 0 <= i < j < |ks| ==> ks[i] != ks[j]
    ensures var o := PathItems(m, s, ks, path, cfg);
      o.error.None? ==>
        && SameShape(cfg, o.cfg)
        && RewrittenItems(m, s, ks, path, cfg, o.cfg)
        && (forall i :: i in ks ==> i in cfg.vals[s].vals && NewPath(m, s, i, cfg.vals[s].vals[i], path).Ok?)
    decreases |ks|
  {
    if ks != [] && ks[0] in cfg.vals[s].vals && NewPath(m, s, ks[0], cfg.vals[s].vals[ks[0]], path).Ok? {
      var k := ks[0];
      var next := ApplyItem(m, s, k, path, cfg);
      PathItemsStep(m, s, ks, path, cfg);
      TailDistinct(ks);
      PathItemsSpec(m, s, ks[1..], path, next);
      var o := PathItems(m, s, ks, path, cfg);
      if o.error.None? {
        forall i | i in cfg.vals[s].vals
          ensures o.cfg.vals[s].vals[i] == if i in ks then Rewrite(m, s, i, cfg.vals[s].vals[i], path) else cfg.vals[s].vals[i]
        {
          if i != k {
            assert next.vals[s].vals[i] == cfg.vals[s].vals[i];
          }
        }
      }
    }
  }

  /** The tail of a list of distinct names is distinct and lacks the head. */
  lemma TailDistinct(xs: seq<string>)
    requires xs != [] && forall i, j :: 0 <= i < j < |xs| ==> xs[i] != xs[j]
    ensures forall i, j :: 0 <= i < j < |xs[1..]| ==> xs[1..][i] != xs[1..][j]
    ensures xs[0] !in xs[1..]
  {
    forall i, j | 0 <= i < j < |xs[1..]| ensures xs[1..][i] != xs[1..][j] {
      assert xs[1..][i] == xs[i + 1] && xs[1..][j] == xs[j + 1];
    }
    forall j | 0 <= j < |xs[1..]| ensures xs[1..][j] != xs[0] {
      assert xs[1..][j] == xs[j + 1];
    }
  }

  /** The sections rewritten so far: `after` holds the rewritten values of the items of the
      sections `ss` and the old values of the others. */
  ghost predicate RewrittenSections(m: Master, ss: seq<string>, path: Option<string>, before: Cfg, after: Cfg)
    requires SameShape(before, after)
  {
    forall s, i :: s in before.vals && i in before.vals[s].vals ==>
      after.vals[s].vals[i] == if s in ss then Rewrite(m, s, i, before.vals[s].vals[i], path) else before.vals[s].vals[i]
  }

  /** Every item of the sections `ss` passes without error. */
  ghost predicate AllPathsOk(m: Master, ss: seq<string>, path: Option<string>, cfg: Cfg) {
    forall s :: s in ss ==> s in cfg.vals && forall i :: i in cfg.vals[s].vals ==> NewPath(m, s, i, cfg.vals[s].vals[i], path).Ok?
  }

  /** The first section of a pass that went through: its items are rewritten, the rest of
      the config is as it was, and the pass goes on from there. */
  lemma PathSectionsStep(m: Master, ss: seq<string>, path: Option<string>, cfg: Cfg)
    requires SectionsValid(cfg) && ss != [] && ss[0] in cfg.vals
    requires PathItems(m, ss[0], cfg.vals[ss[0]].keys, path, cfg).error.None?
    ensures var o1 := PathItems(m, ss[0], cfg.vals[ss[0]].keys, path, cfg);
      && PathSections(m, ss, path, cfg) == PathSections(m, ss[1..], path, o1.cfg)
      && SameShape(cfg, o1.cfg) && SectionsValid(o1.cfg)
      && RewrittenSections(m, [ss[0]], path, cfg, o1.cfg)
      && AllPathsOk(m, [ss[0]], path, cfg)
  {
    var s := ss[0];
    var o1 := PathItems(m, s, cfg.vals[s].keys, path, cfg);
    assert cfg.vals[s].Valid();
    PathItemsSpec(m, s, cfg.vals[s].keys, path, cfg);
    forall t | t in o1.cfg.vals ensures o1.cfg.vals[t].Valid() {
      assert cfg.vals[t].Valid();
    }
  }

  /** A finished pass over the distinct sections `ss` rewrites every item of them and
      changes nothing else. */
  lemma {:induction false} PathSectionsSpec(m: Master, ss: seq<string>, path: Option<string>, cfg: Cfg)
    requires SectionsValid(cfg)
    requires forall i, j :: 0 <= i < j < |ss| ==> ss[i] != ss[j]
    ensures var o := PathSections(m, ss, path, cfg);
      o.error.None? ==>
        && SameShape(cfg, o.cfg) && SectionsValid(o.cfg)
        && RewrittenSections(m, ss, path, cfg, o.cfg)
        && AllPathsOk(m, ss, path, cfg)
    decreases |ss|
  {
    if ss != [] && ss[0] in cfg.vals {
      var s := ss[0];
      var o1 := PathItems(m, s, cfg.vals[s].keys, path, cfg);
      if o1.error.None? {
        PathSectionsStep(m, ss, path, cfg);
        TailDistinct(ss);
        PathSectionsSpec(m, ss[1..], path, o1.cfg);
        var o := PathSections(m, ss, path, cfg);
        if o.error.None? {
          forall t, i | t in cfg.vals && i in cfg.vals[t].vals
            ensures o.cfg.vals[t].vals[i] == if t in ss then Rewrite(m, t, i, cfg.vals[t].vals[i], path) else cfg.vals[t].vals[i]
          {
            assert t in [s] <==> t == s;
          }
          forall t | t in ss
            ensures t in cfg.vals && forall i :: i in cfg.vals[t].vals ==> NewPath(m, t, i, cfg.vals[t].vals[i], path).Ok?
          {
            assert t == s || t in ss[1..];
            assert t in [s] <==> t == s;
          }
        }
      }
    }
  }

  /** When every item is already left alone, the pass changes nothing. */
  lemma {:induction false} PathItemsFixed(m: Master, s: string, ks: seq<string>, path: Option<string>, cfg: Cfg)
    requires s in cfg.vals
    requires forall i :: i in ks ==> i in cfg.vals[s].vals && NewPath(m, s, i, cfg.vals[s].vals[i], path) == Ok(None)
    ensures PathItems(m, s, ks, path, cfg) == Outcome(cfg, None)
    decreases |ks|
  {
    if ks != [] {
      assert ks[0] in ks;
      PathItemsFixed(m, s, ks[1..], path, cfg);
    }
  }

  lemma {:induction false} PathSectionsFixed(m: Master, ss: seq<string>, path: Option<string>, cfg: Cfg)
    requires SectionsValid(cfg)
    requires forall s :: s in ss ==> s in cfg.vals
    requires forall s, i :: s in ss && i in cfg.vals[s].vals ==> NewPath(m, s, i, cfg.vals[s].vals[i], path) == Ok(None)
    ensures PathSections(m, ss, path, cfg) == Outcome(cfg, None)
    decreases |ss|
  {
    if ss != [] {
      assert ss[0] in ss;
      assert cfg.vals[ss[0]].Valid();
      PathItemsFixed(m, ss[0], cfg.vals[ss[0]].keys, path, cfg);
      PathSectionsFixed(m, ss[1..], path, cfg);
    }
  }

  /** A value the pass produced is left alone by a second pass when the config file's
      directory is absolute. */
  lemma RewriteFixed(m: Master, s: string, i: string, d: Value, path: Option<string>)
    requires NewPath(m, s, i, d, path).Ok?
    requires path.Some? && IsAbs(DirName(path.value))
    ensures NewPath(m, s, i, Rewrite(m, s, i, d, path), path) == Ok(None)
  {
    if NewPath(m, s, i, d, path).value.Some? {
      NewPathShape(m, s, i, d, path);
    }
  }

  /** Under an absolute config directory the pass is idempotent: a second pass over its
      result changes nothing. */
  lemma PathsIdempotent(m: Master, cfg: Cfg, path: Option<string>)
    requires cfg.Valid() && SectionsValid(cfg)
    requires path.Some? && IsAbs(DirName(path.value))
    requires ConfigPaths(m, cfg, path).error.None?
    ensures ConfigPaths(m, ConfigPaths(m, cfg, path).cfg, path) == Outcome(ConfigPaths(m, cfg, path).cfg, None)
  {
    var o := ConfigPaths(m, cfg, path);
    PathSectionsSpec(m, cfg.keys, path, cfg);
    forall s, i | s in o.cfg.keys && i in o.cfg.vals[s].vals
      ensures NewPath(m, s, i, o.cfg.vals[s].vals[i], path) == Ok(None)
    {
      RewriteFixed(m, s, i, cfg.vals[s].vals[i], path);
    }
    PathSectionsFixed(m, o.cfg.keys, path, o.cfg);
  }

  // ------------------------------------------------------------ check_config_file

  /** The sections that provide station data; the user config needs one of them. */
  const DataSections: seq<string> := ["csv", "mysql", "gridded"]

  const MissingSection: string := "Missing required section."
  const NoDataSection: string := "Must specify a CSV or MySQL or Gridded section."
  const NotASection: string := "Not a valid section."
  const StationNames: string := " Common for station names."

  /** The walk over the master sections `ms`: the errors so far and whether a data section
      listed by the master is present in the user config. */
  function RequiredScan(ms: seq<string>, cfg: Cfg, errs: seq<string>, has: bool): (seq<string>, bool)
    decreases |ms|
  {
    if ms == [] then (errs, has)
    else
      var s := ms[0];
      if s !in cfg.vals && s !in DataSections then
        RequiredScan(ms[1..], cfg, if "gridded" !in cfg.vals && s == "stations" then errs + [Line(s, " ", MissingSection)] else errs, has)
      else if s in cfg.vals && s in DataSections then RequiredScan(ms[1..], cfg, errs, true)
      else RequiredScan(ms[1..], cfg, errs, has)
  }

  /** The errors about sections the user config lacks. */
  function RequiredErrors(m: Master, cfg: Cfg): seq<string> {
    var (errs, has) := RequiredScan(m.keys, cfg, [], false);
    if has then errs else errs + [Line(" ", " ", NoDataSection)]
  }

  /** A data section both the master and the user config have. */
  predicate HasDataSection(ms: seq<string>, cfg: Cfg) {
    || ("csv" in ms && "csv" in cfg.vals)
    || ("mysql" in ms && "mysql" in cfg.vals)
    || ("gridded" in ms && "gridded" in cfg.vals)
  }

  /** `stations` is required, unless gridded data stands in for it. */
  predicate StationsMissing(ms: seq<string>, cfg: Cfg) {
    "stations" in ms && "stations" !in cfg.vals && "gridded" !in cfg.vals
  }

  /** Python's `==` between two values: numbers compare by value across bool, int and
      float; text, timestamps and None only equal their own kind. */
  function Number(x: Scalar): Option<real> {
    match x
    case Bool(b) => Some(if b then 1.0 else 0.0)
    case Int(i) => Some(i as real)
    case Float(f) => Some(f)
    case _ => None
  }

  predicate PyEq(a: Scalar, b: Scalar) {
    match (a, b)
    case (Str(x), Str(y)) => x == y
    case (Date(x), Date(y)) => x == y
    case (Null, Null) => true
    case _ => Number(a).Some? && Number(a) == Number(b)
  }

  /** `v in options`; a list never equals a single option. */
  predicate Among(v: Value, options: seq<Scalar>) {
    v.One? && exists k :: 0 <= k < |options| && PyEq(v.x, options[k])
  }

  /** The warning text for an item the master section does not list. */
  function UnregisteredText(section: string): string {
    if Lower(section) == "wind" then Unregistered + StationNames else Unregistered
  }

  /** An error line for `section` and `item`. */
  function AddError(acc: Report, section: string, item: string, text: string): Report {
    acc.(errors := acc.errors + [Line(section, item, text)])
  }

  function AddWarning(acc: Report, section: string, item: string, text: string): Report {
    acc.(warnings := acc.warnings + [Line(section, item, text)])
  }

  /** A path value placed under the config file's directory when the file is known;
      `os.path.join` needs text. */
  function Joined(path: Option<string>, v: Value): Result<Value> {
    if path.None? then Ok(v)
    else if v.One? && v.x.Str? then Ok(One(Str(PathJoin(DirName(path.value), v.x.s))))
    else Err(TypeError)
  }

  /** The test for the type `t` of the converted value `v`: the issues after it and the
      value the option test sees (a path after joining). */
  function TypeIssues(n: Natives, path: Option<string>, section: string, item: string, t: Value, v: Value,
                      acc: Report): Result<(Report, Value)>
  {
    if t == One(Str("datetime")) then
      Ok((if n.toDatetime(v).None? then AddError(acc, section, item, "Format not datetime") else acc, v))
    else if t == One(Str("filename")) then
      var p :- Joined(path, v);
      match n.isFile(p)
      case None => Err(TypeError)
      case Some(found) => Ok((if found then acc else AddError(acc, section, item, "Path does not exist"), p))
    else if t == One(Str("directory")) then
      var p :- Joined(path, v);
      match n.isDir(p)
      case None => Err(TypeError)
      case Some(found) => Ok((if found then acc else AddWarning(acc, section, item, "Directory does not exist"), p))
    else
      match t
      case One(Str(ts)) =>
        Ok((if HasInfix(ClassText(v), ts) then acc
            else AddError(acc, section, item, "Expecting a " + ts + " recieved " + ClassText(v)), v))
      case _ => Err(TypeError)  // `in <string>` needs text on its left
  }

  /** The text of the error for a value outside the options. */
  function InvalidOption(v: Value, n: Natives): string {
    "Invalid option: " + PyStr(v, n) + " "
  }

  /** One value that is not None: converted by the entry of the lowercased name, then held
      against the type and options of the entry under the name as written. */
  function ValueIssues(n: Natives, msec: OrdMap<ConfigEntry>, path: Option<string>, section: string, item: string,
                       v: Scalar, acc: Report): Result<Report>
    requires Lower(item) in msec.vals
  {
    var e := msec.vals[Lower(item)];
    var cv :- Convert(e.typ, e.convertType, One(v), n);
    if item !in msec.vals then Err(KeyError(Some(item)))
    else
      var entry := msec.vals[item];
      var (acc1, v1) :- TypeIssues(n, path, section, item, entry.typ, cv, acc);
      Ok(if entry.options != [] && !Among(v1, entry.options) then AddError(acc1, section, item, InvalidOption(v1, n)) else acc1)
  }

  /** The values of a registered item in order; None values are skipped. */
  function ValuesIssues(n: Natives, msec: OrdMap<ConfigEntry>, path: Option<string>, section: string, item: string,
                        vs: seq<Scalar>, acc: Report): Result<Report>
    requires Lower(item) in msec.vals
    decreases |vs|
  {
    if vs == [] then Ok(acc)
    else if vs[0] == Null then ValuesIssues(n, msec, path, section, item, vs[1..], acc)
    else
      var next :- ValueIssues(n, msec, path, section, item, vs[0], acc);
      ValuesIssues(n, msec, path, section, item, vs[1..], next)
  }

  /** One item of a user section: a warning when its lowercased name is not registered,
      nothing for `stations`, else its values. */
  function ItemIssues(n: Natives, m: Master, path: Option<string>, section: string, item: string, value: Value,
                      acc: Report): Result<Report>
  {
    if section !in m.vals then Err(KeyError(Some(section)))
    else if Lower(item) !in m.vals[section].vals then Ok(AddWarning(acc, section, item, UnregisteredText(section)))
    else if Lower(item) == "stations" then Ok(acc)
    else ValuesIssues(n, m.vals[section], path, section, item, MkLst(value), acc)
  }

  /** The report so far and the loop variable `item`, as the last item loop left it. */
  datatype Walk = Walk(report: Report, item: Option<string>)

  /** The items `keys` of one user section, in order. */
  function ItemsIssues(n: Natives, m: Master, path: Option<string>, section: string, sec: OrdMap<Value>,
                       keys: seq<string>, w: Walk): Result<Walk>
    decreases |keys|
  {
    if keys == [] then Ok(w)
    else if keys[0] !in sec.vals then Err(KeyError(Some(keys[0])))
    else
      var r :- ItemIssues(n, m, path, section, keys[0], sec.vals[keys[0]], w.report);
      ItemsIssues(n, m, path, section, sec, keys[1..], Walk(r, Some(keys[0])))
  }

  /** One user section. A section the master does not list is reported with whatever
      `item` the previous sections left (none yet raises), and then its items are looked
      up in the master all the same. `intended` reads it instead as reported on its own
      and skipped. */
  function SectionIssues(n: Natives, m: Master, path: Option<string>, section: string, sec: OrdMap<Value>, w: Walk,
                         intended: bool): Result<Walk>
  {
    if section in m.vals then ItemsIssues(n, m, path, section, sec, sec.keys, w)
    else if intended then Ok(Walk(AddError(w.report, section, " ", NotASection), w.item))
    else if w.item.None? then Err(UnboundLocal("item"))
    else ItemsIssues(n, m, path, section, sec, sec.keys, Walk(AddError(w.report, section, w.item.value, NotASection), w.item))
  }

  /** The user sections `keys`, in order. */
  function UserIssues(n: Natives, m: Master, path: Option<string>, cfg: Cfg, keys: seq<string>, w: Walk,
                      intended: bool): Result<Walk>
    decreases |keys|
  {
    if keys == [] then Ok(w)
    else if keys[0] !in cfg.vals then Err(KeyError(Some(keys[0])))
    else
      var w1 :- SectionIssues(n, m, path, keys[0], cfg.vals[keys[0]], w, intended);
      UserIssues(n, m, path, cfg, keys[1..], w1, intended)
  }

  /** `check_config_file(user_cfg, master_config, user_cfg_path)`: warnings and errors. */
  function ConfigFileIssues(n: Natives, cfg: Cfg, m: Master, path: Option<string>): Result<Report> {
    var w :- UserIssues(n, m, path, cfg, cfg.keys, Walk(Report([], RequiredErrors(m, cfg)), None), false);
    Ok(w.report)
  }

  /** The same with a section the master does not list reported on its own. */
  function ConfigFileIssuesIntended(n: Natives, cfg: Cfg, m: Master, path: Option<string>): Result<Report> {
    var w :- UserIssues(n, m, path, cfg, cfg.keys, Walk(Report([], RequiredErrors(m, cfg)), None), true);
    Ok(w.report)
  }

  /** `check_config_file(user_cfg, master_config, user_cfg_path)`; nothing is changed. */
  method CheckConfigFile(cfg: Cfg, m: Master, path: Option<string>, n: Natives) returns (r: Result<Report>)
    ensures r == ConfigFileIssues(n, cfg, m, path)
  {
    var errors := CheckRequired(cfg, m);
    var w := Walk(Report([], errors), None);
    ghost var w0 := w;
    var user := cfg.keys;
    var k := 0;
    while k < |user|
      invariant 0 <= k <= |user|
      invariant UserIssues(n, m, path, cfg, user, w0, false) == UserIssues(n, m, path, cfg, user[k..], w, false)
    {
      assert user[k..][1..] == user[k + 1..];
      var section := user[k];
      if section !in cfg.vals {
        return Err(KeyError(Some(section)));
      }
      var next := CheckSection(n, m, path, section, cfg.vals[section], w);
      if next.Err? {
        return Err(next.error);
      }
      w := next.value;
      k := k + 1;
    }
    assert user[k..] == [];
    return Ok(w.report);
  }

  /** The scan for required and data sections. */
  method CheckRequired(cfg: Cfg, m: Master) returns (errors: seq<string>)
    ensures errors == RequiredErrors(m, cfg)
  {
    errors := [];
    var has := false;
    var sections := m.keys;
    var k := 0;
    while k < |sections|
      invariant 0 <= k <= |sections|
      invariant RequiredScan(sections, cfg, [], false) == RequiredScan(sections[k..], cfg, errors, has)
    {
      assert sections[k..][1..] == sections[k + 1..];
      var s := sections[k];
      if s !in cfg.vals && s !in DataSections {
        if "gridded" !in cfg.vals && s == "stations" {
          errors := errors + [Line(s, " ", MissingSection)];
        }
      } else if s in cfg.vals && s in DataSections {
        has := true;
      }
      k := k + 1;
    }
    assert sections[k..] == [];
    if !has {
      errors := errors + [Line(" ", " ", NoDataSection)];
    }
  }

  /** One user section, as the source walks it. */
  method CheckSection(n: Natives, m: Master, path: Option<string>, section: string, sec: OrdMap<Value>, w: Walk)
    returns (r: Result<Walk>)
    ensures r == SectionIssues(n, m, path, section, sec, w, false)
  {
    var report := w.report;
    if section !in m.vals {
      if w.item.None? {
        return Err(UnboundLocal("item"));
      }
      report := AddError(report, section, w.item.value, NotASection);
    }
    r := CheckItems(n, m, path, section, sec, Walk(report, w.item));
  }

  /** The items of one user section, in order. */
  method CheckItems(n: Natives, m: Master, path: Option<string>, section: string, sec: OrdMap<Value>, w: Walk)
    returns (r: Result<Walk>)
    ensures r == ItemsIssues(n, m, path, section, sec, sec.keys, w)
  {
    var report := w.report;
    var item := w.item;
    var keys := sec.keys;
    var k := 0;
    while k < |keys|
      invariant 0 <= k <= |keys|
      invariant ItemsIssues(n, m, path, section, sec, keys, w) == ItemsIssues(n, m, path, section, sec, keys[k..], Walk(report, item))
    {
      assert keys[k..][1..] == keys[k + 1..];
      var key := keys[k];
      if key !in sec.vals {
        return Err(KeyError(Some(key)));
      }
      var next := CheckItem(n, m, path, section, key, sec.vals[key], report);
      if next.Err? {
        return Err(next.error);
      }
      report := next.value;
      item := Some(key);
      k := k + 1;
    }
    assert keys[k..] == [];
    return Ok(Walk(report, item));
  }

  /** One item of a user section. */
  method CheckItem(n: Natives, m: Master, path: Option<string>, section: string, item: string, value: Value,
                   acc: Report) returns (r: Result<Report>)
    ensures r == ItemIssues(n, m, path, section, item, value, acc)
  {
    if section !in m.vals {
      return Err(KeyError(Some(section)));
    }
    var litem := Lower(item);
    if litem !in m.vals[section].vals {
      return Ok(AddWarning(acc, section, item, UnregisteredText(section)));
    }
    if litem == "stations" {
      return Ok(acc);
    }
    r := CheckValues(n, m.vals[section], path, section, item, MkLst(value), acc);
  }

  /** The values of a registered item, in order. */
  method CheckValues(n: Natives, msec: OrdMap<ConfigEntry>, path: Option<string>, section: string, item: string,
                     vs: seq<Scalar>, acc: Report) returns (r: Result<Report>)
    requires Lower(item) in msec.vals
    ensures r == ValuesIssues(n, msec, path, section, item, vs, acc)
  {
    var report := acc;
    var k := 0;
    while k < |vs|
      invariant 0 <= k <= |vs|
      invariant ValuesIssues(n, msec, path, section, item, vs, acc) == ValuesIssues(n, msec, path, section, item, vs[k..], report)
    {
      assert vs[k..][1..] == vs[k + 1..];
      if vs[k] != Null {
        var next := ValueIssues(n, msec, path, section, item, vs[k], report);
        if next.Err? {
          return Err(next.error);
        }
        report := next.value;
      }
      k := k + 1;
    }
    assert vs[k..] == [];
    return Ok(report);
  }

  /** The scan of distinct master sections reports `stations` exactly when it is required
      and missing, and finds a data section exactly when the master and the user config
      share one. */
  lemma {:induction false} RequiredScanSpec(ms: seq<string>, cfg: Cfg, errs: seq<string>, has: bool)
    requires forall i, j :: 0 <= i < j < |ms| ==> ms[i] != ms[j]
    ensures RequiredScan(ms, cfg, errs, has) ==
      (errs + (if StationsMissing(ms, cfg) then [Line("stations", " ", MissingSection)] else []),
       has || HasDataSection(ms, cfg))
    decreases |ms|
  {
    if ms != [] {
      var s := ms[0];
      assert ms == [s] + ms[1..];
      TailDistinct(ms);
      var errs1 := if s !in cfg.vals && s !in DataSections && "gridded" !in cfg.vals && s == "stations"
        then errs + [Line(s, " ", MissingSection)] else errs;
      var has1 := has || (s in cfg.vals && s in DataSections);
      RequiredScanSpec(ms[1..], cfg, errs1, has1);
      assert StationsMissing(ms, cfg) <==> (s == "stations" && "stations" !in cfg.vals && "gridded" !in cfg.vals) || StationsMissing(ms[1..], cfg);
      assert HasDataSection(ms, cfg) <==> (s in cfg.vals && s in DataSections) || HasDataSection(ms[1..], cfg);
      if s == "stations" {
        assert !StationsMissing(ms[1..], cfg);
        assert s !in DataSections by {
          assert s[0] != DataSections[0][0] && s[0] != DataSections[1][0] && s[0] != DataSections[2][0];
        }
        assert errs1 + [] == errs1;
      }
      assert RequiredScan(ms, cfg, errs, has) == RequiredScan(ms[1..], cfg, errs1, has1);
    } else {
      assert errs + [] == errs;
    }
  }

  /** The section errors: "Missing required section." for `stations` exactly when the
      master lists it and the user config has neither it nor `gridded`, then "Must specify
      a CSV or MySQL or Gridded section." exactly when no data section the master lists is
      present. */
  lemma RequiredErrorsSpec(m: Master, cfg: Cfg)
    requires m.Valid()
    ensures RequiredErrors(m, cfg) ==
      (if StationsMissing(m.keys, cfg) then [Line("stations", " ", MissingSection)] else []) +
      (if HasDataSection(m.keys, cfg) then [] else [Line(" ", " ", NoDataSection)])
  {
    RequiredScanSpec(m.keys, cfg, [], false);
  }

  lemma ExtendsTrans(a: Report, b: Report, c: Report)
    requires Extends(a, b) && Extends(b, c)
    ensures Extends(a, c)
  {
    assert c.warnings[..|a.warnings|] == c.warnings[..|b.warnings|][..|a.warnings|];
    assert c.errors[..|a.errors|] == c.errors[..|b.errors|][..|a.errors|];
  }

  /** One value only appends lines; a warning only for a missing directory. */
  lemma ValueGrowth(n: Natives, msec: OrdMap<ConfigEntry>, path: Option<string>, section: string, item: string,
                    v: Scalar, acc: Report)
    requires Lower(item) in msec.vals
    requires ValueIssues(n, msec, path, section, item, v, acc).Ok?
    ensures var r := ValueIssues(n, msec, path, section, item, v, acc).value;
      && Extends(acc, r)
      && (msec.vals[item].typ != One(Str("directory")) ==> r.warnings == acc.warnings)
  {
    var e := msec.vals[Lower(item)];
    var cv := Convert(e.typ, e.convertType, One(v), n).value;
    var entry := msec.vals[item];
    var t := TypeIssues(n, path, section, item, entry.typ, cv, acc).value;
    TypeGrowth(n, path, section, item, entry.typ, cv, acc);
    var r := ValueIssues(n, msec, path, section, item, v, acc).value;
    assert r == if entry.options != [] && !Among(t.1, entry.options) then AddError(t.0, section, item, InvalidOption(t.1, n)) else t.0;
    ExtendsTrans(acc, t.0, r);
  }

  /** The type test only appends lines, a warning only for a directory. */
  lemma TypeGrowth(n: Natives, path: Option<string>, section: string, item: string, t: Value, v: Value, acc: Report)
    requires TypeIssues(n, path, section, item, t, v, acc).Ok?
    ensures var r := TypeIssues(n, path, section, item, t, v, acc).value.0;
      && Extends(acc, r)
      && (t != One(Str("directory")) ==> r.warnings == acc.warnings)
  {
    if t == One(Str("datetime")) {
    } else if t == One(Str("filename")) {
      assert t != One(Str("directory"));
    } else if t == One(Str("directory")) {
    } else {
      assert t.One? && t.x.Str?;
    }
  }

  /** The values of a registered item only append lines, and add no warning unless the
      item is a directory; the None values among them change nothing. */
  lemma {:induction false} ValuesGrowth(n: Natives, msec: OrdMap<ConfigEntry>, path: Option<string>, section: string,
                                         item: string, vs: seq<Scalar>, acc: Report)
    requires Lower(item) in msec.vals
    ensures ValuesIssues(n, msec, path, section, item, vs, acc) == ValuesIssues(n, msec, path, section, item, NonNull(vs), acc)
    ensures ValuesIssues(n, msec, path, section, item, vs, acc).Ok? ==>
      var r := ValuesIssues(n, msec, path, section, item, vs, acc).value;
      && Extends(acc, r)
      && (item !in msec.vals || msec.vals[item].typ != One(Str("directory")) ==> r.warnings == acc.warnings)
    decreases |vs|
  {
    if vs != [] {
      var rest := NonNull(vs[1..]);
      assert NonNull(vs) == (if vs[0] == Null then [] else [vs[0]]) + rest;
      if vs[0] == Null {
        assert NonNull(vs) == rest;
        ValuesGrowth(n, msec, path, section, item, vs[1..], acc);
      } else {
        assert NonNull(vs)[0] == vs[0] && NonNull(vs)[1..] == rest;
        var next := ValueIssues(n, msec, path, section, item, vs[0], acc);
        if next.Ok? {
          ValueGrowth(n, msec, path, section, item, vs[0], acc);
          ValuesGrowth(n, msec, path, section, item, vs[1..], next.value);
          var r := ValuesIssues(n, msec, path, section, item, vs, acc);
          if r.Ok? {
            ExtendsTrans(acc, next.value, r.value);
          }
        }
      }
    }
  }

  /** One item: an item the master section does not list draws exactly the
      "Not a registered option." warning (with the station-name hint in a `wind` section);
      a registered `stations` item changes nothing; any other registered item only appends
      lines, and no warning unless it is a directory. */
  lemma ItemOutcomes(n: Natives, m: Master, path: Option<string>, section: string, item: string, value: Value,
                     acc: Report)
    requires section in m.vals
    ensures Lower(item) !in m.vals[section].vals ==>
      ItemIssues(n, m, path, section, item, value, acc) == Ok(AddWarning(acc, section, item, UnregisteredText(section)))
    ensures Lower(item) == "stations" && "stations" in m.vals[section].vals ==>
      ItemIssues(n, m, path, section, item, value, acc) == Ok(acc)
    ensures Lower(item) in m.vals[section].vals && ItemIssues(n, m, path, section, item, value, acc).Ok? ==>
      var r := ItemIssues(n, m, path, section, item, value, acc).value;
      && Extends(acc, r)
      && (item !in m.vals[section].vals || m.vals[section].vals[item].typ != One(Str("directory")) ==> r.warnings == acc.warnings)
  {
    if Lower(item) in m.vals[section].vals && Lower(item) != "stations" {
      ValuesGrowth(n, m.vals[section], path, section, item, MkLst(value), acc);
    }
  }

  /** The items of a section only append lines, and leave `item` at the last of them. */
  lemma {:induction false} ItemsGrowth(n: Natives, m: Master, path: Option<string>, section: string, sec: OrdMap<Value>,
                                        keys: seq<string>, w: Walk)
    requires ItemsIssues(n, m, path, section, sec, keys, w).Ok?
    ensures var r := ItemsIssues(n, m, path, section, sec, keys, w).value;
      && Extends(w.report, r.report)
      && r.item == (if keys == [] then w.item else Some(keys[|keys| - 1]))
    decreases |keys|
  {
    if keys != [] {
      var r1 := ItemIssues(n, m, path, section, keys[0], sec.vals[keys[0]], w.report).value;
      ItemOutcomes(n, m, path, section, keys[0], sec.vals[keys[0]], w.report);
      ItemsGrowth(n, m, path, section, sec, keys[1..], Walk(r1, Some(keys[0])));
      ExtendsTrans(w.report, r1, ItemsIssues(n, m, path, section, sec, keys, w).value.report);
    }
  }

  lemma SectionGrowth(n: Natives, m: Master, path: Option<string>, section: string, sec: OrdMap<Value>, w: Walk,
                      intended: bool)
    requires SectionIssues(n, m, path, section, sec, w, intended).Ok?
    ensures Extends(w.report, SectionIssues(n, m, path, section, sec, w, intended).value.report)
  {
    if section in m.vals {
      ItemsGrowth(n, m, path, section, sec, sec.keys, w);
    } else if !intended {
      var w1 := Walk(AddError(w.report, section, w.item.value, NotASection), w.item);
      ItemsGrowth(n, m, path, section, sec, sec.keys, w1);
      ExtendsTrans(w.report, w1.report, SectionIssues(n, m, path, section, sec, w, intended).value.report);
    }
  }

  lemma {:induction false} UserGrowth(n: Natives, m: Master, path: Option<string>, cfg: Cfg, keys: seq<string>, w: Walk,
                                       intended: bool)
    requires UserIssues(n, m, path, cfg, keys, w, intended).Ok?
    ensures Extends(w.report, UserIssues(n, m, path, cfg, keys, w, intended).value.report)
    decreases |keys|
  {
    if keys != [] {
      var w1 := SectionIssues(n, m, path, keys[0], cfg.vals[keys[0]], w, intended).value;
      SectionGrowth(n, m, path, keys[0], cfg.vals[keys[0]], w, intended);
      UserGrowth(n, m, path, cfg, keys[1..], w1, intended);
      ExtendsTrans(w.report, w1.report, UserIssues(n, m, path, cfg, keys, w, intended).value.report);
    }
  }

  /** A finished check lists the section errors first: the `stations` error when it is
      required and missing, then the missing data section error; the user sections only
      append after them. */
  lemma SectionErrorsFirst(n: Natives, cfg: Cfg, m: Master, path: Option<string>)
    requires m.Valid()
    requires ConfigFileIssues(n, cfg, m, path).Ok?
    ensures var r := ConfigFileIssues(n, cfg, m, path).value;
      var head := (if StationsMissing(m.keys, cfg) then [Line("stations", " ", MissingSection)] else []) +
                  (if HasDataSection(m.keys, cfg) then [] else [Line(" ", " ", NoDataSection)]);
      |head| <= |r.errors| && r.errors[..|head|] == head
  {
    RequiredErrorsSpec(m, cfg);
    UserGrowth(n, m, path, cfg, cfg.keys, Walk(Report([], RequiredErrors(m, cfg)), None), false);
  }

  /** A value of a plain type (neither datetime, filename nor directory): a type mismatch
      is an "Expecting a ..." error, and a value outside non-empty options is an
      "Invalid option" error after it; nothing else is added. */
  lemma PlainValueIssues(n: Natives, msec: OrdMap<ConfigEntry>, path: Option<string>, section: string, item: string,
                         v: Scalar, acc: Report, ts: string)
    requires Lower(item) in msec.vals && item in msec.vals
    requires msec.vals[item].typ == One(Str(ts)) && ts != "datetime" && ts != "filename" && ts != "directory"
    requires Convert(msec.vals[Lower(item)].typ, msec.vals[Lower(item)].convertType, One(v), n).Ok?
    ensures var cv := Convert(msec.vals[Lower(item)].typ, msec.vals[Lower(item)].convertType, One(v), n).value;
      var options := msec.vals[item].options;
      ValueIssues(n, msec, path, section, item, v, acc) ==
        Ok(acc.(errors := acc.errors
           + (if HasInfix(ClassText(cv), ts) then [] else [Line(section, item, "Expecting a " + ts + " recieved " + ClassText(cv))])
           + (if options != [] && !Among(cv, options) then [Line(section, item, InvalidOption(cv, n))] else [])))
  {
    var cv := Convert(msec.vals[Lower(item)].typ, msec.vals[Lower(item)].convertType, One(v), n).value;
    var t := TypeIssues(n, path, section, item, One(Str(ts)), cv, acc);
    assert t.value.1 == cv;
    var e1 := if HasInfix(ClassText(cv), ts) then [] else [Line(section, item, "Expecting a " + ts + " recieved " + ClassText(cv))];
    assert t.value.0 == acc.(errors := acc.errors + e1);
    assert acc.errors + e1 + [] == acc.errors + e1;
  }

  /** The lines the intended reading gives for sections the master does not list. */
  function UnknownLines(keys: seq<string>): (r: seq<string>)
    ensures |r| == |keys|
  {
    seq(|keys|, i requires 0 <= i < |keys| => Line(keys[i], " ", NotASection))
  }

  /** As written, a section the master does not list never passes: before any item has
      been seen it raises UnboundLocalError; with items of its own it raises on the master
      lookup; otherwise it is reported under the name of an item of another section. */
  lemma UnknownSectionAsWritten(n: Natives, m: Master, path: Option<string>, section: string, sec: OrdMap<Value>, w: Walk)
    requires section !in m.vals
    ensures w.item.None? ==> SectionIssues(n, m, path, section, sec, w, false) == Err(UnboundLocal("item"))
    ensures sec.keys != [] ==> SectionIssues(n, m, path, section, sec, w, false).Err?
    ensures w.item.Some? && sec.keys == [] ==>
      SectionIssues(n, m, path, section, sec, w, false) == Ok(Walk(AddError(w.report, section, w.item.value, NotASection), w.item))
  {
  }

  /** A user config whose first section the master does not list makes `check_config_file` raise
      UnboundLocalError instead of reporting the section. */
  lemma UnknownFirstSectionRaises(n: Natives, cfg: Cfg, m: Master, path: Option<string>)
    requires cfg.keys != [] && cfg.keys[0] in cfg.vals && cfg.keys[0] !in m.vals
    ensures ConfigFileIssues(n, cfg, m, path) == Err(UnboundLocal("item"))
  {
    UnknownSectionAsWritten(n, m, path, cfg.keys[0], cfg.vals[cfg.keys[0]], Walk(Report([], RequiredErrors(m, cfg)), None));
  }

  /** In the intended reading, sections the master does not list add one
      "Not a valid section." error each, in order, and nothing else. */
  lemma {:induction false} UnknownSectionsReported(n: Natives, m: Master, path: Option<string>, cfg: Cfg, keys: seq<string>,
                                                    w: Walk)
    requires forall s :: s in keys ==> s in cfg.vals && s !in m.vals
    ensures UserIssues(n, m, path, cfg, keys, w, true) ==
      Ok(Walk(w.report.(errors := w.report.errors + UnknownLines(keys)), w.item))
    decreases |keys|
  {
    hide ItemsIssues;
    if keys == [] {
      assert w.report.errors + UnknownLines(keys) == w.report.errors;
    } else {
      assert keys[0] in keys;
      var w1 := Walk(AddError(w.report, keys[0], " ", NotASection), w.item);
      assert SectionIssues(n, m, path, keys[0], cfg.vals[keys[0]], w, true) == Ok(w1);
      assert forall s :: s in keys[1..] ==> s in keys;
      UnknownSectionsReported(n, m, path, cfg, keys[1..], w1);
      assert UnknownLines(keys) == [Line(keys[0], " ", NotASection)] + UnknownLines(keys[1..]);
      assert w1.report.errors + UnknownLines(keys[1..]) == w.report.errors + UnknownLines(keys);
    }
  }

  /** Under the intended reading a config of sections the master does not list is
      reported, one error per section after the section errors. */
  lemma IntendedUnknownConfig(n: Natives, cfg: Cfg, m: Master, path: Option<string>)
    requires forall s :: s in cfg.keys ==> s in cfg.vals && s !in m.vals
    ensures ConfigFileIssuesIntended(n, cfg, m, path) == Ok(Report([], RequiredErrors(m, cfg) + UnknownLines(cfg.keys)))
  {
    UnknownSectionsReported(n, m, path, cfg, cfg.keys, Walk(Report([], RequiredErrors(m, cfg)), None));
  }
}
