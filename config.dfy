/** The master config of config.py: entries whose attributes are set from `name = value`
    property strings, with their default and options converted to the entry's type. */
module Config {
  import opened Base
  import opened Strings
  import opened OrdMaps
  import opened Values
  import opened Utilities
  import opened IniParse

  /** The entry's own names that `hasattr` finds: its six attributes and its two methods.
      The names every object inherits (`__doc__`, `__class__`, ...) are not modelled. */
  const AttributeNames: seq<string> :=
    ["name", "value", "default", "options", "description", "type", "parse_info", "convert_type"]

  /** The attributes of an entry while its properties are read. `parseInfo` and
      `convertType` hold an attribute set over the method of that name. */
  datatype Attributes = Attributes(name: Value, value: Value, default: Value, options: Value,
                                   description: Value, typ: Value,
                                   parseInfo: Option<Value>, convertType: Option<Value>)

  /** A finished entry: its options are always a list. */
  datatype ConfigEntry = ConfigEntry(name: Value, value: Value, default: Value, options: seq<Scalar>,
                                     description: Value, typ: Value,
                                     parseInfo: Option<Value>, convertType: Option<Value>)

  /** The attributes `ConfigEntry(name=name)` starts with. */
  function Initial(name: Option<string>): Attributes {
    Attributes(match name case Some(s) => One(Str(s)) case None => One(Null),
               One(Null), One(Null), Many([]), One(Str("")), One(Str("str")), None, None)
  }

  /** `setattr(entry, k, v)` for one of the names `hasattr` accepts. */
  function Setattr(a: Attributes, k: string, v: Value): Attributes {
    if k == "name" then a.(name := v)
    else if k == "value" then a.(value := v)
    else if k == "default" then a.(default := v)
    else if k == "options" then a.(options := v)
    else if k == "description" then a.(description := v)
    else if k == "type" then a.(typ := v)
    else if k == "parse_info" then a.(parseInfo := Some(v))
    else if k == "convert_type" then a.(convertType := Some(v))
    else a
  }

  /** The attribute of name `k`, with a method not shadowed read as None. */
  function Get(a: Attributes, k: string): Option<Value> {
    if k == "name" then Some(a.name)
    else if k == "value" then Some(a.value)
    else if k == "default" then Some(a.default)
    else if k == "options" then Some(a.options)
    else if k == "description" then Some(a.description)
    else if k == "type" then Some(a.typ)
    else if k == "parse_info" then a.parseInfo
    else if k == "convert_type" then a.convertType
    else None
  }

  /** `parse_info(info)`: each property string in turn sets the attribute it names; the
      first string without '=', naming no attribute, or with an unclosed '[' raises. */
  function ParseInfo(a: Attributes, info: seq<string>): Result<Attributes>
    decreases |info|
  {
    if info == [] then Ok(a)
    else
      var p :- PropertyOf(info[0], None, Some(AttributeNames));
      ParseInfo(Setattr(a, p.name, p.value), info[1..])
  }

  /** `convert_type(v)` on an entry of type `typ`: text reading `none` in any case becomes
      None; a value whose class text already names the type is kept; anything else goes
      through `cast_variable`. A property named `convert_type` hides the method. */
  function Convert(typ: Value, shadow: Option<Value>, v: Value, n: Natives): Result<Value> {
    if shadow.Some? then Err(TypeError)  // the attribute is not callable
    else if Lower(PyStr(v, n)) == "none" then Ok(One(Null))
    else
      match typ
      case One(Str(t)) => if HasInfix(ClassText(v), t) then Ok(v) else CastOf(v, t, n)
      case _ => Err(TypeError)  // `in <string>` needs text on its left
  }

  /** `[v.upper() for v in options]`; only text has `.upper()`. */
  function UpperAll(xs: seq<Scalar>): Result<seq<Scalar>> {
    if xs == [] then Ok([])
    else if !xs[0].Str? then Err(AttributeError)
    else
      var rest :- UpperAll(xs[1..]);
      Ok([Str(Upper(xs[0].s))] + rest)
  }

  /** The rest of the constructor once the properties are set: default and options
      converted, options made a list, and a `client` entry's options uppercased. */
  function Finish(a: Attributes, n: Natives): Result<ConfigEntry> {
    var dflt :- Convert(a.typ, a.convertType, a.default, n);
    var opts :- Convert(a.typ, a.convertType, a.options, n);
    var options :- if a.name == One(Str("client")) then UpperAll(MkLst(opts)) else Ok(MkLst(opts));
    Ok(ConfigEntry(a.name, a.value, dflt, options, a.description, a.typ, a.parseInfo, a.convertType))
  }

  /** `ConfigEntry(name=name, parseable_line=line)`. */
  function EntryOf(name: Option<string>, line: Option<seq<string>>, n: Natives): Result<ConfigEntry> {
    var a :- if line.Some? then ParseInfo(Initial(name), line.value) else Ok(Initial(name));
    Finish(a, n)
  }

  method NewConfigEntry(name: Option<string>, line: Option<seq<string>>, n: Natives) returns (r: Result<ConfigEntry>)
    ensures r == EntryOf(name, line, n)
  {
    var a := Initial(name);
    if line.Some? {
      var parsed := ParseInfoLoop(a, line.value);
      if parsed.Err? {
        return Err(parsed.error);
      }
      a := parsed.value;
    }
    var dflt := Convert(a.typ, a.convertType, a.default, n);
    if dflt.Err? {
      return Err(dflt.error);
    }
    var opts := Convert(a.typ, a.convertType, a.options, n);
    if opts.Err? {
      return Err(opts.error);
    }
    var options := MkLst(opts.value);
    if a.name == One(Str("client")) {
      var upper := UpperAll(options);
      if upper.Err? {
        return Err(upper.error);
      }
      options := upper.value;
    }
    return Ok(ConfigEntry(a.name, a.value, dflt.value, options, a.description, a.typ, a.parseInfo, a.convertType));
  }

  /** The loop of `parse_info`. */
  method ParseInfoLoop(a0: Attributes, info: seq<string>) returns (r: Result<Attributes>)
    ensures r == ParseInfo(a0, info)
  {
    var a := a0;
    var i := 0;
    assert info[0..] == info;
    while i < |info|
      invariant 0 <= i <= |info|
      invariant ParseInfo(a0, info) == ParseInfo(a, info[i..])
    {
      assert info[i..][1..] == info[i + 1..];
      var p := PropertyOf(info[i], None, Some(AttributeNames));
      if p.Err? {
        return Err(p.error);
      }
      a := Setattr(a, p.value.name, p.value.value);
      i := i + 1;
    }
    assert info[i..] == [];
    return Ok(a);
  }

  // ------------------------------------------------------------ MasterConfig

  /** One section's entries, each built from its item name and property strings. */
  function ItemEntry(n: Natives): (string, seq<string>) -> Result<ConfigEntry> {
    (item: string, line: seq<string>) => EntryOf(Some(item), Some(line), n)
  }

  function SectionEntries(n: Natives): (string, OrdMap<seq<string>>) -> Result<OrdMap<ConfigEntry>> {
    (section: string, items: OrdMap<seq<string>>) => Traverse(items, ItemEntry(n), |items.keys|)
  }

  /** `MasterConfig._read_master_config` on the dictionary `read_config` returned. */
  function MasterOf(raw: OrdMap<OrdMap<seq<string>>>, n: Natives): Result<OrdMap<OrdMap<ConfigEntry>>> {
    Traverse(raw, SectionEntries(n), |raw.keys|)
  }

  method ReadMasterConfig(raw: OrdMap<OrdMap<seq<string>>>, n: Natives) returns (r: Result<OrdMap<OrdMap<ConfigEntry>>>)
    ensures r == MasterOf(raw, n)
  {
    // the entries themselves are MasterStep's business
    hide SectionEntries, EntryOf;
    var cfg: OrdMap<OrdMap<ConfigEntry>> := Empty();
    var i := 0;
    while i < |raw.keys|
      invariant 0 <= i <= |raw.keys|
      invariant Traverse(raw, SectionEntries(n), i) == Ok(cfg)
    {
      var next := MasterStep(raw, n, i, cfg);
      if next.Err? {
        return next;
      }
      cfg := next.value;
      i := i + 1;
    }
    return Ok(cfg);
  }

  /** One pass of the outer loop: the `i`-th section's entries stored under its name. */
  method MasterStep(raw: OrdMap<OrdMap<seq<string>>>, n: Natives, i: nat, cfg: OrdMap<OrdMap<ConfigEntry>>)
    returns (next: Result<OrdMap<OrdMap<ConfigEntry>>>)
    requires i < |raw.keys|
    requires Traverse(raw, SectionEntries(n), i) == Ok(cfg)
    ensures next.Ok? ==> next == Traverse(raw, SectionEntries(n), i + 1)
    ensures next.Err? ==> next == Traverse(raw, SectionEntries(n), |raw.keys|)
  {
    var section := raw.keys[i];
    if section !in raw.vals {
      TraverseErrPersists(raw, SectionEntries(n), i + 1, |raw.keys|);
      return Err(KeyError(Some(section)));
    }
    var sec := ReadSection(raw.vals[section], n);
    assert At(raw, SectionEntries(n), i) == sec;
    if sec.Err? {
      TraverseErrPersists(raw, SectionEntries(n), i + 1, |raw.keys|);
      return Err(sec.error);
    }
    return Ok(cfg.Put(section, sec.value));
  }

  /** The inner loop of `_read_master_config`: one entry per item. */
  method ReadSection(items: OrdMap<seq<string>>, n: Natives) returns (r: Result<OrdMap<ConfigEntry>>)
    ensures r == Traverse(items, ItemEntry(n), |items.keys|)
  {
    // the entries themselves are SectionStep's business
    hide ItemEntry, EntryOf;
    var sec: OrdMap<ConfigEntry> := Empty();
    var i := 0;
    while i < |items.keys|
      invariant 0 <= i <= |items.keys|
      invariant Traverse(items, ItemEntry(n), i) == Ok(sec)
    {
      var next := SectionStep(items, n, i, sec);
      if next.Err? {
        return next;
      }
      sec := next.value;
      i := i + 1;
    }
    return Ok(sec);
  }

  /** One pass of the inner loop: the `i`-th item's entry stored under its name. */
  method SectionStep(items: OrdMap<seq<string>>, n: Natives, i: nat, sec: OrdMap<ConfigEntry>)
    returns (next: Result<OrdMap<ConfigEntry>>)
    requires i < |items.keys|
    requires Traverse(items, ItemEntry(n), i) == Ok(sec)
    ensures next.Ok? ==> next == Traverse(items, ItemEntry(n), i + 1)
    ensures next.Err? ==> next == Traverse(items, ItemEntry(n), |items.keys|)
  {
    var item := items.keys[i];
    if item !in items.vals {
      TraverseErrPersists(items, ItemEntry(n), i + 1, |items.keys|);
      return Err(KeyError(Some(item)));
    }
    var entry := NewConfigEntry(Some(item), Some(items.vals[item]), n);
    assert At(items, ItemEntry(n), i) == entry;
    if entry.Err? {
      TraverseErrPersists(items, ItemEntry(n), i + 1, |items.keys|);
      return Err(entry.error);
    }
    return Ok(sec.Put(item, entry.value));
  }

  // ------------------------------------------------------------ properties

  /** Every property string of an accepted entry has an '=' and names an attribute the
      entry has. */
  lemma {:induction false} ParseInfoNames(a: Attributes, info: seq<string>)
    ensures ParseInfo(a, info).Ok? ==>
      forall j :: 0 <= j < |info| ==> '=' in info[j] && PropName(info[j]) in AttributeNames
    decreases |info|
  {
    if info != [] && ParseInfo(a, info).Ok? {
      var p := PropertyOf(info[0], None, Some(AttributeNames));
      PropertyAccepted(info[0], None, Some(AttributeNames));
      ParseInfoNames(Setattr(a, p.value.name, p.value.value), info[1..]);
      assert forall j :: 1 <= j < |info| ==> info[j] == info[1..][j - 1];
    }
  }

  /** The entry rejects the first property string that has no '=' or names something the
      entry does not have. */
  lemma ParseInfoRejects(a: Attributes, s: string, rest: seq<string>)
    ensures '=' !in s ==> ParseInfo(a, [s] + rest) == Err(MissingEquals(None))
    ensures '=' in s && PropName(s) !in AttributeNames ==> ParseInfo(a, [s] + rest) == Err(InvalidProperty(PropName(s)))
  {
    assert ([s] + rest)[0] == s;
  }

  /** An attribute no property string names keeps its initial value. */
  lemma {:induction false} ParseInfoKeeps(a: Attributes, info: seq<string>, k: string)
    requires ParseInfo(a, info).Ok?
    requires forall j :: 0 <= j < |info| ==> '=' in info[j] && PropName(info[j]) != k
    ensures Get(ParseInfo(a, info).value, k) == Get(a, k)
    decreases |info|
  {
    if info != [] {
      var p := PropertyOf(info[0], None, Some(AttributeNames));
      PropertyAccepted(info[0], None, Some(AttributeNames));
      assert 0 < |info| && '=' in info[0] && PropName(info[0]) != k;
      SetattrOther(a, p.value.name, p.value.value, k);
      assert forall j :: 1 <= j < |info| ==> info[j] == info[1..][j - 1];
      ParseInfoKeeps(Setattr(a, p.value.name, p.value.value), info[1..], k);
    }
  }

  /** Setting one attribute leaves every other name as it was. */
  lemma SetattrOther(a: Attributes, name: string, v: Value, k: string)
    requires name != k
    ensures Get(Setattr(a, name, v), k) == Get(a, k)
  {
  }

  /** A single property string sets the attribute it names to its text, or to the list of
      its words when it is bracketed. */
  lemma ParseInfoOne(a: Attributes, s: string)
    requires PropertyOf(s, None, Some(AttributeNames)).Ok?
    ensures ParseInfo(a, [s]) == Ok(Setattr(a, PropName(s), PropertyOf(s, None, Some(AttributeNames)).value.value))
    ensures PropertyOf(s, None, Some(AttributeNames)).value.value ==
      (if '[' in PropText(s) then Many(Texts(Split(RemoveChars(PropText(s), "[]"), ' '))) else One(Str(PropText(s))))
  {
    assert [s][1..] == [];
  }

  /** `convert_type`: a value reading `none` becomes None; one whose class text already
      names the type is kept; anything else is what `cast_variable` makes of it. */
  lemma ConvertRules(t: string, v: Value, n: Natives)
    ensures Lower(PyStr(v, n)) == "none" ==> Convert(One(Str(t)), None, v, n) == Ok(One(Null))
    ensures Lower(PyStr(v, n)) != "none" && HasInfix(ClassText(v), t) ==> Convert(One(Str(t)), None, v, n) == Ok(v)
    ensures Lower(PyStr(v, n)) != "none" && !HasInfix(ClassText(v), t) ==> Convert(One(Str(t)), None, v, n) == CastOf(v, t, n)
    ensures forall w :: Convert(One(Str(t)), Some(w), v, n) == Err(TypeError)
  {
  }

  /** Text already is a `str`: with type `str` a text default stays exactly as written. */
  lemma TextKeptAsStr(s: string, n: Natives)
    requires Lower(s) != "none"
    ensures Convert(One(Str("str")), None, One(Str(s)), n) == Ok(One(Str(s)))
  {
    assert ClassText(One(Str(s))) == "<class 'str'>";
    assert "<class 'str'>"[8..11] == "str";
    InfixAt("<class 'str'>", "str", 8);
  }

  /** A `client` entry's options are all uppercase text; any other entry's options are the
      converted options as a list. */
  lemma ClientOptions(a: Attributes, n: Natives)
    requires Finish(a, n).Ok?
    ensures var e := Finish(a, n).value;
      var opts := MkLst(Convert(a.typ, a.convertType, a.options, n).value);
      && (a.name == One(Str("client")) ==>
            |e.options| == |opts| && forall i :: 0 <= i < |opts| ==> opts[i].Str? && e.options[i] == Str(Upper(opts[i].s)))
      && (a.name != One(Str("client")) ==> e.options == opts)
  {
    var opts := MkLst(Convert(a.typ, a.convertType, a.options, n).value);
    if a.name == One(Str("client")) {
      UpperAllSpec(opts);
    }
  }

  lemma {:induction false} UpperAllSpec(xs: seq<Scalar>)
    ensures UpperAll(xs).Ok? <==> forall i :: 0 <= i < |xs| ==> xs[i].Str?
    ensures UpperAll(xs).Ok? ==>
      |UpperAll(xs).value| == |xs| && forall i :: 0 <= i < |xs| ==> UpperAll(xs).value[i] == Str(Upper(xs[i].s))
  {
    if xs != [] {
      UpperAllSpec(xs[1..]);
      assert forall i :: 1 <= i < |xs| ==> xs[i] == xs[1..][i - 1];
    }
  }

  /** An entry without property strings has type `str`, no default, no value, an empty
      description and no options (Python shows an empty list as `[]`). */
  lemma BareEntry(name: string, n: Natives)
    requires n.text(Many([])) == "[]"
    ensures EntryOf(Some(name), None, n) ==
      Ok(ConfigEntry(One(Str(name)), One(Null), One(Null), [], One(Str("")), One(Str("str")), None, None))
  {
    NoneConverts(n);
    EmptyListConverts(n);
    assert UpperAll([]) == Ok([]);
  }

  /** A `None` default is kept as `None` by a "str" entry. */
  lemma NoneConverts(n: Natives)
    ensures Convert(One(Str("str")), None, One(Null), n) == Ok(One(Null))
  {
    assert PyStr(One(Null), n) == "None";
    assert Lower("e") == "e";
    assert Lower("ne") == "ne";
    assert Lower("one") == "one";
  }

  /** Empty options are kept as an empty list by a "str" entry: "str" is not part of the
      list's class text, and casting no values as text gives no values. */
  lemma EmptyListConverts(n: Natives)
    requires n.text(Many([])) == "[]"
    ensures Convert(One(Str("str")), None, Many([]), n) == Ok(Many([]))
  {
    assert Lower(PyStr(Many([]), n)) == "[]" by {
      assert Lower("]") == "]";
    }
    assert ClassText(Many([])) == "<class 'list'>";
    NoInfixByChar("<class 'list'>", "str", 'r');
    EmptyCast("str", n);
    ConvertCasts("str", Many([]), n);
  }

  /** Casting no values gives no values, whatever the type. */
  lemma EmptyCast(t: string, n: Natives)
    ensures CastOf(Many([]), t, n) == Ok(Many([]))
  {
    assert MkLst(Many([])) == [];
    assert CastEach([], t, n) == Ok([]);
  }

  /** A value that is not "none" and whose class text does not name the type is cast. */
  lemma ConvertCasts(t: string, v: Value, n: Natives)
    requires Lower(PyStr(v, n)) != "none" && !HasInfix(ClassText(v), t)
    ensures Convert(One(Str(t)), None, v, n) == CastOf(v, t, n)
  {
  }

  /** The master config has one section per section read and, in each, one entry per item,
      built from that item's name and property strings. */
  lemma MasterShape(raw: OrdMap<OrdMap<seq<string>>>, n: Natives)
    requires raw.Valid() && forall s :: s in raw.vals ==> raw.vals[s].Valid()
    requires MasterOf(raw, n).Ok?
    ensures MasterOf(raw, n).value.keys == raw.keys
    ensures forall s :: s in raw.vals ==>
      && s in MasterOf(raw, n).value.vals
      && MasterOf(raw, n).value.vals[s].keys == raw.vals[s].keys
      && forall i :: i in raw.vals[s].vals ==>
           && i in MasterOf(raw, n).value.vals[s].vals
           && EntryOf(Some(i), Some(raw.vals[s].vals[i]), n) == Ok(MasterOf(raw, n).value.vals[s].vals[i])
  {
    TraverseOk(raw, SectionEntries(n), |raw.keys|);
    assert raw.keys[..|raw.keys|] == raw.keys;
    forall s | s in raw.vals
      ensures s in MasterOf(raw, n).value.vals
      ensures MasterOf(raw, n).value.vals[s].keys == raw.vals[s].keys
      ensures forall i :: i in raw.vals[s].vals ==>
           && i in MasterOf(raw, n).value.vals[s].vals
           && EntryOf(Some(i), Some(raw.vals[s].vals[i]), n) == Ok(MasterOf(raw, n).value.vals[s].vals[i])
    {
      var j :| 0 <= j < |raw.keys| && raw.keys[j] == s;
      var items := raw.vals[s];
      assert At(raw, SectionEntries(n), j) == Traverse(items, ItemEntry(n), |items.keys|);
      TraverseOk(items, ItemEntry(n), |items.keys|);
      assert items.keys[..|items.keys|] == items.keys;
      forall i | i in items.vals
        ensures i in MasterOf(raw, n).value.vals[s].vals
        ensures EntryOf(Some(i), Some(items.vals[i]), n) == Ok(MasterOf(raw, n).value.vals[s].vals[i])
      {
        var m :| 0 <= m < |items.keys| && items.keys[m] == i;
        assert At(items, ItemEntry(n), m) == EntryOf(Some(i), Some(items.vals[i]), n);
      }
    }
  }
}
