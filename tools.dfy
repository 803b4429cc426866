/** tools.py: the validation pass that files every issue of a user config as a warning
    or an error, the pass that casts every value to its entry's type, and the argument
    guard of `get_user_config`. */
module Tools {
  import opened Base
  import opened Strings
  import opened OrdMaps
  import opened Values
  import opened Checkers
  import Config

  /** A master config: section -> item -> entry. */
  type Master = OrdMap<OrdMap<Config.ConfigEntry>>

  /** One entry of the checker registry: a type name and the checker class it selects. */
  datatype Registered = Registered(name: string, kind: Kind)

  /** What the checkers see of the run: the registry (standard checkers merged with those of
      the master config's checker modules, in dictionary order), the user config they are
      handed, and the foreign operations. */
  datatype Ctx = Ctx(reg: seq<Registered>, ref: ConfigRef, n: Natives)

  /** The two lists `check_config` returns. */
  datatype Report = Report(warnings: seq<string>, errors: seq<string>)

  /** An issue a checker reported, with the checker's `msg_level` after the check. */
  datatype Issue = Issue(level: string, text: string)

  /** A user config object: the parsed values, the master config it is checked against and
      the name of the file it was read from. */
  class UserConfig {
    var cfg: Cfg
    const mcfg: Master
    const filename: Option<string>

    constructor (cfg: Cfg, mcfg: Master, filename: Option<string>)
      ensures this.cfg == cfg && this.mcfg == mcfg && this.filename == filename
    {
      this.cfg := cfg;
      this.mcfg := mcfg;
      this.filename := filename;
    }

    /** `cast_all_variables(self, master)`: every registered value replaced by its cast,
        in place; the items before an exception keep their new values. */
    method CastAllVariables(master: Master, reg: seq<Registered>, n: Natives) returns (r: Result<UserConfig>)
      modifies this
      ensures r.Ok? ==> r.value == this
      ensures Outcome(cfg, if r.Ok? then None else Some(r.error)) ==
              CastSections(Ctx(reg, UserFile(filename), n), master, old(cfg).keys, old(cfg))
    {
      var c := Ctx(reg, UserFile(filename), n);
      var sections := cfg.keys;
      var k := 0;
      while k < |sections|
        invariant 0 <= k <= |sections|
        invariant CastSections(c, master, sections, old(cfg)) == CastSections(c, master, sections[k..], cfg)
      {
        assert sections[k..][1..] == sections[k + 1..];
        var s := sections[k];
        if s !in cfg.vals {
          return Err(KeyError(Some(s)));
        }
        var items := cfg.vals[s].keys;
        var err := CastSection(c, master, s, items);
        if err.Some? {
          return Err(err.value);
        }
        k := k + 1;
      }
      return Ok(this);
    }

    /** The items of section `s`, in order. */
    method CastSection(c: Ctx, master: Master, s: string, items: seq<string>) returns (err: Option<Error>)
      modifies this
      ensures Outcome(cfg, err) == CastItems(c, master, s, items, old(cfg))
    {
      var k := 0;
      while k < |items|
        invariant 0 <= k <= |items|
        invariant CastItems(c, master, s, items, old(cfg)) == CastItems(c, master, s, items[k..], cfg)
      {
        assert items[k..][1..] == items[k + 1..];
        var i := items[k];
        if s !in cfg.vals {
          return Some(KeyError(Some(s)));
        }
        if i !in cfg.vals[s].vals {
          return Some(KeyError(Some(i)));
        }
        var w := CastItem(c, master, s, i, cfg.vals[s].vals[i]);
        if w.Err? {
          return Some(w.error);
        }
        cfg := cfg.Put(s, cfg.vals[s].Put(i, w.value));
        k := k + 1;
      }
      return None;
    }
  }

  // ------------------------------------------------------------ check_config

  /** `s` left-aligned in a field of `w` characters, as `"{: <w}".format(s)`. */
  function PadRight(s: string, w: nat): (r: string)
    ensures |r| == if |s| >= w then |s| else w
    ensures r[..|s|] == s && forall k :: |s| <= k < |r| ==> r[k] == ' '
  {
    if |s| >= w then s else s + seq(w - |s|, _ => ' ')
  }

  /** One line of the report: section, item and message in fields of 20, 30 and 60. */
  function Line(section: string, item: string, text: string): string {
    PadRight(section, 20) + " " + PadRight(item, 30) + " " + PadRight(text, 60)
  }

  /** The warning for an item the master section does not list. */
  const Unregistered: string := "Not a registered option."

  /** Every checker registered under the type name `typ` tried on `v` in registry order,
      until one reports an issue; the exception a checker raises ends the walk. */
  function Dispatch(reg: seq<Registered>, typ: Value, v: Scalar, ref: ConfigRef, n: Natives): Result<Option<Issue>>
    decreases |reg|
  {
    if reg == [] then Ok(None)
    else if typ != One(Str(Lower(reg[0].name))) then Dispatch(reg[1..], typ, v, ref, n)
    else
      var s :- Init(reg[0].kind, Kwargs(Some(One(v)), Some(ref), None));
      match CheckOutcome(s, n).0
      case Err(e) => Err(e)
      case Ok(None) => Dispatch(reg[1..], typ, v, ref, n)
      case Ok(Some(text)) => Ok(Some(Issue(CheckOutcome(s, n).1.msgLevel, text)))
  }

  /** An issue filed by its level; a level that is neither adds nothing. */
  function File(acc: Report, level: string, line: string): Report {
    if level == "error" then acc.(errors := acc.errors + [line])
    else if level == "warning" then acc.(warnings := acc.warnings + [line])
    else acc
  }

  /** The values of a registered item checked in order; None values are skipped, and the
      item's entry is looked up under the name as the user wrote it. */
  function ValuesReport(c: Ctx, msec: OrdMap<Config.ConfigEntry>, section: string, item: string,
                        vs: seq<Scalar>, acc: Report): Result<Report>
    decreases |vs|
  {
    if vs == [] then Ok(acc)
    else if vs[0] == Null then ValuesReport(c, msec, section, item, vs[1..], acc)
    else if item !in msec.vals then Err(KeyError(Some(item)))
    else
      var found :- Dispatch(c.reg, msec.vals[item].typ, vs[0], c.ref, c.n);
      var next := if found.Some? then File(acc, found.value.level, Line(section, item, found.value.text)) else acc;
      ValuesReport(c, msec, section, item, vs[1..], next)
  }

  /** One item: a warning when its lowercased name is not registered, else its values. */
  function ItemReport(c: Ctx, master: Master, section: string, item: string, value: Value, acc: Report): Result<Report> {
    if section !in master.vals then Err(KeyError(Some(section)))
    else if Lower(item) !in master.vals[section].vals then
      Ok(acc.(warnings := acc.warnings + [Line(section, item, Unregistered)]))
    else ValuesReport(c, master.vals[section], section, item, MkLst(value), acc)
  }

  /** The items `keys` of one user section, in order. */
  function ItemsReport(c: Ctx, master: Master, section: string, sec: OrdMap<Value>, keys: seq<string>,
                       acc: Report): Result<Report>
    decreases |keys|
  {
    if keys == [] then Ok(acc)
    else if keys[0] !in sec.vals then Err(KeyError(Some(keys[0])))
    else
      var next :- ItemReport(c, master, section, keys[0], sec.vals[keys[0]], acc);
      ItemsReport(c, master, section, sec, keys[1..], next)
  }

  /** The sections `keys` of the user config, in order. */
  function SectionsReport(c: Ctx, master: Master, cfg: Cfg, keys: seq<string>, acc: Report): Result<Report>
    decreases |keys|
  {
    if keys == [] then Ok(acc)
    else if keys[0] !in cfg.vals then Err(KeyError(Some(keys[0])))
    else
      var sec := cfg.vals[keys[0]];
      var next :- ItemsReport(c, master, keys[0], sec, sec.keys, acc);
      SectionsReport(c, master, cfg, keys[1..], next)
  }

  /** `check_config(config_obj)`: the warnings and errors of the whole user config. */
  function ConfigReport(c: Ctx, master: Master, cfg: Cfg): Result<Report> {
    SectionsReport(c, master, cfg, cfg.keys, Report([], []))
  }

  /** `check_config(u)`. The method changes nothing: the user config is only read. */
  method CheckConfig(u: UserConfig, reg: seq<Registered>, n: Natives) returns (r: Result<Report>)
    ensures r == ConfigReport(Ctx(reg, UserFile(u.filename), n), u.mcfg, u.cfg)
  {
    var c := Ctx(reg, UserFile(u.filename), n);
    var cfg := u.cfg;
    var acc := Report([], []);
    var k := 0;
    while k < |cfg.keys|
      invariant 0 <= k <= |cfg.keys|
      invariant ConfigReport(c, u.mcfg, cfg) == SectionsReport(c, u.mcfg, cfg, cfg.keys[k..], acc)
    {
      assert cfg.keys[k..][1..] == cfg.keys[k + 1..];
      var section := cfg.keys[k];
      if section !in cfg.vals {
        return Err(KeyError(Some(section)));
      }
      var next := CheckSection(c, u.mcfg, section, cfg.vals[section], acc);
      if next.Err? {
        return next;
      }
      acc := next.value;
      k := k + 1;
    }
    return Ok(acc);
  }

  method CheckSection(c: Ctx, master: Master, section: string, sec: OrdMap<Value>, acc0: Report)
    returns (r: Result<Report>)
    ensures r == ItemsReport(c, master, section, sec, sec.keys, acc0)
  {
    var acc := acc0;
    var k := 0;
    while k < |sec.keys|
      invariant 0 <= k <= |sec.keys|
      invariant ItemsReport(c, master, section, sec, sec.keys, acc0) == ItemsReport(c, master, section, sec, sec.keys[k..], acc)
    {
      assert sec.keys[k..][1..] == sec.keys[k + 1..];
      var item := sec.keys[k];
      if item !in sec.vals {
        return Err(KeyError(Some(item)));
      }
      if section !in master.vals {
        return Err(KeyError(Some(section)));
      }
      if Lower(item) !in master.vals[section].vals {
        acc := acc.(warnings := acc.warnings + [Line(section, item, Unregistered)]);
      } else {
        var next := CheckValues(c, master.vals[section], section, item, MkLst(sec.vals[item]), acc);
        if next.Err? {
          return next;
        }
        acc := next.value;
      }
      k := k + 1;
    }
    return Ok(acc);
  }

  method CheckValues(c: Ctx, msec: OrdMap<Config.ConfigEntry>, section: string, item: string,
                     vs: seq<Scalar>, acc0: Report) returns (r: Result<Report>)
    ensures r == ValuesReport(c, msec, section, item, vs, acc0)
  {
    var acc := acc0;
    var k := 0;
    while k < |vs|
      invariant 0 <= k <= |vs|
      invariant ValuesReport(c, msec, section, item, vs, acc0) == ValuesReport(c, msec, section, item, vs[k..], acc)
    {
      assert vs[k..][1..] == vs[k + 1..];
      if vs[k] != Null {
        if item !in msec.vals {
          return Err(KeyError(Some(item)));
        }
        var found := DispatchValue(c, msec.vals[item].typ, vs[k]);
        if found.Err? {
          return Err(found.error);
        }
        if found.value.Some? {
          acc := File(acc, found.value.value.level, Line(section, item, found.value.value.text));
        }
      }
      k := k + 1;
    }
    return Ok(acc);
  }

  /** The registry walk for one value: each checker whose lowercased name is the type is
      built on the value and asked for its issue. */
  method DispatchValue(c: Ctx, typ: Value, v: Scalar) returns (r: Result<Option<Issue>>)
    ensures r == Dispatch(c.reg, typ, v, c.ref, c.n)
  {
    var j := 0;
    while j < |c.reg|
      invariant 0 <= j <= |c.reg|
      invariant Dispatch(c.reg, typ, v, c.ref, c.n) == Dispatch(c.reg[j..], typ, v, c.ref, c.n)
    {
      assert c.reg[j..][1..] == c.reg[j + 1..];
      if typ == One(Str(Lower(c.reg[j].name))) {
        var b := Checker.New(c.reg[j].kind, Kwargs(Some(One(v)), Some(c.ref), None));
        if b.Err? {
          return Err(b.error);
        }
        var issue := b.value.Check(c.n);
        if issue.Err? {
          return Err(issue.error);
        }
        if issue.value.Some? {
          return Ok(Some(Issue(b.value.msgLevel, issue.value.value)));
        }
      }
      j := j + 1;
    }
    return Ok(None);
  }

  // ------------------------------------------------------------ cast_all_variables

  /** The state of the user config when the pass stops, and the exception that stopped it. */
  datatype Outcome = Outcome(cfg: Cfg, error: Option<Error>)

  /** The values `v in [None, 'none', 'None']` accepts. */
  predicate NoneWord(v: Scalar) {
    v == Null || v == Str("none") || v == Str("None")
  }

  /** The first registered checker whose lowercased name is `t`. */
  function FirstMatch(reg: seq<Registered>, t: string): (r: Option<Kind>)
    ensures r.Some? <==> exists j :: 0 <= j < |reg| && Lower(reg[j].name) == t
  {
    if reg == [] then None
    else if Lower(reg[0].name) == t then Some(reg[0].kind)
    else
      var r := FirstMatch(reg[1..], t);
      assert forall j :: 1 <= j < |reg| ==> reg[1..][j - 1] == reg[j];
      r
  }

  /** `t in all_checks.keys()`. */
  predicate Registered?(reg: seq<Registered>, t: string) {
    exists j :: 0 <= j < |reg| && reg[j].name == t
  }

  /** One value of a registered item: the checker is built first (its exception ends the
      pass even for a None value), then a None word gives None and anything else the cast. */
  function CastElement(found: Option<Kind>, t: string, v: Scalar, ref: ConfigRef, n: Natives): Result<Scalar> {
    match found
    case None => Err(UnknownType(t))
    case Some(kind) =>
      var s :- Init(kind, Kwargs(Some(One(v)), Some(ref), None));
      if NoneWord(v) then Ok(Null)
      else
        var x :- CastStep(s, n).0;
        // A single value casts to a single value (`CastGivesScalar`).
        Ok(match x case One(y) => y case Many(_) => Null)
  }

  /** The casts of `vs` appended to `acc`, stopping at the first exception. */
  function CastValues(found: Option<Kind>, t: string, vs: seq<Scalar>, ref: ConfigRef, n: Natives,
                      acc: seq<Scalar>): Result<seq<Scalar>>
    decreases |vs|
  {
    if vs == [] then Ok(acc)
    else
      var x :- CastElement(found, t, vs[0], ref, n);
      CastValues(found, t, vs[1..], ref, n, acc + [x])
  }

  /** The new value of item `i` of section `s`: unregistered items keep their value (a
      one-element list unwrapped); a registered item's type must be text naming a registered
      checker, and its values are cast one by one. */
  function CastItemValue(c: Ctx, master: Master, s: string, i: string, value: Value): Result<Value> {
    if s !in master.vals then Err(KeyError(Some(s)))
    else if i !in master.vals[s].vals then Ok(Unlist(MkLst(value)))
    else
      match master.vals[s].vals[i].typ
      case One(Str(raw)) =>
        var t := Lower(raw);
        if !Registered?(c.reg, Lower(t)) then Err(UnknownType(t))
        else
          var ws :- CastValues(FirstMatch(c.reg, t), t, MkLst(value), c.ref, c.n, []);
          Ok(Unlist(ws))
      case _ => Err(AttributeError)  // only text has `.lower()`
  }

  /** The items `keys` of section `s` cast in order, each stored as soon as it is cast. */
  function CastItems(c: Ctx, master: Master, s: string, keys: seq<string>, cfg: Cfg): Outcome
    decreases |keys|
  {
    if keys == [] then Outcome(cfg, None)
    else if s !in cfg.vals then Outcome(cfg, Some(KeyError(Some(s))))
    else if keys[0] !in cfg.vals[s].vals then Outcome(cfg, Some(KeyError(Some(keys[0]))))
    else
      match CastItemValue(c, master, s, keys[0], cfg.vals[s].vals[keys[0]])
      case Err(e) => Outcome(cfg, Some(e))
      case Ok(w) => CastItems(c, master, s, keys[1..], cfg.Put(s, cfg.vals[s].Put(keys[0], w)))
  }

  /** The sections `keys` cast in order. */
  function CastSections(c: Ctx, master: Master, keys: seq<string>, cfg: Cfg): Outcome
    decreases |keys|
  {
    if keys == [] then Outcome(cfg, None)
    else if keys[0] !in cfg.vals then Outcome(cfg, Some(KeyError(Some(keys[0]))))
    else
      var o := CastItems(c, master, keys[0], cfg.vals[keys[0]].keys, cfg);
      if o.error.Some? then o else CastSections(c, master, keys[1..], o.cfg)
  }

  /** The item's values cast in order. */
  method CastItem(c: Ctx, master: Master, s: string, i: string, value: Value) returns (r: Result<Value>)
    ensures r == CastItemValue(c, master, s, i, value)
  {
    if s !in master.vals {
      return Err(KeyError(Some(s)));
    }
    if i !in master.vals[s].vals {
      return Ok(Unlist(MkLst(value)));
    }
    var typ := master.vals[s].vals[i].typ;
    if !(typ.One? && typ.x.Str?) {
      return Err(AttributeError);
    }
    var t := Lower(typ.x.s);
    if !Registered?(c.reg, Lower(t)) {
      return Err(UnknownType(t));
    }
    var vs := MkLst(value);
    var values: seq<Scalar> := [];
    var k := 0;
    while k < |vs|
      invariant 0 <= k <= |vs|
      invariant CastValues(FirstMatch(c.reg, t), t, vs, c.ref, c.n, []) ==
                CastValues(FirstMatch(c.reg, t), t, vs[k..], c.ref, c.n, values)
    {
      assert vs[k..][1..] == vs[k + 1..];
      var found := FindChecker(c.reg, t);
      if found.None? {
        return Err(UnknownType(t));
      }
      var b := Checker.New(found.value, Kwargs(Some(One(vs[k])), Some(c.ref), None));
      if b.Err? {
        return Err(b.error);
      }
      if NoneWord(vs[k]) {
        values := values + [Null];
      } else {
        var x := b.value.Cast(c.n);
        if x.Err? {
          return Err(x.error);
        }
        values := values + [match x.value case One(y) => y case Many(_) => Null];
      }
      k := k + 1;
    }
    return Ok(Unlist(values));
  }

  /** The registry scanned for the first checker named `t` once lowercased. */
  method FindChecker(reg: seq<Registered>, t: string) returns (r: Option<Kind>)
    ensures r == FirstMatch(reg, t)
  {
    var j := 0;
    while j < |reg|
      invariant 0 <= j <= |reg|
      invariant FirstMatch(reg, t) == FirstMatch(reg[j..], t)
    {
      assert reg[j..][1..] == reg[j + 1..];
      if Lower(reg[j].name) == t {
        return Some(reg[j].kind);
      }
      j := j + 1;
    }
    return None;
  }

  // ------------------------------------------------------------ get_user_config

  /** Where the master config comes from. */
  datatype MasterSource =
    /** `MasterConfig(path=mk_lst(master_files), modules=modules)`. */
    | Read(files: Option<seq<Scalar>>, modules: Option<Value>)
    /** The master config object passed in. */
    | Given(mcfg: Master)

  /** The argument guard of `get_user_config`: some master config must be named, and the
      config file must exist (`isFile` answers `os.path.isfile`); master files or modules,
      when given, are read in preference to a master config object. */
  function UserConfigSource(configFile: string, masterFiles: Option<Value>, modules: Option<Value>,
                            mcfg: Option<Master>, isFile: bool): Result<MasterSource>
  {
    if modules.None? && masterFiles.None? && mcfg.None? then Err(NoMasterConfig)
    else if !isFile then Err(MissingFile(configFile))
    else if masterFiles.Some? || modules.Some? then
      Ok(Read(if masterFiles.Some? then Some(MkLst(masterFiles.value)) else None, modules))
    else Ok(Given(mcfg.value))
  }

  // ------------------------------------------------------------ properties of check_config

  /** The values a check looks at: `vs` without its None values, order kept. */
  function NonNull(vs: seq<Scalar>): (r: seq<Scalar>)
    ensures |r| <= |vs| && Null !in r
  {
    if vs == [] then [] else (if vs[0] == Null then [] else [vs[0]]) + NonNull(vs[1..])
  }

  /** `b` is `a` with lines appended to either list. */
  predicate Extends(a: Report, b: Report) {
    && |a.warnings| <= |b.warnings| && b.warnings[..|a.warnings|] == a.warnings
    && |a.errors| <= |b.errors| && b.errors[..|a.errors|] == a.errors
  }

  function Count(r: Report): nat { |r.warnings| + |r.errors| }

  /** The level a checker class reports at. */
  function LevelOf(k: Kind): string {
    if k.IsTypeCheck() || k.IsCritical() then "error" else "warning"
  }

  /** Every checker registered under the type `typ` reports at `level`. */
  predicate AllAt(reg: seq<Registered>, typ: Value, level: string) {
    forall j :: 0 <= j < |reg| && typ == One(Str(Lower(reg[j].name))) ==> LevelOf(reg[j].kind) == level
  }

  /** An item the master section does not list (by its lowercased name) gets exactly one
      "Not a registered option." warning, and none of its values is checked. */
  lemma UnregisteredWarns(c: Ctx, master: Master, section: string, item: string, value: Value, acc: Report)
    requires section in master.vals && Lower(item) !in master.vals[section].vals
    ensures ItemReport(c, master, section, item, value, acc) ==
      Ok(Report(acc.warnings + [Line(section, item, Unregistered)], acc.errors))
  {
  }

  /** None values are skipped: checking the values is checking the values that are not None. */
  lemma {:induction false} NullsSkipped(c: Ctx, msec: OrdMap<Config.ConfigEntry>, section: string, item: string,
                                         vs: seq<Scalar>, acc: Report)
    ensures ValuesReport(c, msec, section, item, vs, acc) == ValuesReport(c, msec, section, item, NonNull(vs), acc)
    decreases |vs|
  {
    if vs != [] {
      var rest := NonNull(vs[1..]);
      if vs[0] == Null {
        assert NonNull(vs) == rest;
        NullsSkipped(c, msec, section, item, vs[1..], acc);
      } else {
        var w := [vs[0]] + rest;
        assert NonNull(vs) == w;
        assert w[0] == vs[0] && w[1..] == rest;
        if item in msec.vals {
          var found := Dispatch(c.reg, msec.vals[item].typ, vs[0], c.ref, c.n);
          if found.Ok? {
            var next := if found.value.Some? then File(acc, found.value.value.level, Line(section, item, found.value.value.text)) else acc;
            NullsSkipped(c, msec, section, item, vs[1..], next);
          }
        }
      }
    }
  }

  /** A type no registered checker is named after gets no issue. */
  lemma {:induction false} NoCheckerNoIssue(reg: seq<Registered>, typ: Value, v: Scalar, ref: ConfigRef, n: Natives)
    requires forall j :: 0 <= j < |reg| ==> typ != One(Str(Lower(reg[j].name)))
    ensures Dispatch(reg, typ, v, ref, n) == Ok(None)
    decreases |reg|
  {
    if reg != [] {
      assert typ != One(Str(Lower(reg[0].name)));
      assert forall j :: 0 <= j < |reg[1..]| ==> reg[1..][j] == reg[j + 1];
      NoCheckerNoIssue(reg[1..], typ, v, ref, n);
    }
  }

  /** Hence the values of an item whose type has no checker produce no message. */
  lemma {:induction false} NoCheckerNoMessage(c: Ctx, msec: OrdMap<Config.ConfigEntry>, section: string, item: string,
                                               vs: seq<Scalar>, acc: Report)
    requires item in msec.vals
    requires forall j :: 0 <= j < |c.reg| ==> msec.vals[item].typ != One(Str(Lower(c.reg[j].name)))
    ensures ValuesReport(c, msec, section, item, vs, acc) == Ok(acc)
    decreases |vs|
  {
    if vs != [] {
      if vs[0] != Null {
        NoCheckerNoIssue(c.reg, msec.vals[item].typ, vs[0], c.ref, c.n);
      }
      NoCheckerNoMessage(c, msec, section, item, vs[1..], acc);
    }
  }

  /** The issue of a value comes from a checker registered under its type, at that
      checker's level. */
  lemma {:induction false} IssueLevel(reg: seq<Registered>, typ: Value, v: Scalar, ref: ConfigRef, n: Natives, level: string)
    requires AllAt(reg, typ, level)
    requires Dispatch(reg, typ, v, ref, n).Ok? && Dispatch(reg, typ, v, ref, n).value.Some?
    ensures Dispatch(reg, typ, v, ref, n).value.value.level == level
    decreases |reg|
  {
    assert forall j :: 0 <= j < |reg[1..]| ==> reg[1..][j] == reg[j + 1];
    if typ != One(Str(Lower(reg[0].name))) {
      IssueLevel(reg[1..], typ, v, ref, n, level);
    } else {
      var kw := Kwargs(Some(One(v)), Some(ref), None);
      var s := Init(reg[0].kind, kw).value;
      if CheckOutcome(s, n).0 == Ok(None) {
        IssueLevel(reg[1..], typ, v, ref, n, level);
      } else {
        CheckLevel(reg[0].kind, kw, n);
      }
    }
  }

  /** The values of an item only ever add lines, at most one per value that is not None;
      when every checker of its type reports errors nothing is added to the warnings, and
      when every one reports warnings nothing is added to the errors. */
  lemma {:induction false} ValuesGrowth(c: Ctx, msec: OrdMap<Config.ConfigEntry>, section: string, item: string,
                                         vs: seq<Scalar>, acc: Report)
    requires ValuesReport(c, msec, section, item, vs, acc).Ok?
    ensures var r := ValuesReport(c, msec, section, item, vs, acc).value;
      && Extends(acc, r)
      && Count(r) <= Count(acc) + |NonNull(vs)|
      && (item in msec.vals && AllAt(c.reg, msec.vals[item].typ, "error") ==> r.warnings == acc.warnings)
      && (item in msec.vals && AllAt(c.reg, msec.vals[item].typ, "warning") ==> r.errors == acc.errors)
    decreases |vs|
  {
    if vs != [] {
      var rest := NonNull(vs[1..]);
      assert NonNull(vs) == (if vs[0] == Null then [] else [vs[0]]) + rest;
      if vs[0] == Null {
        ValuesGrowth(c, msec, section, item, vs[1..], acc);
      } else {
        var typ := msec.vals[item].typ;
        var found := Dispatch(c.reg, typ, vs[0], c.ref, c.n);
        var next := if found.value.Some? then File(acc, found.value.value.level, Line(section, item, found.value.value.text)) else acc;
        if found.value.Some? {
          if AllAt(c.reg, typ, "error") {
            IssueLevel(c.reg, typ, vs[0], c.ref, c.n, "error");
          }
          if AllAt(c.reg, typ, "warning") {
            IssueLevel(c.reg, typ, vs[0], c.ref, c.n, "warning");
          }
        }
        assert Extends(acc, next) && Count(next) <= Count(acc) + 1;
        ValuesGrowth(c, msec, section, item, vs[1..], next);
        var r := ValuesReport(c, msec, section, item, vs[1..], next).value;
        assert r.warnings[..|acc.warnings|] == r.warnings[..|next.warnings|][..|acc.warnings|];
        assert r.errors[..|acc.errors|] == r.errors[..|next.errors|][..|acc.errors|];
      }
    }
  }

  // ------------------------------------------------------------ properties of cast_all_variables

  /** The "Unknown type_value prescribed" error cannot happen: a type that passed the
      registry test is lowercase, so some checker's lowercased name equals it. */
  lemma CheckerAlwaysFound(reg: seq<Registered>, raw: string)
    requires Registered?(reg, Lower(Lower(raw)))
    ensures FirstMatch(reg, Lower(raw)).Some?
  {
    var j :| 0 <= j < |reg| && reg[j].name == Lower(Lower(raw));
    LowerIdempotent(raw);
    LowerIdempotent(Lower(raw));
    assert Lower(reg[j].name) == Lower(raw);
  }

  /** One value: None, 'none' and 'None' become None once the checker is built; anything else
      becomes the checker's cast, which is a single value. */
  lemma CastElementRules(kind: Kind, t: string, v: Scalar, ref: ConfigRef, n: Natives)
    requires Init(kind, Kwargs(Some(One(v)), Some(ref), None)).Ok?
    ensures NoneWord(v) ==> CastElement(Some(kind), t, v, ref, n) == Ok(Null)
    ensures !NoneWord(v) ==>
      var s := Init(kind, Kwargs(Some(One(v)), Some(ref), None)).value;
      && (CastElement(Some(kind), t, v, ref, n).Ok? <==> CastStep(s, n).0.Ok?)
      && (CastStep(s, n).0.Ok? ==> One(CastElement(Some(kind), t, v, ref, n).value) == CastStep(s, n).0.value)
  {
    CastGivesScalar(kind, v, ref, n);
  }

  /** The casts of a list of values: the values are cast one by one and in order, the result
      has one value per input value, and it fails exactly when one of the values fails. */
  lemma {:induction false} CastValuesSpec(found: Option<Kind>, t: string, vs: seq<Scalar>, ref: ConfigRef, n: Natives,
                                           acc: seq<Scalar>)
    ensures CastValues(found, t, vs, ref, n, acc).Ok? <==>
      forall k :: 0 <= k < |vs| ==> CastElement(found, t, vs[k], ref, n).Ok?
    ensures CastValues(found, t, vs, ref, n, acc).Ok? ==>
      var r := CastValues(found, t, vs, ref, n, acc).value;
      && |r| == |acc| + |vs| && r[..|acc|] == acc
      && forall k :: 0 <= k < |vs| ==> r[|acc| + k] == CastElement(found, t, vs[k], ref, n).value
    decreases |vs|
  {
    hide CastElement;
    if vs != [] {
      assert forall k :: 0 <= k < |vs[1..]| ==> vs[1..][k] == vs[k + 1];
      var x := CastElement(found, t, vs[0], ref, n);
      if x.Ok? {
        CastValuesSpec(found, t, vs[1..], ref, n, acc + [x.value]);
        var r := CastValues(found, t, vs, ref, n, acc);
        if r.Ok? {
          assert r.value[..|acc|] == r.value[..|acc| + 1][..|acc|];
          assert r.value[|acc|] == (acc + [x.value])[|acc|];
        }
      }
    }
  }

  /** An item the master section does not list keeps its values; a registered item gets one
      cast per value; either way a single value is stored bare and any other number as a list. */
  lemma CastItemShape(c: Ctx, master: Master, s: string, i: string, value: Value)
    requires s in master.vals
    requires CastItemValue(c, master, s, i, value).Ok?
    ensures var w := CastItemValue(c, master, s, i, value).value;
      && |MkLst(w)| == |MkLst(value)|
      && (w.One? <==> |MkLst(value)| == 1)
      && (i !in master.vals[s].vals ==> MkLst(w) == MkLst(value))
  {
    if i in master.vals[s].vals {
      var t := Lower(master.vals[s].vals[i].typ.x.s);
      CastValuesSpec(FirstMatch(c.reg, t), t, MkLst(value), c.ref, c.n, []);
    }
  }

  /** A registered item whose type is not text, or names no registered checker, stops the
      pass. */
  lemma CastItemErrors(c: Ctx, master: Master, s: string, i: string, value: Value)
    requires s in master.vals && i in master.vals[s].vals
    ensures var typ := master.vals[s].vals[i].typ;
      && (!(typ.One? && typ.x.Str?) ==> CastItemValue(c, master, s, i, value) == Err(AttributeError))
      && (typ.One? && typ.x.Str? && !Registered?(c.reg, Lower(typ.x.s)) ==>
            CastItemValue(c, master, s, i, value) == Err(UnknownType(Lower(typ.x.s))))
  {
    var typ := master.vals[s].vals[i].typ;
    if typ.One? && typ.x.Str? {
      LowerIdempotent(typ.x.s);
    }
  }

  /** The layout of a config a section's cast leaves: `cfg` with item values replaced. */
  predicate SameLayout(a: Cfg, b: Cfg) {
    && a.keys == b.keys && a.vals.Keys == b.vals.Keys
    && forall s :: s in a.vals ==> b.vals[s].keys == a.vals[s].keys && b.vals[s].vals.Keys == a.vals[s].vals.Keys
  }

  /** Casting the items of a section only replaces values: no section or item is added,
      removed or moved, whether the pass finishes or stops. */
  lemma {:induction false} CastItemsLayout(c: Ctx, master: Master, s: string, keys: seq<string>, cfg: Cfg)
    ensures SameLayout(cfg, CastItems(c, master, s, keys, cfg).cfg)
    decreases |keys|
  {
    if keys != [] && s in cfg.vals && keys[0] in cfg.vals[s].vals {
      var w := CastItemValue(c, master, s, keys[0], cfg.vals[s].vals[keys[0]]);
      if w.Ok? {
        var next := cfg.Put(s, cfg.vals[s].Put(keys[0], w.value));
        assert SameLayout(cfg, next);
        CastItemsLayout(c, master, s, keys[1..], next);
      }
    }
  }

  /** Hence the whole pass keeps every section and item where it was. */
  lemma {:induction false} CastKeepsLayout(c: Ctx, master: Master, keys: seq<string>, cfg: Cfg)
    ensures SameLayout(cfg, CastSections(c, master, keys, cfg).cfg)
    decreases |keys|
  {
    if keys != [] && keys[0] in cfg.vals {
      CastItemsLayout(c, master, keys[0], cfg.vals[keys[0]].keys, cfg);
      var o := CastItems(c, master, keys[0], cfg.vals[keys[0]].keys, cfg);
      if o.error.None? {
        CastKeepsLayout(c, master, keys[1..], o.cfg);
      }
    }
  }

  /** `get_user_config` refuses to run without some master config, then without an
      existing config file; files or modules win over a master config object. */
  lemma SourceRules(configFile: string, masterFiles: Option<Value>, modules: Option<Value>,
                    mcfg: Option<Master>, isFile: bool)
    ensures UserConfigSource(configFile, masterFiles, modules, mcfg, isFile) == Err(NoMasterConfig) <==>
      masterFiles.None? && modules.None? && mcfg.None?
    ensures (masterFiles.Some? || modules.Some? || mcfg.Some?) && !isFile ==>
      UserConfigSource(configFile, masterFiles, modules, mcfg, isFile) == Err(MissingFile(configFile))
    ensures isFile && masterFiles.Some? ==>
      UserConfigSource(configFile, masterFiles, modules, mcfg, isFile) == Ok(Read(Some(MkLst(masterFiles.value)), modules))
    ensures isFile && masterFiles.None? && modules.None? && mcfg.Some? ==>
      UserConfigSource(configFile, masterFiles, modules, mcfg, isFile) == Ok(Given(mcfg.value))
  {
  }
}
