/** The value checkers of checkers.py: one class per expected type, each holding the value
    under test and the level and message of the issue it reports. */
module Checkers {
  import opened Base
  import opened Strings
  import opened Values
  import opened Paths

  /** The checker classes. */
  datatype Kind =
    | GenericCheck | CheckType | CheckDatetime | CheckFloat | CheckInt | CheckBool | CheckString
    | CheckPath | CheckDirectory | CheckFilename | CheckCriticalFilename | CheckCriticalDirectory
  {
    predicate IsPath() {
      CheckPath? || CheckDirectory? || CheckFilename? || CheckCriticalFilename? || CheckCriticalDirectory?
    }

    /** `CheckType` and the subclasses that cast. */
    predicate IsTypeCheck() { !GenericCheck? && !IsPath() }

    predicate IsCritical() { CheckCriticalFilename? || CheckCriticalDirectory? }

    predicate IsDirectory() { CheckDirectory? || CheckCriticalDirectory? }

    /** The `type` attribute; `GenericCheck` has none, and the path checkers keep the
        `str` of `CheckType`. */
    function TypeText(): Option<string> {
      match this
      case GenericCheck => None
      case CheckDatetime => Some("datetime")
      case CheckFloat => Some("float")
      case CheckInt => Some("int")
      case CheckBool => Some("bool")
      case CheckString => Some("string")
      case _ => Some("str")
    }

    /** The `message` a path checker reports for a missing path. */
    function Missing(): Option<string> {
      if IsDirectory() then Some("Directory does not exist.")
      else if CheckFilename? || CheckCriticalFilename? then Some("File does not exist.")
      else None
    }
  }

  /** What a checker sees of its `config` keyword: Python's None, or a user config with the
      name of the file it was read from. */
  datatype ConfigRef = NoConfig | UserFile(filename: Option<string>)

  /** The keyword arguments a checker is built with; `None` is a keyword not given. */
  datatype Kwargs = Kwargs(value: Option<Value>, config: Option<ConfigRef>, isList: Option<bool>)

  /** The attributes of a checker object. */
  datatype Snapshot = Snapshot(kind: Kind, value: Value, msgLevel: string, message: Option<string>,
                               config: ConfigRef, typ: Option<string>, isList: bool, dirPath: bool)

  /** What `is_valid()` returns: validity and message, or Python's None (`GenericCheck`). */
  datatype Verdict = Verdict(valid: bool, msg: Option<string>) | NoVerdict

  const BoolYes: seq<string> := ["y", "yes", "true"]
  const BoolNo: seq<string> := ["n", "no", "false"]
  const ListMessage: string := "Expected single value received list"

  /** A path made absolute against the directory of the config file; only text has a
      notion of being absolute. */
  function Resolved(v: Value, root: Option<string>): Result<Value> {
    if v == One(Null) || root.None? then Ok(v)
    else
      match v
      case One(Str(s)) => if IsAbs(s) then Ok(v) else Ok(One(Str(PathJoin(DirName(root.value), s))))
      case _ => Err(TypeError)
  }

  /** The object `kind(**kw)` builds, or the exception its constructor raises. */
  function Init(kind: Kind, kw: Kwargs): Result<Snapshot> {
    if kw.value.None? then Err(MissingKeyword("value"))
    else if kw.config.None? then Err(MissingKeyword("config"))
    else
      var cfg := kw.config.value;
      var base := Snapshot(kind, kw.value.value, "warning", None, cfg, kind.TypeText(),
                           !kind.GenericCheck? && kw.isList == Some(true), false);
      if !kind.IsPath() then Ok(base)
      else if cfg.NoConfig? then Err(AttributeError)
      else
        var v :- Resolved(kw.value.value, cfg.filename);
        Ok(base.(value := v, dirPath := kind.IsDirectory(), message := kind.Missing(),
                 msgLevel := if kind.IsCritical() then "error" else "warning"))
  }

  /** `is_it_a_lst()`: whether the value is a list of other than one element, and the
      object after a one-element list has been unwrapped. */
  function ListCheck(s: Snapshot): (bool, Snapshot) {
    match s.value
    case Many(xs) => if |xs| == 1 then (false, s.(value := Unlist(xs))) else (true, s)
    case One(_) => (false, s)
  }

  /** Python's `float()` of a value; a list has none. */
  function FloatOf(v: Value, n: Natives): Option<real> {
    match v
    case One(x) => PyFloat(x, n)
    case Many(_) => None
  }

  predicate Integral(x: real) { x == x.Floor as real }

  /** `cast()`: the cast value or the failure, and the `value` attribute afterwards
      (`CheckInt` and `CheckBool` assign it while casting). */
  function CastStep(s: Snapshot, n: Natives): (Result<Value>, Value) {
    match s.kind
    case GenericCheck => (Err(AttributeError), s.value)  // GenericCheck has no cast
    case CheckDatetime =>
      (match n.toDatetime(s.value)
       case Some(d) => Ok(One(Date(d)))
       case None => Err(CastFailed("datetime")), s.value)
    case CheckFloat =>
      (match FloatOf(s.value, n)
       case Some(x) => Ok(One(Float(x)))
       case None => Err(CastFailed("float")), s.value)
    case CheckInt =>
      (match FloatOf(s.value, n)
       case None => (Err(CastFailed("int")), s.value)
       case Some(x) =>
         if Integral(x) then (Ok(One(Int(x.Floor))), One(Int(x.Floor)))
         else (Err(CastFailed("int")), One(Float(x))))
    case CheckBool =>
      var w := Lower(PyStr(s.value, n));
      if w in BoolYes then (Ok(One(Bool(true))), One(Bool(true)))
      else if w in BoolNo then (Ok(One(Bool(false))), One(Bool(false)))
      else (Err(CastFailed("bool")), s.value)
    case _ =>
      if s.kind.IsPath() then (Ok(s.value), s.value)
      else (Ok(One(Str(PyStr(s.value, n)))), s.value)  // `str()`
  }

  function TypeWord(t: Option<string>): string {
    match t
    case Some(w) => w
    case None => "None"
  }

  /** `is_valid()`: the verdict (or the exception a file-system test raises) and the
      object afterwards. */
  function Validity(s: Snapshot, n: Natives): (Result<Verdict>, Snapshot) {
    if s.kind.GenericCheck? then (Ok(NoVerdict), s)
    else if s.kind.IsPath() then
      match (if s.dirPath then n.isDir(s.value) else n.isFile(s.value))
      case None => (Err(TypeError), s)
      case Some(found) => (Ok(Verdict(found, s.message)), s)
    else
      var (listy, s1) := ListCheck(s.(msgLevel := "error"));
      if listy && !s1.isList then (Ok(Verdict(false, Some(ListMessage))), s1)
      else
        var (res, after) := CastStep(s1, n);
        match res
        case Ok(x) => (Ok(Verdict(true, None)), s1.(value := x))
        case Err(_) =>
          (Ok(Verdict(false, Some("Expecting " + TypeWord(s1.typ) + " received " + TypeName(after)))),
           s1.(value := after))
  }

  /** `check()`: None for a valid value, otherwise the issue `is_valid()` gave. */
  function CheckOutcome(s: Snapshot, n: Natives): (Result<Option<string>>, Snapshot) {
    var (res, after) := Validity(s, n);
    match res
    case Err(e) => (Err(e), after)
    case Ok(NoVerdict) => (Err(TypeError), after)  // unpacking None
    case Ok(Verdict(valid, issue)) => (Ok(if valid then None else issue), after)
  }

  /** A checker object. */
  class Checker {
    const kind: Kind
    var value: Value
    var msgLevel: string
    var message: Option<string>
    const config: ConfigRef
    const typ: Option<string>
    const isList: bool
    const dirPath: bool

    function State(): Snapshot
      reads this
    {
      Snapshot(kind, value, msgLevel, message, config, typ, isList, dirPath)
    }

    /** The constructors of `GenericCheck`, `CheckType` and the subclasses, once the
        keywords are known to be usable. */
    constructor (kind: Kind, kw: Kwargs)
      requires Init(kind, kw).Ok?
      ensures State() == Init(kind, kw).value
    {
      this.kind := kind;
      var v := kw.value.value;
      msgLevel := "warning";
      message := None;
      config := kw.config.value;
      typ := kind.TypeText();
      isList := !kind.GenericCheck? && kw.isList == Some(true);
      if kind.IsPath() {
        var root := kw.config.value.filename;
        if v != One(Null) && root.Some? {
          var path := v.x.s;
          if !IsAbs(path) {
            v := One(Str(PathJoin(DirName(root.value), path)));
          }
        }
        dirPath := kind.IsDirectory();
        message := kind.Missing();
        if kind.IsCritical() {
          msgLevel := "error";
        }
      } else {
        dirPath := false;
      }
      value := v;
    }

    /** `kind(**kw)`, raising where a keyword is missing or the path cannot be resolved. */
    static method New(kind: Kind, kw: Kwargs) returns (r: Result<Checker>)
      ensures r.Err? <==> Init(kind, kw).Err?
      ensures r.Err? ==> r.error == Init(kind, kw).error
      ensures r.Ok? ==> fresh(r.value) && r.value.State() == Init(kind, kw).value
    {
      if kw.value.None? {
        return Err(MissingKeyword("value"));
      }
      if kw.config.None? {
        return Err(MissingKeyword("config"));
      }
      if kind.IsPath() {
        if kw.config.value.NoConfig? {
          return Err(AttributeError);
        }
        var v := kw.value.value;
        if v != One(Null) && kw.config.value.filename.Some? && !(v.One? && v.x.Str?) {
          return Err(TypeError);
        }
      }
      var c := new Checker(kind, kw);
      return Ok(c);
    }

    method IsItALst() returns (r: bool)
      modifies this
      ensures (r, State()) == ListCheck(old(State()))
    {
      if value.Many? {
        if |value.xs| == 1 {
          value := Unlist(value.xs);
          return false;
        } else {
          return true;
        }
      } else {
        return false;
      }
    }

    method Cast(n: Natives) returns (r: Result<Value>)
      modifies this
      ensures r == CastStep(old(State()), n).0
      ensures State() == old(State()).(value := CastStep(old(State()), n).1)
    {
      if kind.GenericCheck? {
        r := Err(AttributeError);
      } else if kind.CheckDatetime? {
        var d := n.toDatetime(value);
        r := if d.Some? then Ok(One(Date(d.value))) else Err(CastFailed("datetime"));
      } else if kind.CheckFloat? {
        var f := FloatOf(value, n);
        r := if f.Some? then Ok(One(Float(f.value))) else Err(CastFailed("float"));
      } else if kind.CheckInt? {
        r := CastFloatInt(n);
      } else if kind.CheckBool? {
        var w := Lower(PyStr(value, n));
        if w in BoolYes {
          value := One(Bool(true));
        } else if w in BoolNo {
          value := One(Bool(false));
        } else {
          return Err(CastFailed("bool"));
        }
        r := Ok(value);
      } else if kind.IsPath() {
        r := Ok(value);
      } else {
        r := Ok(One(Str(PyStr(value, n))));
      }
    }

    /** `CheckInt.cast_float_int`: through a float, keeping only whole numbers. */
    method CastFloatInt(n: Natives) returns (r: Result<Value>)
      requires kind.CheckInt?
      modifies this
      ensures r == CastStep(old(State()), n).0
      ensures State() == old(State()).(value := CastStep(old(State()), n).1)
    {
      var f := FloatOf(value, n);
      if f.None? {
        return Err(CastFailed("int"));
      }
      value := One(Float(f.value));
      if Integral(f.value) {
        value := One(Int(f.value.Floor));
      } else {
        return Err(CastFailed("int"));
      }
      return Ok(value);
    }

    method IsValid(n: Natives) returns (r: Result<Verdict>)
      modifies this
      ensures (r, State()) == Validity(old(State()), n)
    {
      if kind.GenericCheck? {
        return Ok(NoVerdict);
      }
      if kind.IsPath() {
        var found := if dirPath then n.isDir(value) else n.isFile(value);
        if found.None? {
          return Err(TypeError);
        }
        return Ok(Verdict(found.value, message));
      }
      msgLevel := "error";
      var listy := IsItALst();
      if listy && !isList {
        return Ok(Verdict(false, Some(ListMessage)));
      }
      var cast := Cast(n);
      if cast.Ok? {
        value := cast.value;
        return Ok(Verdict(true, None));
      }
      return Ok(Verdict(false, Some("Expecting " + TypeWord(typ) + " received " + TypeName(value))));
    }

    method Check(n: Natives) returns (r: Result<Option<string>>)
      modifies this
      ensures (r, State()) == CheckOutcome(old(State()), n)
    {
      var verdict := IsValid(n);
      if verdict.Err? {
        return Err(verdict.error);
      }
      if verdict.value.NoVerdict? {
        return Err(TypeError);
      }
      r := Ok(if verdict.value.valid then None else verdict.value.msg);
    }
  }

  // ------------------------------------------------------------ properties

  /** A checker needs both the `value` and the `config` keyword, `value` reported first;
      a type checker built with both starts as a warning with no message, holding the
      value as given. */
  lemma InitKeywords(kind: Kind, kw: Kwargs)
    ensures kw.value.None? ==> Init(kind, kw) == Err(MissingKeyword("value"))
    ensures kw.value.Some? && kw.config.None? ==> Init(kind, kw) == Err(MissingKeyword("config"))
    ensures kw.value.Some? && kw.config.Some? && !kind.IsPath() ==>
      && Init(kind, kw).Ok?
      && Init(kind, kw).value.value == kw.value.value
      && Init(kind, kw).value.msgLevel == "warning"
      && Init(kind, kw).value.message == None
      && (Init(kind, kw).value.isList <==> kind.IsTypeCheck() && kw.isList == Some(true))
  {
  }

  /** A path checker needs a config object; a relative text value is placed under the
      directory of the config file and an absolute one kept; directories are looked up as
      directories; the critical checkers report errors, the others warnings. */
  lemma PathInit(kind: Kind, v: Value, root: Option<string>, isList: Option<bool>)
    requires kind.IsPath()
    ensures Init(kind, Kwargs(Some(v), Some(NoConfig), isList)) == Err(AttributeError)
    ensures root.Some? && v != One(Null) && !(v.One? && v.x.Str?) ==>
      Init(kind, Kwargs(Some(v), Some(UserFile(root)), isList)) == Err(TypeError)
    ensures v.One? && v.x.Str? ==>
      var r := Init(kind, Kwargs(Some(v), Some(UserFile(root)), isList));
      && r.Ok?
      && r.value.value == (if root.None? || IsAbs(v.x.s) then v else One(Str(PathJoin(DirName(root.value), v.x.s))))
      && (r.value.dirPath <==> kind.CheckDirectory? || kind.CheckCriticalDirectory?)
      && (r.value.msgLevel == "error" <==> kind.CheckCriticalFilename? || kind.CheckCriticalDirectory?)
      && (r.value.msgLevel != "error" ==> r.value.msgLevel == "warning")
      && (kind.CheckDirectory? || kind.CheckCriticalDirectory? ==> r.value.message == Some("Directory does not exist."))
      && (kind.CheckFilename? || kind.CheckCriticalFilename? ==> r.value.message == Some("File does not exist."))
      && (kind.CheckPath? ==> r.value.message == None)
  {
  }

  /** `is_it_a_lst` answers true exactly for a list of other than one element; a
      one-element list is unwrapped, and nothing else changes. */
  lemma ListCheckSpec(s: Snapshot)
    ensures ListCheck(s).0 <==> s.value.Many? && |s.value.xs| != 1
    ensures s.value.Many? && |s.value.xs| == 1 ==> ListCheck(s).1 == s.(value := One(s.value.xs[0]))
    ensures !(s.value.Many? && |s.value.xs| == 1) ==> ListCheck(s).1 == s
  {
  }

  /** `is_it_a_lst()` as written: a one-element list is unwrapped by calling `mk_lst` with the
      keyword `unlist`, while its callers and its tests spell the keyword `unlst`; read that
      way, the call raises TypeError. */
  function ListCheckAsWritten(s: Snapshot): Result<(bool, Snapshot)> {
    if s.value.Many? && |s.value.xs| == 1 then Err(TypeError) else Ok(ListCheck(s))
  }

  /** `is_valid()` as written: the list check runs before the `try` that turns failures into
      a verdict, so its TypeError leaves `is_valid()`. */
  function ValidityAsWritten(s: Snapshot, n: Natives): (Result<Verdict>, Snapshot) {
    if s.kind.IsTypeCheck() then
      match ListCheckAsWritten(s.(msgLevel := "error"))
      case Err(e) => (Err(e), s.(msgLevel := "error"))
      case Ok(_) => Validity(s, n)
    else Validity(s, n)
  }

  /** The keyword matters exactly for a type checker given a one-element list: as written,
      `is_valid()` raises TypeError, where the intended check unwraps the value and reaches
      a verdict; on every other input the two agree. */
  lemma ListKeywordFinding(s: Snapshot, n: Natives)
    ensures !(s.kind.IsTypeCheck() && s.value.Many? && |s.value.xs| == 1) ==> ValidityAsWritten(s, n) == Validity(s, n)
    ensures s.kind.IsTypeCheck() && s.value.Many? && |s.value.xs| == 1 ==>
      && ValidityAsWritten(s, n).0 == Err(TypeError)
      && Validity(s, n).0.Ok? && Validity(s, n).0.value.Verdict?
      && ListCheck(s).1.value == One(s.value.xs[0])
  {
    if s.kind.IsTypeCheck() && !(s.value.Many? && |s.value.xs| == 1) {
      assert ListCheckAsWritten(s.(msgLevel := "error")).Ok?;
    }
  }

  /** `CheckBool` accepts exactly the yes/no words of the lowercased text, whatever its
      case, and stores the boolean it read. */
  lemma BoolWords(s: Snapshot, n: Natives)
    requires s.kind.CheckBool?
    ensures CastStep(s, n).0 == Ok(One(Bool(true))) <==> Lower(PyStr(s.value, n)) in BoolYes
    ensures CastStep(s, n).0 == Ok(One(Bool(false))) <==> Lower(PyStr(s.value, n)) in BoolNo
    ensures CastStep(s, n).0.Err? <==> Lower(PyStr(s.value, n)) !in BoolYes + BoolNo
    ensures CastStep(s, n).0.Ok? ==> CastStep(s, n).1 == CastStep(s, n).0.value
    ensures CastStep(s, n).0.Err? ==> CastStep(s, n).1 == s.value
  {
    var w := Lower(PyStr(s.value, n));
    assert w in BoolYes + BoolNo <==> w in BoolYes || w in BoolNo;
    if w in BoolYes {
      assert w !in BoolNo;
    }
  }

  /** `CheckInt` accepts exactly the values whose float is a whole number, and gives that
      number; a float with a fractional part is left in the value attribute. */
  lemma IntRule(s: Snapshot, n: Natives)
    requires s.kind.CheckInt?
    ensures CastStep(s, n).0.Ok? <==> FloatOf(s.value, n).Some? && Integral(FloatOf(s.value, n).value)
    ensures CastStep(s, n).0.Ok? ==>
      && CastStep(s, n).0.value.One? && CastStep(s, n).0.value.x.Int?
      && CastStep(s, n).0.value.x.i as real == FloatOf(s.value, n).value
      && CastStep(s, n).1 == CastStep(s, n).0.value
    ensures FloatOf(s.value, n).Some? && !Integral(FloatOf(s.value, n).value) ==>
      CastStep(s, n).1 == One(Float(FloatOf(s.value, n).value))
  {
  }

  /** Hence a whole float is accepted but a fractional one is reported as a float, the
      type the value attribute holds after the failed cast. */
  lemma IntFraction(s: Snapshot, n: Natives)
    requires s.kind.CheckInt? && s.typ == Some("int") && s.value.One?
    requires FloatOf(s.value, n).Some? && !Integral(FloatOf(s.value, n).value)
    ensures Validity(s, n).0 == Ok(Verdict(false, Some("Expecting int received float")))
    ensures Validity(s, n).1.value == One(Float(FloatOf(s.value, n).value))
  {
    var s1 := s.(msgLevel := "error");
    assert ListCheck(s1) == (false, s1);
    assert CastStep(s1, n).1 == One(Float(FloatOf(s.value, n).value));
    assert TypeName(One(Float(FloatOf(s.value, n).value))) == "float";
    assert CastStep(s1, n).0.Err?;
    assert TypeWord(s1.typ) == "int";
    assert "Expecting " + "int" + " received " + "float" == "Expecting int received float";
  }

  /** A type checker always reports errors; a list of other than one element is refused
      unless lists are allowed; otherwise the value is valid exactly when it casts, the cast
      value is kept, and every refusal carries a message. */
  lemma TypeValidity(s: Snapshot, n: Natives)
    requires s.kind.IsTypeCheck()
    ensures Validity(s, n).0.Ok? && Validity(s, n).0.value.Verdict?
    ensures Validity(s, n).1.msgLevel == "error"
    ensures s.value.Many? && |s.value.xs| != 1 && !s.isList ==>
      Validity(s, n).0.value == Verdict(false, Some(ListMessage))
    ensures !(s.value.Many? && |s.value.xs| != 1 && !s.isList) ==>
      var s1 := ListCheck(s.(msgLevel := "error")).1;
      && (Validity(s, n).0.value.valid <==> CastStep(s1, n).0.Ok?)
      && (CastStep(s1, n).0.Ok? ==> Validity(s, n).1.value == CastStep(s1, n).0.value)
    ensures !Validity(s, n).0.value.valid ==> Validity(s, n).0.value.msg.Some?
    ensures Validity(s, n).0.value.valid ==> Validity(s, n).0.value.msg == None
  {
  }

  /** `CheckType` and `CheckString` turn anything into its text: only a list refused as a
      list can fail them. */
  lemma StringAlwaysCasts(s: Snapshot, n: Natives)
    requires s.kind.CheckType? || s.kind.CheckString?
    ensures Validity(s, n).0.value.valid <==> !(s.value.Many? && |s.value.xs| != 1 && !s.isList)
  {
    TypeValidity(s, n);
  }

  /** A path checker tests the file or directory, reports its own message and keeps its
      level and value. */
  lemma PathValidity(s: Snapshot, n: Natives)
    requires s.kind.IsPath()
    ensures Validity(s, n).1 == s
    ensures var test := if s.dirPath then n.isDir(s.value) else n.isFile(s.value);
      && (test.None? ==> Validity(s, n).0 == Err(TypeError))
      && (test.Some? ==> Validity(s, n).0 == Ok(Verdict(test.value, s.message)))
  {
  }

  /** `check()` gives None exactly for a valid value and the issue otherwise; a type
      checker's issue is never None, so for it None means valid. */
  lemma CheckNoneIffValid(s: Snapshot, n: Natives)
    requires Validity(s, n).0.Ok? && Validity(s, n).0.value.Verdict?
    ensures var v := Validity(s, n).0.value;
      && CheckOutcome(s, n).0 == Ok(if v.valid then None else v.msg)
      && CheckOutcome(s, n).1 == Validity(s, n).1
    ensures s.kind.IsTypeCheck() ==> (CheckOutcome(s, n).0 == Ok(None) <==> Validity(s, n).0.value.valid)
  {
    if s.kind.IsTypeCheck() {
      TypeValidity(s, n);
    }
  }

  /** `GenericCheck.is_valid` returns None, which `check()` cannot unpack. */
  lemma GenericCannotCheck(s: Snapshot, n: Natives)
    requires s.kind.GenericCheck?
    ensures CheckOutcome(s, n).0 == Err(TypeError)
    ensures CastStep(s, n).0 == Err(AttributeError)
  {
  }

  /** The level an issue is filed under: a checker that reaches a verdict reports errors
      when it casts or is critical, and warnings otherwise. */
  lemma CheckLevel(kind: Kind, kw: Kwargs, n: Natives)
    requires Init(kind, kw).Ok? && CheckOutcome(Init(kind, kw).value, n).0.Ok?
    ensures CheckOutcome(Init(kind, kw).value, n).1.msgLevel ==
      (if kind.IsTypeCheck() || kind.IsCritical() then "error" else "warning")
  {
    var s := Init(kind, kw).value;
    if kind.IsTypeCheck() {
      TypeValidity(s, n);
    } else if kind.IsPath() {
      PathValidity(s, n);
    }
  }

  /** A single value stays a single value through construction and cast. */
  lemma CastGivesScalar(kind: Kind, v: Scalar, ref: ConfigRef, n: Natives)
    requires Init(kind, Kwargs(Some(One(v)), Some(ref), None)).Ok?
    ensures Init(kind, Kwargs(Some(One(v)), Some(ref), None)).value.value.One?
    ensures var s := Init(kind, Kwargs(Some(One(v)), Some(ref), None)).value;
      CastStep(s, n).0.Ok? ==> CastStep(s, n).0.value.One?
  {
  }
}
