/** changes.py: changelogs of renamed and removed config entries, checked against the master
    config, matched against a user config and applied to it. */
module Changes {
  import opened Base
  import opened Strings
  import opened OrdMaps
  import opened Values
  import opened Tools

  /** The four slots of one side of a change: section, item, property and value. */
  datatype Slots = Slots(section: string, item: string, property: string, value: string) {
    function Words(): seq<string> { [section, item, property, value] }
  }

  /** A changelog line `old -> new`. */
  datatype Change = Change(before: Slots, after: Slots)

  /** Where a required change sends its (bound) old entry. */
  datatype Target = Removed | To(slots: Slots)

  /** A required change: `[assumed, "removed"]` or `[assumed, new]`. */
  datatype Applied = Applied(before: Slots, target: Target)

  /** The two lists `get_active_changes` returns. */
  datatype Found = Found(potentials: seq<Change>, required: seq<Applied>)

  const ActionWords: seq<string> := ["any", "removed"]

  // ------------------------------------------------------------ join_changes

  /** The changes of every file, in path order; `read` stands for `read_change_log`. */
  function Joined(paths: seq<string>, read: string -> seq<Change>): seq<Change>
    decreases |paths|
  {
    if paths == [] then [] else Joined(paths[..|paths| - 1], read) + read(paths[|paths| - 1])
  }

  /** Joining two lists of paths joins their changes. */
  lemma {:induction false} JoinedAppend(p: seq<string>, q: seq<string>, read: string -> seq<Change>)
    ensures Joined(p + q, read) == Joined(p, read) + Joined(q, read)
    decreases |q|
  {
    if q != [] {
      var q' := q[..|q| - 1];
      assert (p + q)[..|p + q| - 1] == p + q';
      assert (p + q)[|p + q| - 1] == q[|q| - 1];
      JoinedAppend(p, q', read);
      assert Joined(p + q, read) == Joined(p + q', read) + read(q[|q| - 1]);
      assert Joined(q, read) == Joined(q', read) + read(q[|q| - 1]);
    } else {
      assert p + q == p;
    }
  }

  /** A single file contributes its own changes. */
  lemma JoinedOne(p: string, read: string -> seq<Change>)
    ensures Joined([p], read) == read(p)
  {
    assert [p][..0] == [];
  }

  // ------------------------------------------------------------ check_log_validity

  /** The new side of a change names a section, item and property the master config has:
      `removed` is never flagged; otherwise the section is `any`, `removed` or a master
      section, the item is `any`, `removed` or an item of that section (of some section when
      the section is `any`), and the property is `any` or `default`. */
  predicate ChangeValid(m: Master, c: Change) {
    SideValid(m, c.after)
  }

  predicate SideValid(m: Master, cur: Slots) {
    || cur.section == "removed"
    || (&& (cur.section in ActionWords || cur.section in m.vals)
        && (if cur.section == "any" && cur.item !in ActionWords then
              InSomeSection(m, cur.item)
            else cur.item in ActionWords || (cur.section in m.vals && cur.item in m.vals[cur.section].vals))
        && cur.property in ["any", "default"])
  }

  /** Some master section, in iteration order, lists `item`. */
  predicate InSomeSection(m: Master, item: string) {
    exists j :: 0 <= j < |m.keys| && m.keys[j] in m.vals && item in m.vals[m.keys[j]].vals
  }

  /** The changes `check_log_validity` flags, in order. */
  function Invalids(m: Master, cs: seq<Change>): (r: seq<Change>)
    ensures |r| <= |cs|
    decreases |cs|
  {
    if cs == [] then []
    else (if ChangeValid(m, cs[0]) then [] else [cs[0]]) + Invalids(m, cs[1..])
  }

  /** One mismatch line: the old and the new side, slots joined with '/'. */
  function Mismatch(c: Change): string {
    Join("/", c.before.Words()) + " -> " + Join("/", c.after.Words())
  }

  function Mismatches(cs: seq<Change>): (r: seq<string>)
    ensures |r| == |cs| && forall k :: 0 <= k < |cs| ==> r[k] == Mismatch(cs[k])
  {
    seq(|cs|, k requires 0 <= k < |cs| => Mismatch(cs[k]))
  }

  /** What `check_log_validity` raises: nothing, or one error listing every mismatch. */
  function LogError(m: Master, changes: Option<seq<Change>>): Option<Error> {
    match changes
    case None => Some(AttributeError)  // `self.changes` was never set
    case Some(cs) => if Invalids(m, cs) == [] then None else Some(InvalidChanges(Mismatches(Invalids(m, cs))))
  }

  /** A changelog object. */
  class ChangeLog {
    var paths: seq<string>
    var changes: Option<seq<Change>>

    constructor ()
      ensures paths == [] && changes == None
    {
      paths := [];
      changes := None;
    }

    /** `ChangeLog(paths=paths, mcfg=m)`: the changes of every file joined, then checked;
        the object is only returned when every change is valid. */
    static method New(paths: Option<seq<string>>, m: Master, read: string -> seq<Change>) returns (r: Result<ChangeLog>)
      ensures var changes := if paths.Some? then Some(Joined(paths.value, read)) else None;
        && (r.Err? <==> LogError(m, changes).Some?)
        && (r.Err? ==> r.error == LogError(m, changes).value)
        && (r.Ok? ==> fresh(r.value) && r.value.changes == changes
                      && r.value.paths == if paths.Some? then paths.value else [])
    {
      var log := new ChangeLog();
      if paths.Some? {
        log.paths := log.paths + paths.value;
        assert log.paths == paths.value;
        var joined := log.JoinChanges(log.paths, read);
        log.changes := Some(joined);
      }
      var err := log.CheckLogValidity(m);
      if err.Some? {
        return Err(err.value);
      }
      return Ok(log);
    }

    /** `join_changes(paths)`. */
    method JoinChanges(paths: seq<string>, read: string -> seq<Change>) returns (changes: seq<Change>)
      ensures changes == Joined(paths, read)
    {
      changes := [];
      var k := 0;
      while k < |paths|
        invariant 0 <= k <= |paths|
        invariant changes == Joined(paths[..k], read)
      {
        assert paths[..k + 1][..k] == paths[..k];
        changes := changes + read(paths[k]);
        k := k + 1;
      }
      assert paths[..k] == paths;
    }

    /** `check_log_validity(mcfg)`: each change's new side is counted slot by slot as the
        source does, and the changes whose count falls short of four are reported together. */
    method CheckLogValidity(m: Master) returns (err: Option<Error>)
      ensures err == LogError(m, changes)
    {
      if changes.None? {
        return Some(AttributeError);
      }
      var cs := changes.value;
      var invalids: seq<Change> := [];
      var k := 0;
      while k < |cs|
        invariant 0 <= k <= |cs|
        invariant Invalids(m, cs) == invalids + Invalids(m, cs[k..])
      {
        assert cs[k..][1..] == cs[k + 1..];
        var valids := ValidCount(m, cs[k].after);
        if cs[k].after.section != "removed" && valids != 4 {
          invalids := invalids + [cs[k]];
        }
        k := k + 1;
      }
      assert cs[k..] == [];
      assert invalids == Invalids(m, cs);
      if invalids == [] {
        return None;
      }
      return Some(InvalidChanges(Mismatches(invalids)));
    }

    /** `get_active_changes(ucfg)`: the changes that apply to the user config, as potential
        (default value) and required changes. Neither the user config nor the log changes. */
    method GetActiveChanges(u: UserConfig, n: Natives) returns (r: Result<Found>)
      ensures changes.None? ==> r == Err(AttributeError)
      ensures changes.Some? ==> r == ChangesActive(u.mcfg, n, u.cfg, changes.value, Found([], []))
    {
      if changes.None? {
        return Err(AttributeError);
      }
      var cs := changes.value;
      var cfg := u.cfg;
      var acc := Found([], []);
      var k := 0;
      while k < |cs|
        invariant 0 <= k <= |cs|
        invariant ChangesActive(u.mcfg, n, cfg, cs, Found([], [])) == ChangesActive(u.mcfg, n, cfg, cs[k..], acc)
      {
        assert cs[k..][1..] == cs[k + 1..];
        var next := ActiveForChange(u.mcfg, n, cs[k], cfg, acc);
        if next.Err? {
          return next;
        }
        acc := next.value;
        k := k + 1;
      }
      return Ok(acc);
    }

    /** `apply_changes(ucfg, potentials, changes)`: the changes are made on a shallow copy
        of the user's config, so every edit inside an original section is also an edit of
        the user's config. Returns the copy, or the exception that stopped the pass. */
    method ApplyChanges(u: UserConfig, ps: seq<Change>, cs: seq<Applied>) returns (r: Result<Cfg>)
      modifies u
      ensures var o := ApplyOutcome(old(u.cfg), u.mcfg, ps, cs, false);
        && (r.Ok? <==> o.error.None?)
        && (r.Ok? ==> r.value == o.cfg)
        && (r.Err? ==> o.error == Some(r.error))
        && Mirrors(old(u.cfg), u.cfg, o.cfg)
    {
      var orig := u.cfg;
      var cfg := orig;
      var k := 0;
      while k < |ps|
        invariant 0 <= k <= |ps|
        invariant PotentialsOutcome(orig, ps) == PotentialsOutcome(cfg, ps[k..])
        invariant Mirrors(orig, u.cfg, cfg)
      {
        assert ps[k..][1..] == ps[k + 1..];
        var s := ps[k].before.section;
        if s !in cfg.vals {
          return Err(KeyError(Some(s)));
        }
        var sec := cfg.vals[s].Put(ps[k].before.item, One(Str(ps[k].after.value)));
        cfg := cfg.Put(s, sec);
        if s in orig.vals {
          u.cfg := u.cfg.Put(s, sec);
        }
        k := k + 1;
      }
      assert PotentialsOutcome(orig, ps) == Outcome(cfg, None) by {
        assert ps[k..] == [];
      }
      k := 0;
      while k < |cs|
        invariant 0 <= k <= |cs|
        invariant ChangesOutcome(orig, u.mcfg, PotentialsOutcome(orig, ps).cfg, cs, false) == ChangesOutcome(orig, u.mcfg, cfg, cs[k..], false)
        invariant Mirrors(orig, u.cfg, cfg)
      {
        assert cs[k..][1..] == cs[k + 1..];
        var o := ApplyStep(u, orig, cfg, cs[k]);
        if o.error.Some? {
          return Err(o.error.value);
        }
        cfg := o.cfg;
        k := k + 1;
      }
      assert cs[k..] == [];
      return Ok(cfg);
    }
  }

  /** One required change, made on the copy `cfg` and, inside original sections, on the
      user's config as well. */
  method ApplyStep(u: UserConfig, orig: Cfg, cfg: Cfg, c: Applied) returns (o: Outcome)
    requires Mirrors(orig, u.cfg, cfg)
    modifies u
    ensures o == ChangeStep(orig, u.mcfg, cfg, c, false)
    ensures Mirrors(orig, u.cfg, o.cfg)
  {
    if c.target.Removed? {
      o := ApplyRemoval(u, orig, cfg, c);
    } else {
      o := ApplyMove(u, orig, cfg, c);
    }
  }

  /** A removal: the item is deleted from its section. */
  method ApplyRemoval(u: UserConfig, orig: Cfg, cfg: Cfg, c: Applied) returns (o: Outcome)
    requires c.target.Removed? && Mirrors(orig, u.cfg, cfg)
    modifies u
    ensures o == ChangeStep(orig, u.mcfg, cfg, c, false)
    ensures Mirrors(orig, u.cfg, o.cfg)
  {
    var so := c.before.section;
    var io := c.before.item;
    if so !in cfg.vals {
      return Outcome(cfg, Some(KeyError(Some(so))));
    }
    if io !in cfg.vals[so].vals {
      return Outcome(cfg, Some(KeyError(Some(io))));
    }
    var sec := cfg.vals[so].Delete(io);
    if so in orig.vals {
      u.cfg := u.cfg.Put(so, sec);
    }
    return Outcome(cfg.Put(so, sec), None);
  }

  /** A move or rename: the new section is made when the original config lacks it. */
  method ApplyMove(u: UserConfig, orig: Cfg, cfg: Cfg, c: Applied) returns (o: Outcome)
    requires c.target.To? && Mirrors(orig, u.cfg, cfg)
    modifies u
    ensures o == ChangeStep(orig, u.mcfg, cfg, c, false)
    ensures Mirrors(orig, u.cfg, o.cfg)
  {
    var so := c.before.section;
    var sn := c.target.slots.section;
    var cur := cfg;
    if sn !in orig.vals {
      cur := cur.Put(sn, Empty());  // a fresh dictionary, not shared with the user's config
    }
    assert cur == PrepareTarget(orig, cfg, sn);
    if so !in orig.vals {
      return Outcome(cur, None);
    }
    if so !in cur.vals {
      return Outcome(cur, Some(KeyError(Some(so))));
    }
    o := MoveItem(u, orig, cfg, cur, c);
  }

  /** The item moved out of an original section that both configs still have, and the
      section dropped when that leaves it empty and the master does not list it. */
  method MoveItem(u: UserConfig, orig: Cfg, cfg: Cfg, cur0: Cfg, c: Applied) returns (o: Outcome)
    requires c.target.To? && cur0 == PrepareTarget(orig, cfg, c.target.slots.section)
    requires Mirrors(orig, u.cfg, cur0)
    requires c.before.section in orig.vals && c.before.section in cur0.vals
    modifies u
    ensures o == ChangeStep(orig, u.mcfg, cfg, c, false)
    ensures Mirrors(orig, u.cfg, o.cfg)
  {
    var so := c.before.section;
    var io := c.before.item;
    var after := c.target.slots;
    var sn := after.section;
    var cur := cur0;
    if io in cur.vals[so].vals {
      if sn != "removed" {
        if sn !in cur.vals {
          return Outcome(cur, Some(KeyError(Some(sn))));
        }
        var target := cur.vals[sn].Put(after.item, cur.vals[so].vals[io]);
        MirrorsPut(orig, u.cfg, cur, sn, target);
        cur := cur.Put(sn, target);
        if sn in orig.vals {
          u.cfg := u.cfg.Put(sn, target);
        }
      }
      var left := cur.vals[so].Delete(io);
      MirrorsPut(orig, u.cfg, cur, so, left);
      cur := cur.Put(so, left);
      u.cfg := u.cfg.Put(so, left);
    }
    if |cur.vals[so].keys| == 0 && so !in u.mcfg.vals {
      MirrorsDrop(orig, u.cfg, cur, so);
      cur := cur.Delete(so);
    }
    return Outcome(cur, None);
  }

  /** Writing a section into the copy, and into the user's config when it is an original
      section, keeps the two in step. */
  lemma MirrorsPut(orig: Cfg, user: Cfg, copy: Cfg, s: string, d: OrdMap<Value>)
    requires Mirrors(orig, user, copy)
    ensures s in orig.vals ==> Mirrors(orig, user.Put(s, d), copy.Put(s, d))
    ensures s !in orig.vals ==> Mirrors(orig, user, copy.Put(s, d))
  {
  }

  /** Dropping an emptied section from the copy leaves the empty one in the user's config. */
  lemma MirrorsDrop(orig: Cfg, user: Cfg, copy: Cfg, s: string)
    requires Mirrors(orig, user, copy) && s in copy.vals && copy.vals[s].keys == []
    ensures Mirrors(orig, user, copy.Delete(s))
  {
  }

  /** The slots of a new side the source counts as valid, in its own order: section, then
      item (only after a valid section), then property (only after both), then the value,
      which is never checked. */
  method ValidCount(m: Master, cur: Slots) returns (valids: nat)
    ensures cur.section != "removed" ==> (valids == 4 <==> SideValid(m, cur))
  {
    valids := 0;
    if cur.section in ActionWords || cur.section in m.vals {
      valids := valids + 1;
    }
    if cur.section != "removed" {
      if valids >= 1 {
        if cur.section == "any" && cur.item !in ActionWords {
          var keys := m.keys;
          var j := 0;
          var hit := false;
          while j < |keys|
            invariant 0 <= j <= |keys|
            invariant !hit
            invariant keys == m.keys
            invariant forall i :: 0 <= i < j && keys[i] in m.vals ==> cur.item !in m.vals[keys[i]].vals
          {
            if keys[j] in m.vals && cur.item in m.vals[keys[j]].vals {
              hit := true;
              break;
            }
            j := j + 1;
          }
          if hit {
            valids := valids + 1;
          }
        } else if cur.item in ActionWords || (cur.section in m.vals && cur.item in m.vals[cur.section].vals) {
          valids := valids + 1;
        }
      }
      if valids >= 2 {
        if cur.property in ["any", "default"] {
          valids := valids + 1;
        }
      }
      if valids == 3 {
        valids := valids + 1;
      }
    }
  }

  // ------------------------------------------------------------ get_active_changes

  /** The change with its `any` slots bound to section `s` and item `i`: the old side always,
      the new side unless it removes. */
  function Bind(c: Change, s: string, i: string): Change {
    var keep := c.after.section == "removed";
    var b1 := if c.before.section == "any" then c.before.(section := s) else c.before;
    var a1 := if c.before.section == "any" && !keep then c.after.(section := s) else c.after;
    var b2 := if c.before.item == "any" then b1.(item := i) else b1;
    var a2 := if c.before.item == "any" && !keep then a1.(item := i) else a1;
    Change(b2, a2)
  }

  predicate Removes(x: Slots) { "removed" in x.Words() }

  /** A bound change that matches an item, filed: a removal is required; otherwise it counts
      only when the master config has its new section and item, and is then potential when
      it changes a default the user still has (compared as text), or required. */
  function Classify(m: Master, value: Value, n: Natives, b: Change, acc: Found): Found {
    if Removes(b.after) then acc.(required := acc.required + [Applied(b.before, Removed)])
    else if b.after.section in m.vals && b.after.item in m.vals[b.after.section].vals then
      if b.before.property == "default" then
        if PyStr(Unlist(MkLst(value)), n) == b.before.value then acc.(potentials := acc.potentials + [b]) else acc
      else acc.(required := acc.required + [Applied(b.before, To(b.after))])
    else acc
  }

  /** The items `keys` of user section `s` against one change. */
  function ItemsActive(m: Master, n: Natives, c: Change, s: string, sec: OrdMap<Value>, keys: seq<string>,
                       acc: Found): Result<Found>
    decreases |keys|
  {
    if keys == [] then Ok(acc)
    else if keys[0] !in sec.vals then Err(KeyError(Some(keys[0])))
    else
      var b := Bind(c, s, keys[0]);
      var next := if b.before.section == s && b.before.item == keys[0] then Classify(m, sec.vals[keys[0]], n, b, acc) else acc;
      ItemsActive(m, n, c, s, sec, keys[1..], next)
  }

  /** The sections `keys` of the user config against one change. */
  function SectionsActive(m: Master, n: Natives, c: Change, cfg: Cfg, keys: seq<string>, acc: Found): Result<Found>
    decreases |keys|
  {
    if keys == [] then Ok(acc)
    else if keys[0] !in cfg.vals then Err(KeyError(Some(keys[0])))
    else
      var next :- ItemsActive(m, n, c, keys[0], cfg.vals[keys[0]], cfg.vals[keys[0]].keys, acc);
      SectionsActive(m, n, c, cfg, keys[1..], next)
  }

  /** Every change, in log order, against every item of the user config. */
  function ChangesActive(m: Master, n: Natives, cfg: Cfg, cs: seq<Change>, acc: Found): Result<Found>
    decreases |cs|
  {
    if cs == [] then Ok(acc)
    else
      var next :- SectionsActive(m, n, cs[0], cfg, cfg.keys, acc);
      ChangesActive(m, n, cfg, cs[1..], next)
  }

  /** One change against every item of the user config. */
  method ActiveForChange(m: Master, n: Natives, c: Change, cfg: Cfg, acc0: Found) returns (r: Result<Found>)
    ensures r == SectionsActive(m, n, c, cfg, cfg.keys, acc0)
  {
    var acc := acc0;
    var k := 0;
    while k < |cfg.keys|
      invariant 0 <= k <= |cfg.keys|
      invariant SectionsActive(m, n, c, cfg, cfg.keys, acc0) == SectionsActive(m, n, c, cfg, cfg.keys[k..], acc)
    {
      assert cfg.keys[k..][1..] == cfg.keys[k + 1..];
      var s := cfg.keys[k];
      if s !in cfg.vals {
        return Err(KeyError(Some(s)));
      }
      var next := ActiveInSection(m, n, c, s, cfg.vals[s], acc);
      if next.Err? {
        return next;
      }
      acc := next.value;
      k := k + 1;
    }
    return Ok(acc);
  }

  /** One change against the items of one section. */
  method ActiveInSection(m: Master, n: Natives, c: Change, s: string, sec: OrdMap<Value>, acc0: Found)
    returns (r: Result<Found>)
    ensures r == ItemsActive(m, n, c, s, sec, sec.keys, acc0)
  {
    var acc := acc0;
    var k := 0;
    while k < |sec.keys|
      invariant 0 <= k <= |sec.keys|
      invariant ItemsActive(m, n, c, s, sec, sec.keys, acc0) == ItemsActive(m, n, c, s, sec, sec.keys[k..], acc)
    {
      assert sec.keys[k..][1..] == sec.keys[k + 1..];
      var i := sec.keys[k];
      if i !in sec.vals {
        return Err(KeyError(Some(i)));
      }
      var b := Bind(c, s, i);
      if b.before.section == s && b.before.item == i {
        acc := Classify(m, sec.vals[i], n, b, acc);
      }
      k := k + 1;
    }
    return Ok(acc);
  }

  // ------------------------------------------------------------ apply_changes

  /** Each potential change's new default written into its old section and item. */
  function PotentialsOutcome(cfg: Cfg, ps: seq<Change>): Outcome
    decreases |ps|
  {
    if ps == [] then Outcome(cfg, None)
    else
      var s := ps[0].before.section;
      if s !in cfg.vals then Outcome(cfg, Some(KeyError(Some(s))))
      else PotentialsOutcome(cfg.Put(s, cfg.vals[s].Put(ps[0].before.item, One(Str(ps[0].after.value)))), ps[1..])
  }

  /** One required change on the working copy `cfg` of the original config `orig`. A new
      section missing from the original is (re)created empty; a removal deletes the old item;
      a rename of an item of an original section copies it to its new place and deletes it,
      then drops the old section when it is left empty and the master config lacks it. */
  function ChangeStep(orig: Cfg, m: Master, cfg: Cfg, c: Applied, fixed: bool): Outcome {
    var so := c.before.section;
    var io := c.before.item;
    match c.target
    case Removed =>
      if so !in cfg.vals then Outcome(cfg, Some(KeyError(Some(so))))
      else if io !in cfg.vals[so].vals then Outcome(cfg, Some(KeyError(Some(io))))
      else Outcome(cfg.Put(so, cfg.vals[so].Delete(io)), None)
    case To(after) =>
      var sn := after.section;
      var cfg1 := if fixed then PrepareTargetFixed(cfg, sn) else PrepareTarget(orig, cfg, sn);
      if so !in orig.vals then Outcome(cfg1, None)
      else if so !in cfg1.vals then Outcome(cfg1, Some(KeyError(Some(so))))
      else if io !in cfg1.vals[so].vals then DropIfEmpty(m, cfg1, so)
      else if sn != "removed" && sn !in cfg1.vals then Outcome(cfg1, Some(KeyError(Some(sn))))
      else
        var cfg2 := if sn != "removed" then cfg1.Put(sn, cfg1.vals[sn].Put(after.item, cfg1.vals[so].vals[io])) else cfg1;
        DropIfEmpty(m, cfg2.Put(so, cfg2.vals[so].Delete(io)), so)
  }

  /** `cfg[sn] = OrderedDict()` when `sn` is not a section of the original config. */
  function PrepareTarget(orig: Cfg, cfg: Cfg, sn: string): Cfg {
    if sn !in orig.vals then cfg.Put(sn, Empty()) else cfg
  }

  /** The evidently intended test: create the new section only when the copy lacks it. */
  function PrepareTargetFixed(cfg: Cfg, sn: string): (r: Cfg)
    ensures sn in r.vals
    ensures forall s :: s in cfg.vals ==> s in r.vals && r.vals[s] == cfg.vals[s]
  {
    if sn !in cfg.vals then cfg.Put(sn, Empty()) else cfg
  }

  /** `del cfg[so]` when the section is empty and not a master section. */
  function DropIfEmpty(m: Master, cfg: Cfg, so: string): Outcome
    requires so in cfg.vals
  {
    if |cfg.vals[so].keys| == 0 && so !in m.vals then Outcome(cfg.Delete(so), None) else Outcome(cfg, None)
  }

  function ChangesOutcome(orig: Cfg, m: Master, cfg: Cfg, cs: seq<Applied>, fixed: bool): Outcome
    decreases |cs|
  {
    if cs == [] then Outcome(cfg, None)
    else
      var o := ChangeStep(orig, m, cfg, cs[0], fixed);
      if o.error.Some? then o else ChangesOutcome(orig, m, o.cfg, cs[1..], fixed)
  }

  /** `apply_changes(ucfg, potentials, changes)` on the working copy. */
  function ApplyOutcome(orig: Cfg, m: Master, ps: seq<Change>, cs: seq<Applied>, fixed: bool): Outcome {
    var o := PotentialsOutcome(orig, ps);
    if o.error.Some? then o else ChangesOutcome(orig, m, o.cfg, cs, fixed)
  }

  /** The user's config seen through the shallow copy: every original section is the very
      dictionary the copy holds, or, once the copy dropped it, an empty one. */
  predicate Mirrors(orig: Cfg, user: Cfg, copy: Cfg) {
    && user.keys == orig.keys && user.vals.Keys == orig.vals.Keys
    && forall s :: s in orig.vals ==>
         (s in copy.vals ==> user.vals[s] == copy.vals[s]) && (s !in copy.vals ==> user.vals[s].keys == [])
  }

  // ------------------------------------------------------------ properties

  /** The flagged changes are exactly the invalid ones; a change whose new section is
      `removed` is never among them. */
  lemma {:induction false} InvalidsSpec(m: Master, cs: seq<Change>)
    ensures forall c :: c in Invalids(m, cs) <==> c in cs && !ChangeValid(m, c)
    ensures forall c :: c in Invalids(m, cs) ==> c.after.section != "removed"
    decreases |cs|
  {
    if cs != [] {
      InvalidsSpec(m, cs[1..]);
      assert cs == [cs[0]] + cs[1..];
    }
  }

  /** The log is accepted exactly when every change is valid; otherwise one error lists one
      line per invalid change, in log order. */
  lemma LogErrorSpec(m: Master, cs: seq<Change>)
    ensures LogError(m, Some(cs)) == None <==> forall k :: 0 <= k < |cs| ==> ChangeValid(m, cs[k])
    ensures LogError(m, Some(cs)).Some? ==>
      LogError(m, Some(cs)).value == InvalidChanges(Mismatches(Invalids(m, cs)))
      && |Mismatches(Invalids(m, cs))| == |Invalids(m, cs)|
  {
    InvalidsSpec(m, cs);
    if Invalids(m, cs) != [] {
      var c := Invalids(m, cs)[0];
      assert c in Invalids(m, cs);
    } else {
      forall k | 0 <= k < |cs|
        ensures ChangeValid(m, cs[k])
      {
        assert cs[k] in cs;
      }
    }
  }

  /** A change applies to item `i` of section `s` exactly when each old slot is `any` or
      names it. Bound `any` slots take the section and item on the old side, and on the new
      side too unless the change removes. */
  lemma BindRules(c: Change, s: string, i: string)
    ensures var b := Bind(c, s, i);
      b.before.section == s && b.before.item == i <==>
        (c.before.section == "any" || c.before.section == s) && (c.before.item == "any" || c.before.item == i)
    ensures var b := Bind(c, s, i);
      && b.before.property == c.before.property && b.before.value == c.before.value
      && b.after.property == c.after.property && b.after.value == c.after.value
    ensures c.after.section == "removed" ==> Bind(c, s, i).after == c.after
    ensures c.after.section != "removed" ==>
      && Bind(c, s, i).after.section == (if c.before.section == "any" then s else c.after.section)
      && Bind(c, s, i).after.item == (if c.before.item == "any" then i else c.after.item)
  {
  }

  /** The master config has the section and item a slot names. */
  predicate InMaster(m: Master, x: Slots) {
    x.section in m.vals && x.item in m.vals[x.section].vals
  }

  /** How `get_active_changes` files its findings: potentials change a default into a
      section and item the master config has; required changes remove, or move to a section
      and item the master config has without touching a default. */
  predicate WellFiled(m: Master, f: Found) {
    && (forall k :: 0 <= k < |f.potentials| ==>
          f.potentials[k].before.property == "default" && !Removes(f.potentials[k].after) && InMaster(m, f.potentials[k].after))
    && (forall k :: 0 <= k < |f.required| ==>
          f.required[k].target.To? ==>
            !Removes(f.required[k].target.slots) && InMaster(m, f.required[k].target.slots)
            && f.required[k].before.property != "default")
  }

  /** `b` keeps everything `a` found, in the same order. */
  predicate Grows(a: Found, b: Found) {
    && |a.potentials| <= |b.potentials| && b.potentials[..|a.potentials|] == a.potentials
    && |a.required| <= |b.required| && b.required[..|a.required|] == a.required
  }

  lemma ClassifyFiles(m: Master, value: Value, n: Natives, b: Change, acc: Found)
    requires WellFiled(m, acc)
    ensures WellFiled(m, Classify(m, value, n, b, acc)) && Grows(acc, Classify(m, value, n, b, acc))
  {
  }

  lemma {:induction false} ItemsFile(m: Master, n: Natives, c: Change, s: string, sec: OrdMap<Value>, keys: seq<string>,
                                      acc: Found)
    requires WellFiled(m, acc)
    requires ItemsActive(m, n, c, s, sec, keys, acc).Ok?
    ensures WellFiled(m, ItemsActive(m, n, c, s, sec, keys, acc).value)
    ensures Grows(acc, ItemsActive(m, n, c, s, sec, keys, acc).value)
    decreases |keys|
  {
    if keys != [] {
      var b := Bind(c, s, keys[0]);
      var next := if b.before.section == s && b.before.item == keys[0] then Classify(m, sec.vals[keys[0]], n, b, acc) else acc;
      if b.before.section == s && b.before.item == keys[0] {
        ClassifyFiles(m, sec.vals[keys[0]], n, b, acc);
      }
      ItemsFile(m, n, c, s, sec, keys[1..], next);
      GrowsTrans(acc, next, ItemsActive(m, n, c, s, sec, keys[1..], next).value);
    }
  }

  lemma {:induction false} SectionsFile(m: Master, n: Natives, c: Change, cfg: Cfg, keys: seq<string>, acc: Found)
    requires WellFiled(m, acc)
    requires SectionsActive(m, n, c, cfg, keys, acc).Ok?
    ensures WellFiled(m, SectionsActive(m, n, c, cfg, keys, acc).value)
    ensures Grows(acc, SectionsActive(m, n, c, cfg, keys, acc).value)
    decreases |keys|
  {
    if keys != [] {
      var next := ItemsActive(m, n, c, keys[0], cfg.vals[keys[0]], cfg.vals[keys[0]].keys, acc).value;
      ItemsFile(m, n, c, keys[0], cfg.vals[keys[0]], cfg.vals[keys[0]].keys, acc);
      SectionsFile(m, n, c, cfg, keys[1..], next);
      GrowsTrans(acc, next, SectionsActive(m, n, c, cfg, keys[1..], next).value);
    }
  }

  /** Whatever `get_active_changes` returns is filed as described by `WellFiled`. */
  lemma {:induction false} ActiveFiled(m: Master, n: Natives, cfg: Cfg, cs: seq<Change>, acc: Found)
    requires WellFiled(m, acc)
    requires ChangesActive(m, n, cfg, cs, acc).Ok?
    ensures WellFiled(m, ChangesActive(m, n, cfg, cs, acc).value)
    ensures Grows(acc, ChangesActive(m, n, cfg, cs, acc).value)
    decreases |cs|
  {
    if cs != [] {
      var next := SectionsActive(m, n, cs[0], cfg, cfg.keys, acc).value;
      SectionsFile(m, n, cs[0], cfg, cfg.keys, acc);
      ActiveFiled(m, n, cfg, cs[1..], next);
      GrowsTrans(acc, next, ChangesActive(m, n, cfg, cs[1..], next).value);
    }
  }

  /** The bound change `b` applies to item `i` of section `s`. */
  predicate Matches(c: Change, s: string, i: string) {
    Bind(c, s, i).before.section == s && Bind(c, s, i).before.item == i
  }

  /** `f` holds what `get_active_changes` must file for the bound change `b` on an item of
      value `value`: a removal as required `[old, "removed"]`; a move into a master section
      and item as required, unless it changes a default; a default change as potential when
      the user still has the old value. */
  predicate Filed(m: Master, n: Natives, value: Value, b: Change, f: Found) {
    && (Removes(b.after) ==> Applied(b.before, Removed) in f.required)
    && (!Removes(b.after) && InMaster(m, b.after) && b.before.property != "default" ==>
          Applied(b.before, To(b.after)) in f.required)
    && ((!Removes(b.after) && InMaster(m, b.after) && b.before.property == "default"
         && PyStr(Unlist(MkLst(value)), n) == b.before.value) ==> b in f.potentials)
  }

  /** What is filed stays filed as the lists grow. */
  lemma FiledGrows(m: Master, n: Natives, value: Value, b: Change, f: Found, g: Found)
    requires Filed(m, n, value, b, f) && Grows(f, g)
    ensures Filed(m, n, value, b, g)
  {
    forall x | x in f.required
      ensures x in g.required
    {
      var j :| 0 <= j < |f.required| && f.required[j] == x;
      assert g.required[..|f.required|][j] == x;
    }
    forall x | x in f.potentials
      ensures x in g.potentials
    {
      var j :| 0 <= j < |f.potentials| && f.potentials[j] == x;
      assert g.potentials[..|f.potentials|][j] == x;
    }
  }

  /** Every item of `keys` that the change matches is filed, and nothing found before is lost. */
  lemma {:induction false} ItemsComplete(m: Master, n: Natives, c: Change, s: string, sec: OrdMap<Value>,
                                          keys: seq<string>, acc: Found)
    requires ItemsActive(m, n, c, s, sec, keys, acc).Ok?
    ensures Grows(acc, ItemsActive(m, n, c, s, sec, keys, acc).value)
    ensures forall i :: i in keys ==> i in sec.vals
    ensures forall i :: i in keys && i in sec.vals && Matches(c, s, i) ==>
      Filed(m, n, sec.vals[i], Bind(c, s, i), ItemsActive(m, n, c, s, sec, keys, acc).value)
    decreases |keys|
  {
    if keys != [] {
      var b := Bind(c, s, keys[0]);
      var next := if Matches(c, s, keys[0]) then Classify(m, sec.vals[keys[0]], n, b, acc) else acc;
      var r := ItemsActive(m, n, c, s, sec, keys[1..], next).value;
      assert Grows(acc, next);
      ItemsComplete(m, n, c, s, sec, keys[1..], next);
      GrowsTrans(acc, next, r);
      if Matches(c, s, keys[0]) {
        FiledGrows(m, n, sec.vals[keys[0]], b, next, r);
      }
      assert forall i :: i in keys ==> i == keys[0] || i in keys[1..];
    }
  }

  /** Every item of the sections `keys` that the change matches is filed. */
  lemma {:induction false} SectionsComplete(m: Master, n: Natives, c: Change, cfg: Cfg, keys: seq<string>, acc: Found)
    requires SectionsActive(m, n, c, cfg, keys, acc).Ok?
    ensures Grows(acc, SectionsActive(m, n, c, cfg, keys, acc).value)
    ensures forall s :: s in keys ==> s in cfg.vals
    ensures forall s, i :: s in keys && s in cfg.vals && i in cfg.vals[s].keys && i in cfg.vals[s].vals && Matches(c, s, i) ==>
      Filed(m, n, cfg.vals[s].vals[i], Bind(c, s, i), SectionsActive(m, n, c, cfg, keys, acc).value)
    decreases |keys|
  {
    if keys != [] {
      var s0 := keys[0];
      var next := ItemsActive(m, n, c, s0, cfg.vals[s0], cfg.vals[s0].keys, acc).value;
      var r := SectionsActive(m, n, c, cfg, keys[1..], next).value;
      ItemsComplete(m, n, c, s0, cfg.vals[s0], cfg.vals[s0].keys, acc);
      SectionsComplete(m, n, c, cfg, keys[1..], next);
      GrowsTrans(acc, next, r);
      forall i | i in cfg.vals[s0].keys && i in cfg.vals[s0].vals && Matches(c, s0, i)
        ensures Filed(m, n, cfg.vals[s0].vals[i], Bind(c, s0, i), r)
      {
        FiledGrows(m, n, cfg.vals[s0].vals[i], Bind(c, s0, i), next, r);
      }
      assert forall s :: s in keys ==> s == s0 || s in keys[1..];
    }
  }

  /** `get_active_changes` misses nothing: for every change of the log and every item of the
      user config it matches, the result files what `Filed` asks for. With `ActiveSourced`,
      which says every entry filed comes from such a change and item, the two lists hold
      exactly those findings; how often and in which order is fixed by `ChangesActive`. */
  lemma {:induction false} ActiveComplete(m: Master, n: Natives, cfg: Cfg, cs: seq<Change>, acc: Found)
    requires ChangesActive(m, n, cfg, cs, acc).Ok?
    ensures Grows(acc, ChangesActive(m, n, cfg, cs, acc).value)
    ensures forall c, s, i ::
      (c in cs && s in cfg.keys && s in cfg.vals && i in cfg.vals[s].keys && i in cfg.vals[s].vals && Matches(c, s, i)) ==>
      Filed(m, n, cfg.vals[s].vals[i], Bind(c, s, i), ChangesActive(m, n, cfg, cs, acc).value)
    decreases |cs|
  {
    if cs != [] {
      var next := SectionsActive(m, n, cs[0], cfg, cfg.keys, acc).value;
      var r := ChangesActive(m, n, cfg, cs[1..], next).value;
      SectionsComplete(m, n, cs[0], cfg, cfg.keys, acc);
      ActiveComplete(m, n, cfg, cs[1..], next);
      GrowsTrans(acc, next, r);
      forall s, i | s in cfg.keys && s in cfg.vals && i in cfg.vals[s].keys && i in cfg.vals[s].vals && Matches(cs[0], s, i)
        ensures Filed(m, n, cfg.vals[s].vals[i], Bind(cs[0], s, i), r)
      {
        FiledGrows(m, n, cfg.vals[s].vals[i], Bind(cs[0], s, i), next, r);
      }
      assert forall c :: c in cs ==> c == cs[0] || c in cs[1..];
    }
  }

  /** The required entry a bound change files: the old slots with "removed", or with the
      new slots. */
  function Entry(b: Change): Applied {
    if Removes(b.after) then Applied(b.before, Removed) else Applied(b.before, To(b.after))
  }

  /** `x` is the required entry `Classify` files for the bound change `b`. */
  predicate RequiredFor(m: Master, b: Change, x: Applied) {
    && x == Entry(b)
    && (Removes(b.after) || (InMaster(m, b.after) && b.before.property != "default"))
  }

  /** `p` is the potential `Classify` files for the bound change `b` on an item of value
      `value`. */
  predicate PotentialFor(m: Master, n: Natives, value: Value, b: Change, p: Change) {
    && p == b
    && !Removes(b.after) && InMaster(m, b.after) && b.before.property == "default"
    && PyStr(Unlist(MkLst(value)), n) == b.before.value
  }

  /** `p` is the potential filed for the change `c` bound to the item its old slots name,
      an item of `sec`, which is user section `s`. */
  predicate ItemPotential(m: Master, n: Natives, c: Change, s: string, sec: OrdMap<Value>, p: Change) {
    var i := p.before.item;
    i in sec.vals && Matches(c, s, i) && PotentialFor(m, n, sec.vals[i], Bind(c, s, i), p)
  }

  /** `x` is the required entry filed for the change `c` bound to the item its old slots
      name, an item of `sec`, which is user section `s`. */
  predicate ItemRequired(m: Master, c: Change, s: string, sec: OrdMap<Value>, x: Applied) {
    var i := x.before.item;
    i in sec.vals && Matches(c, s, i) && RequiredFor(m, Bind(c, s, i), x)
  }

  /** `p` is the potential filed for the change `c` bound to the item of the user config its
      old slots name. */
  predicate PotentialSource(m: Master, n: Natives, cfg: Cfg, c: Change, p: Change) {
    var s := p.before.section;
    s in cfg.vals && p.before.item in cfg.vals[s].keys && ItemPotential(m, n, c, s, cfg.vals[s], p)
  }

  /** `x` is the required entry filed for the change `c` bound to the item of the user config
      its old slots name. */
  predicate RequiredSource(m: Master, cfg: Cfg, c: Change, x: Applied) {
    var s := x.before.section;
    s in cfg.vals && x.before.item in cfg.vals[s].keys && ItemRequired(m, c, s, cfg.vals[s], x)
  }

  lemma ClassifySourced(m: Master, value: Value, n: Natives, b: Change, acc: Found)
    ensures Grows(acc, Classify(m, value, n, b, acc))
    ensures forall k :: |acc.potentials| <= k < |Classify(m, value, n, b, acc).potentials| ==>
      PotentialFor(m, n, value, b, Classify(m, value, n, b, acc).potentials[k])
    ensures forall k :: |acc.required| <= k < |Classify(m, value, n, b, acc).required| ==>
      RequiredFor(m, b, Classify(m, value, n, b, acc).required[k])
  {
  }

  /** Every entry the item loop adds comes from an item of `keys` that the change matches. */
  lemma {:induction false} ItemsSourced(m: Master, n: Natives, c: Change, s: string, sec: OrdMap<Value>,
                                         keys: seq<string>, acc: Found)
    requires ItemsActive(m, n, c, s, sec, keys, acc).Ok?
    ensures Grows(acc, ItemsActive(m, n, c, s, sec, keys, acc).value)
    ensures forall k :: |acc.potentials| <= k < |ItemsActive(m, n, c, s, sec, keys, acc).value.potentials| ==>
      ItemsActive(m, n, c, s, sec, keys, acc).value.potentials[k].before.item in keys &&
      ItemPotential(m, n, c, s, sec, ItemsActive(m, n, c, s, sec, keys, acc).value.potentials[k])
    ensures forall k :: |acc.required| <= k < |ItemsActive(m, n, c, s, sec, keys, acc).value.required| ==>
      ItemsActive(m, n, c, s, sec, keys, acc).value.required[k].before.item in keys &&
      ItemRequired(m, c, s, sec, ItemsActive(m, n, c, s, sec, keys, acc).value.required[k])
    decreases |keys|
  {
    if keys != [] {
      var i0 := keys[0];
      var b := Bind(c, s, i0);
      var next := if Matches(c, s, i0) then Classify(m, sec.vals[i0], n, b, acc) else acc;
      var r := ItemsActive(m, n, c, s, sec, keys[1..], next).value;
      assert ItemsActive(m, n, c, s, sec, keys, acc).value == r;
      ItemsSourced(m, n, c, s, sec, keys[1..], next);
      if Matches(c, s, i0) {
        ClassifySourced(m, sec.vals[i0], n, b, acc);
      }
      GrowsTrans(acc, next, r);
      forall k | |acc.potentials| <= k < |r.potentials|
        ensures r.potentials[k].before.item in keys && ItemPotential(m, n, c, s, sec, r.potentials[k])
      {
        if k < |next.potentials| {
          assert r.potentials[..|next.potentials|][k] == next.potentials[k];
        }
      }
      forall k | |acc.required| <= k < |r.required|
        ensures r.required[k].before.item in keys && ItemRequired(m, c, s, sec, r.required[k])
      {
        if k < |next.required| {
          assert r.required[..|next.required|][k] == next.required[k];
        }
      }
    }
  }

  /** Every entry the section loop adds comes from an item, of one of the sections `keys`,
      that the change matches. */
  lemma {:induction false} SectionsSourced(m: Master, n: Natives, c: Change, cfg: Cfg, keys: seq<string>, acc: Found)
    requires SectionsActive(m, n, c, cfg, keys, acc).Ok?
    ensures Grows(acc, SectionsActive(m, n, c, cfg, keys, acc).value)
    ensures forall k :: |acc.potentials| <= k < |SectionsActive(m, n, c, cfg, keys, acc).value.potentials| ==>
      SectionsActive(m, n, c, cfg, keys, acc).value.potentials[k].before.section in keys &&
      PotentialSource(m, n, cfg, c, SectionsActive(m, n, c, cfg, keys, acc).value.potentials[k])
    ensures forall k :: |acc.required| <= k < |SectionsActive(m, n, c, cfg, keys, acc).value.required| ==>
      SectionsActive(m, n, c, cfg, keys, acc).value.required[k].before.section in keys &&
      RequiredSource(m, cfg, c, SectionsActive(m, n, c, cfg, keys, acc).value.required[k])
    decreases |keys|
  {
    if keys != [] {
      var s0 := keys[0];
      var sec := cfg.vals[s0];
      var next := ItemsActive(m, n, c, s0, sec, sec.keys, acc).value;
      var r := SectionsActive(m, n, c, cfg, keys[1..], next).value;
      assert SectionsActive(m, n, c, cfg, keys, acc).value == r;
      ItemsSourced(m, n, c, s0, sec, sec.keys, acc);
      SectionsSourced(m, n, c, cfg, keys[1..], next);
      GrowsTrans(acc, next, r);
      forall k | |acc.potentials| <= k < |r.potentials|
        ensures r.potentials[k].before.section in keys && PotentialSource(m, n, cfg, c, r.potentials[k])
      {
        if k < |next.potentials| {
          assert r.potentials[..|next.potentials|][k] == next.potentials[k];
          assert Matches(c, s0, next.potentials[k].before.item);
        }
      }
      forall k | |acc.required| <= k < |r.required|
        ensures r.required[k].before.section in keys && RequiredSource(m, cfg, c, r.required[k])
      {
        if k < |next.required| {
          assert r.required[..|next.required|][k] == next.required[k];
          assert Matches(c, s0, next.required[k].before.item);
        }
      }
    }
  }

  /** `get_active_changes` files nothing it should not: every potential and every required
      entry beyond `acc` is what `Classify` files for some change of the log bound to the
      item of the user config its old slots name, which the change matches. The converse is
      `ActiveComplete`. */
  lemma {:induction false} ActiveSourced(m: Master, n: Natives, cfg: Cfg, cs: seq<Change>, acc: Found)
    requires ChangesActive(m, n, cfg, cs, acc).Ok?
    ensures Grows(acc, ChangesActive(m, n, cfg, cs, acc).value)
    ensures forall k :: |acc.potentials| <= k < |ChangesActive(m, n, cfg, cs, acc).value.potentials| ==>
      ChangesActive(m, n, cfg, cs, acc).value.potentials[k].before.section in cfg.keys &&
      exists j :: 0 <= j < |cs| && PotentialSource(m, n, cfg, cs[j], ChangesActive(m, n, cfg, cs, acc).value.potentials[k])
    ensures forall k :: |acc.required| <= k < |ChangesActive(m, n, cfg, cs, acc).value.required| ==>
      ChangesActive(m, n, cfg, cs, acc).value.required[k].before.section in cfg.keys &&
      exists j :: 0 <= j < |cs| && RequiredSource(m, cfg, cs[j], ChangesActive(m, n, cfg, cs, acc).value.required[k])
    decreases |cs|
  {
    if cs != [] {
      var c0 := cs[0];
      var next := SectionsActive(m, n, c0, cfg, cfg.keys, acc).value;
      var r := ChangesActive(m, n, cfg, cs[1..], next).value;
      assert ChangesActive(m, n, cfg, cs, acc).value == r;
      SectionsSourced(m, n, c0, cfg, cfg.keys, acc);
      ActiveSourced(m, n, cfg, cs[1..], next);
      GrowsTrans(acc, next, r);
      forall k | |acc.potentials| <= k < |r.potentials|
        ensures r.potentials[k].before.section in cfg.keys &&
                exists j :: 0 <= j < |cs| && PotentialSource(m, n, cfg, cs[j], r.potentials[k])
      {
        if k < |next.potentials| {
          assert r.potentials[..|next.potentials|][k] == next.potentials[k];
          assert PotentialSource(m, n, cfg, cs[0], r.potentials[k]);
        } else {
          var j :| 0 <= j < |cs[1..]| && PotentialSource(m, n, cfg, cs[1..][j], r.potentials[k]);
          assert cs[1..][j] == cs[j + 1];
        }
      }
      forall k | |acc.required| <= k < |r.required|
        ensures r.required[k].before.section in cfg.keys &&
                exists j :: 0 <= j < |cs| && RequiredSource(m, cfg, cs[j], r.required[k])
      {
        if k < |next.required| {
          assert r.required[..|next.required|][k] == next.required[k];
          assert RequiredSource(m, cfg, cs[0], r.required[k]);
        } else {
          var j :| 0 <= j < |cs[1..]| && RequiredSource(m, cfg, cs[1..][j], r.required[k]);
          assert cs[1..][j] == cs[j + 1];
        }
      }
    }
  }

  lemma GrowsTrans(a: Found, b: Found, c: Found)
    requires Grows(a, b) && Grows(b, c)
    ensures Grows(a, c)
  {
    assert c.potentials[..|a.potentials|] == c.potentials[..|b.potentials|][..|a.potentials|];
    assert c.required[..|a.required|] == c.required[..|b.required|][..|a.required|];
  }

  /** The new default the last potential of `ps` naming section `s` and item `i` writes, if
      any names them. */
  function LastWrite(ps: seq<Change>, s: string, i: string): Option<string>
    decreases |ps|
  {
    if ps == [] then None
    else
      var rest := LastWrite(ps[1..], s, i);
      if rest.Some? then rest
      else if ps[0].before.section == s && ps[0].before.item == i then Some(ps[0].after.value)
      else None
  }

  /** The first pass of `apply_changes`: it fails exactly when some potential names a section
      the user config lacks, with a KeyError for the first one; it never adds, drops or
      reorders sections; and when it succeeds every item holds the text of the last new
      default written to it, and every item no potential names is as it was. */
  lemma {:induction false} PotentialsSpec(cfg: Cfg, ps: seq<Change>)
    ensures PotentialsOutcome(cfg, ps).cfg.keys == cfg.keys
    ensures PotentialsOutcome(cfg, ps).cfg.vals.Keys == cfg.vals.Keys
    ensures PotentialsOutcome(cfg, ps).error.None? <==> forall k :: 0 <= k < |ps| ==> ps[k].before.section in cfg.vals
    ensures PotentialsOutcome(cfg, ps).error.Some? ==>
      exists k :: 0 <= k < |ps| && ps[k].before.section !in cfg.vals
        && PotentialsOutcome(cfg, ps).error == Some(KeyError(Some(ps[k].before.section)))
        && forall j :: 0 <= j < k ==> ps[j].before.section in cfg.vals
    ensures PotentialsOutcome(cfg, ps).error.None? ==>
      forall s, i :: s in cfg.vals && LastWrite(ps, s, i).Some? ==>
        && i in PotentialsOutcome(cfg, ps).cfg.vals[s].vals
        && PotentialsOutcome(cfg, ps).cfg.vals[s].vals[i] == One(Str(LastWrite(ps, s, i).value))
    ensures PotentialsOutcome(cfg, ps).error.None? ==>
      forall s, i :: s in cfg.vals && LastWrite(ps, s, i).None? ==>
        && (i in PotentialsOutcome(cfg, ps).cfg.vals[s].vals <==> i in cfg.vals[s].vals)
        && (i in cfg.vals[s].vals ==> PotentialsOutcome(cfg, ps).cfg.vals[s].vals[i] == cfg.vals[s].vals[i])
    decreases |ps|
  {
    if ps != [] {
      var s0 := ps[0].before.section;
      if s0 in cfg.vals {
        var i0 := ps[0].before.item;
        var cfg1 := cfg.Put(s0, cfg.vals[s0].Put(i0, One(Str(ps[0].after.value))));
        PotentialsSpec(cfg1, ps[1..]);
        assert PotentialsOutcome(cfg, ps) == PotentialsOutcome(cfg1, ps[1..]);
        assert forall k :: 1 <= k < |ps| ==> ps[k] == ps[1..][k - 1];
        if PotentialsOutcome(cfg1, ps[1..]).error.Some? {
          var k :| 0 <= k < |ps[1..]| && ps[1..][k].before.section !in cfg1.vals
            && PotentialsOutcome(cfg1, ps[1..]).error == Some(KeyError(Some(ps[1..][k].before.section)))
            && forall j :: 0 <= j < k ==> ps[1..][j].before.section in cfg1.vals;
          assert ps[k + 1] == ps[1..][k];
        }
      }
    }
  }

  /** A removal deletes the old item and changes nothing else, under either test for a
      new section. */
  lemma RemovalStep(orig: Cfg, m: Master, cfg: Cfg, c: Applied, fixed: bool)
    requires c.target.Removed? && c.before.section in cfg.vals && c.before.item in cfg.vals[c.before.section].vals
    ensures var o := ChangeStep(orig, m, cfg, c, fixed);
      && o.error.None? && o.cfg.keys == cfg.keys && o.cfg.vals.Keys == cfg.vals.Keys
      && o.cfg.vals[c.before.section].vals == cfg.vals[c.before.section].vals - {c.before.item}
      && forall s :: s in cfg.vals && s != c.before.section ==> o.cfg.vals[s] == cfg.vals[s]
  {
  }

  /** A rename between two sections of the original config moves the value to its new
      section and item, deletes the old item, and drops the old section exactly when that
      leaves it empty and the master config lacks it, under either test for a new section. */
  lemma RenameStep(orig: Cfg, m: Master, cfg: Cfg, c: Applied, fixed: bool)
    requires c.target.To? && c.target.slots.section != "removed" && c.target.slots.section != c.before.section
    requires c.before.section in orig.vals && c.target.slots.section in orig.vals
    requires c.before.section in cfg.vals && c.target.slots.section in cfg.vals
    requires c.before.item in cfg.vals[c.before.section].vals
    ensures var o := ChangeStep(orig, m, cfg, c, fixed);
      var so, io, sn := c.before.section, c.before.item, c.target.slots.section;
      var left := cfg.vals[so].Delete(io);
      && o.error.None?
      && o.cfg.vals[sn].vals == cfg.vals[sn].vals[c.target.slots.item := cfg.vals[so].vals[io]]
      && (so !in o.cfg.vals <==> |left.keys| == 0 && so !in m.vals)
      && (so in o.cfg.vals ==> o.cfg.vals[so].vals == cfg.vals[so].vals - {io})
      && forall x :: x in cfg.vals && x != so && x != sn ==> x in o.cfg.vals && o.cfg.vals[x] == cfg.vals[x]
  {
  }

  /** A rename inside one section, the usual changelog entry: the value moves to its new
      item name and the old name is gone; the section stays, and so does every other one. */
  lemma SameSectionRename(orig: Cfg, m: Master, cfg: Cfg, c: Applied, fixed: bool)
    requires c.target.To? && c.target.slots.section == c.before.section && c.before.section != "removed"
    requires c.target.slots.item != c.before.item
    requires c.before.section in orig.vals && c.before.section in cfg.vals && cfg.vals[c.before.section].Valid()
    requires c.before.item in cfg.vals[c.before.section].vals
    ensures var o := ChangeStep(orig, m, cfg, c, fixed);
      var s, io := c.before.section, c.before.item;
      && o.error.None? && s in o.cfg.vals
      && o.cfg.vals[s].vals == (cfg.vals[s].vals - {io})[c.target.slots.item := cfg.vals[s].vals[io]]
      && forall x :: x in cfg.vals && x != s ==> x in o.cfg.vals && o.cfg.vals[x] == cfg.vals[x]
  {
    var s, io, inew := c.before.section, c.before.item, c.target.slots.item;
    var moved := cfg.vals[s].Put(inew, cfg.vals[s].vals[io]);
    assert inew in moved.keys;
    var left := moved.Delete(io);
    assert inew in left.keys;
    assert left.vals == (cfg.vals[s].vals - {io})[inew := cfg.vals[s].vals[io]];
  }

  /** A rename of an item onto its own name deletes it, as the copy is written before the
      old name is deleted; the section is then dropped when that empties it and the master
      config lacks it. */
  lemma RenameOntoItself(orig: Cfg, m: Master, cfg: Cfg, c: Applied, fixed: bool)
    requires c.target.To? && c.target.slots.section == c.before.section && c.before.section != "removed"
    requires c.target.slots.item == c.before.item
    requires c.before.section in orig.vals && c.before.section in cfg.vals && cfg.vals[c.before.section].Valid()
    requires c.before.item in cfg.vals[c.before.section].vals
    ensures var o := ChangeStep(orig, m, cfg, c, fixed);
      var s, io := c.before.section, c.before.item;
      && o.error.None?
      && (s in o.cfg.vals ==> o.cfg.vals[s].vals == cfg.vals[s].vals - {io})
      && (s !in o.cfg.vals ==> cfg.vals[s].vals.Keys == {io} && s !in m.vals)
  {
    var s, io := c.before.section, c.before.item;
    var moved := cfg.vals[s].Put(io, cfg.vals[s].vals[io]);
    var left := moved.Delete(io);
    assert forall x :: x in cfg.vals[s].vals && x != io ==> x in moved.keys && x in left.keys;
  }

  /** A rename into a section the original config lacks puts the moved item into a freshly
      emptied section, whatever an earlier change had already moved there. */
  lemma RenameIntoNewSection(orig: Cfg, m: Master, cfg: Cfg, c: Applied)
    requires c.target.To? && c.target.slots.section != "removed" && c.target.slots.section !in orig.vals
    requires c.before.section in orig.vals && c.before.section in cfg.vals
    requires c.before.item in cfg.vals[c.before.section].vals
    ensures var o := ChangeStep(orig, m, cfg, c, false);
      && o.error.None?
      && o.cfg.vals[c.target.slots.section].vals == map[c.target.slots.item := cfg.vals[c.before.section].vals[c.before.item]]
      && forall x :: x in cfg.vals && x != c.before.section && x != c.target.slots.section ==>
           x in o.cfg.vals && o.cfg.vals[x] == cfg.vals[x]
  {
  }

  /** Two renames out of section `a` into section `n`, which the user's config lacks: the
      second re-creates `n` empty and the first moved item is lost. */
  lemma RenamesIntoNewSectionLoseItems()
    ensures var orig := OrdMap(["a"], map["a" := OrdMap(["x", "y"], map["x" := One(Str("1")), "y" := One(Str("2"))])]);
      var cs := [Applied(Slots("a", "x", "any", "any"), To(Slots("n", "x", "any", "any"))),
                 Applied(Slots("a", "y", "any", "any"), To(Slots("n", "y", "any", "any")))];
      var o := ApplyOutcome(orig, Empty(), [], cs, false);
      && o.error.None? && "n" in o.cfg.vals
      && "x" !in o.cfg.vals["n"].vals && o.cfg.vals["n"].vals == map["y" := One(Str("2"))]
  {
    var orig := OrdMap(["a"], map["a" := OrdMap(["x", "y"], map["x" := One(Str("1")), "y" := One(Str("2"))])]);
    var c1 := Applied(Slots("a", "x", "any", "any"), To(Slots("n", "x", "any", "any")));
    var c2 := Applied(Slots("a", "y", "any", "any"), To(Slots("n", "y", "any", "any")));
    var o1 := ChangeStep(orig, Empty(), orig, c1, false);
    RenameIntoNewSection(orig, Empty(), orig, c1);
    assert "a" in o1.cfg.vals && "y" in o1.cfg.vals["a"].vals by {
      assert o1.cfg.vals["a"].vals == orig.vals["a"].vals - {"x"};
    }
    RenameIntoNewSection(orig, Empty(), o1.cfg, c2);
    assert ChangesOutcome(orig, Empty(), o1.cfg, [c2], false) == ChangeStep(orig, Empty(), o1.cfg, c2, false);
  }

  /** With the intended test, a rename keeps whatever the target section already holds
      apart from the one item it writes. */
  lemma FixedRenameKeepsItems(cfg: Cfg, sn: string, item: string, v: Value)
    ensures var prepared := PrepareTargetFixed(cfg, sn);
      var r := prepared.Put(sn, prepared.vals[sn].Put(item, v));
      && r.vals[sn].vals[item] == v
      && (sn in cfg.vals ==> forall x :: x in cfg.vals[sn].vals && x != item ==> x in r.vals[sn].vals && r.vals[sn].vals[x] == cfg.vals[sn].vals[x])
  {
  }

  /** With the intended test, a rename adds the moved item to whatever the copy already
      holds in the new section, and the section is made only when the copy lacks it. */
  lemma IntendedRenameStep(orig: Cfg, m: Master, cfg: Cfg, c: Applied)
    requires c.target.To? && c.target.slots.section != "removed" && c.target.slots.section != c.before.section
    requires c.before.section in orig.vals && c.before.section in cfg.vals
    requires c.before.item in cfg.vals[c.before.section].vals
    ensures var o := ChangeStep(orig, m, cfg, c, true);
      var sn := c.target.slots.section;
      var held := if sn in cfg.vals then cfg.vals[sn].vals else map[];
      && o.error.None? && sn in o.cfg.vals
      && o.cfg.vals[sn].vals == held[c.target.slots.item := cfg.vals[c.before.section].vals[c.before.item]]
  {
    FixedRenameKeepsItems(cfg, c.target.slots.section, c.target.slots.item, cfg.vals[c.before.section].vals[c.before.item]);
  }

  /** The two renames of `RenamesIntoNewSectionLoseItems` under the intended test: both
      items end up in the new section. */
  lemma IntendedRenamesKeepItems()
    ensures var orig := OrdMap(["a"], map["a" := OrdMap(["x", "y"], map["x" := One(Str("1")), "y" := One(Str("2"))])]);
      var cs := [Applied(Slots("a", "x", "any", "any"), To(Slots("n", "x", "any", "any"))),
                 Applied(Slots("a", "y", "any", "any"), To(Slots("n", "y", "any", "any")))];
      var o := ApplyOutcome(orig, Empty(), [], cs, true);
      && o.error.None? && "n" in o.cfg.vals
      && o.cfg.vals["n"].vals == map["x" := One(Str("1")), "y" := One(Str("2"))]
  {
    var orig := OrdMap(["a"], map["a" := OrdMap(["x", "y"], map["x" := One(Str("1")), "y" := One(Str("2"))])]);
    var c1 := Applied(Slots("a", "x", "any", "any"), To(Slots("n", "x", "any", "any")));
    var c2 := Applied(Slots("a", "y", "any", "any"), To(Slots("n", "y", "any", "any")));
    var o1 := ChangeStep(orig, Empty(), orig, c1, true);
    IntendedRenameStep(orig, Empty(), orig, c1);
    assert "a" in o1.cfg.vals && "y" in o1.cfg.vals["a"].vals by {
      assert o1.cfg.vals["a"].vals == orig.vals["a"].vals - {"x"};
    }
    IntendedRenameStep(orig, Empty(), o1.cfg, c2);
    assert ChangesOutcome(orig, Empty(), o1.cfg, [c2], true) == ChangeStep(orig, Empty(), o1.cfg, c2, true);
  }
}
