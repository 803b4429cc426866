/** The master-config entries of entries.py: recipe sections, their trigger entries, and
    the per-item configuration entries, each parsed from `parse_entry` property strings. */
module Entries {
  import opened Base
  import opened Strings
  import opened OrdMaps
  import opened Values
  import opened IniParse

  /** Words that mark a recipe item as a trigger (`__trigger_keywords__`). */
  const TriggerKeywords: seq<string> := ["trigger", "triggers", "condition"]

  /** The only property names a trigger accepts. */
  const TriggerNames: seq<string> := ["has_section", "has_item", "has_value"]

  /** The condition slots, in order. */
  const Hierarchy: seq<string> := ["section", "item", "value"]

  /** The only property names a configuration entry accepts. */
  const ConfigNames: seq<string> := ["default", "type", "options", "description"]

  /** The wildcard that fills a slot a trigger does not name. */
  const AnyWord: Scalar := Str("any")

  /** A `[section, item, value]` triple. */
  type Condition = seq<Scalar>

  predicate AllAny(c: Condition) {
    forall i :: 0 <= i < |c| ==> c[i] == AnyWord
  }

  // ------------------------------------------------------------ parse_entry names

  /** Every name `parse_entry` accepted is one of `valid_names`, every property string of an
      accepted entry has an '=', and a property string naming something outside
      `valid_names` makes the whole entry fail. */
  lemma EntryNames(info: seq<string>, item: Option<string>, names: seq<string>)
    ensures Entry(info, item, Some(names)).Ok? ==>
      && (forall j :: 0 <= j < |info| ==> '=' in info[j] && PropName(info[j]) in names)
      && (forall k :: k in Entry(info, item, Some(names)).value.vals ==> k in names)
    ensures (exists j :: 0 <= j < |info| && '=' in info[j] && PropName(info[j]) !in names) ==>
      Entry(info, item, Some(names)).Err?
  {
    var ps := Parsed(info, item, Some(names));
    if Entry(info, item, Some(names)).Ok? {
      CollectKeys(Empty(), ps);
      forall j | 0 <= j < |info|
        ensures '=' in info[j] && PropName(info[j]) in names
      {
        PropertyAccepted(info[j], item, Some(names));
      }
      forall k | k in Entry(info, item, Some(names)).value.vals
        ensures k in names
      {
        var j :| 0 <= j < |ps| && ps[j].value.name == k;
        PropertyAccepted(info[j], item, Some(names));
      }
    }
  }

  // ------------------------------------------------------------ TriggerEntry

  /** A trigger's parsed conditions. */
  datatype TriggerEntry = TriggerEntry(conditions: seq<Condition>)

  /** The condition one trigger property describes: a bracketed list fills the slots
      positionally from `section` (more than three words overrun the triple), a single value
      fills every slot whose word appears in the property name. */
  function ConditionOf(name: string, value: Value): (r: Result<Condition>)
    ensures r.Ok? ==> |r.value| == 3
    ensures r.Err? <==> value.Many? && |value.xs| > 3
  {
    match value
    case Many(xs) =>
      if |xs| > 3 then Err(IndexError)
      else Ok(xs + [AnyWord, AnyWord, AnyWord][|xs|..])
    case One(x) =>
      Ok([Slot(name, "section", x), Slot(name, "item", x), Slot(name, "value", x)])
  }

  /** The slot named `word` holds `x` when the property name mentions it, else `any`. */
  function Slot(name: string, word: string, x: Scalar): Scalar {
    if HasInfix(name, word) then x else AnyWord
  }

  /** The condition of every property, in property order. */
  function ConditionResults(props: OrdMap<Value>): (r: seq<Result<Condition>>)
    ensures |r| == |props.keys|
  {
    seq(|props.keys|, i requires 0 <= i < |props.keys| => ConditionAt(props, i))
  }

  /** The condition of the `i`-th property; a listed name without a value, which parsed
      properties never hold, is the failed lookup. */
  function ConditionAt(props: OrdMap<Value>, i: nat): Result<Condition>
    requires i < |props.keys|
  {
    var k := props.keys[i];
    if k in props.vals then ConditionOf(k, props.vals[k]) else Err(KeyError(Some(k)))
  }

  /** The first `n` conditions in order, all-`any` triples dropped; the first failure aborts. */
  function Conditions(rs: seq<Result<Condition>>, n: nat): Result<seq<Condition>>
    requires n <= |rs|
  {
    if n == 0 then Ok([])
    else
      var done :- Conditions(rs, n - 1);
      var c :- rs[n - 1];
      Ok(if AllAny(c) then done else done + [c])
  }

  /** `TriggerEntry(parseable_line)`. */
  function TriggerOf(line: seq<string>): Result<TriggerEntry> {
    var props :- Entry(line, None, Some(TriggerNames));
    var rs := ConditionResults(props);
    var cs :- Conditions(rs, |rs|);
    Ok(TriggerEntry(cs))
  }

  /** The triple of one property, filled slot by slot. */
  method ConditionLine(name: string, value: Value) returns (r: Result<Condition>)
    ensures r == ConditionOf(name, value)
  {
    if value.Many? {
      r := ListedCondition(value.xs);
    } else {
      var c := NamedCondition(name, value.x);
      r := Ok(c);
    }
  }

  /** A bracketed list laid over `[any, any, any]` from the left. */
  method ListedCondition(xs: seq<Scalar>) returns (r: Result<Condition>)
    ensures r == ConditionOf("", Many(xs))
  {
    var result: Condition := [AnyWord, AnyWord, AnyWord];
    var i := 0;
    while i < |xs|
      invariant 0 <= i <= |xs| && i <= 3
      invariant |result| == 3
      invariant result == xs[..i] + [AnyWord, AnyWord, AnyWord][i..]
    {
      if i >= 3 {
        return Err(IndexError);
      }
      result := result[i := xs[i]];
      assert xs[..i + 1] == xs[..i] + [xs[i]];
      i := i + 1;
    }
    assert xs[..i] == xs;
    return Ok(result);
  }

  /** A single value placed in every slot the property name mentions. */
  method NamedCondition(name: string, x: Scalar) returns (c: Condition)
    ensures Ok(c) == ConditionOf(name, One(x))
  {
    c := [AnyWord, AnyWord, AnyWord];
    var i := 0;
    while i < 3
      invariant 0 <= i <= 3 && |c| == 3
      invariant forall j :: 0 <= j < 3 ==>
        c[j] == if j < i then Slot(name, Hierarchy[j], x) else AnyWord
    {
      if HasInfix(name, Hierarchy[i]) {
        c := c[i := x];
      }
      i := i + 1;
    }
    assert c == ConditionOf(name, One(x)).value;
  }

  /** `TriggerEntry.__init__`: one condition per property, all-`any` ones left out. */
  method NewTriggerEntry(line: seq<string>) returns (r: Result<TriggerEntry>)
    ensures r == TriggerOf(line)
  {
    var parsed := ParseEntry(line, None, Some(TriggerNames));
    if parsed.Err? {
      return Err(parsed.error);
    }
    var props := parsed.value;
    ghost var rs := ConditionResults(props);
    var conditions: seq<Condition> := [];
    var i := 0;
    while i < |props.keys|
      invariant 0 <= i <= |props.keys|
      invariant Conditions(rs, i) == Ok(conditions)
    {
      var name := props.keys[i];
      var result := ConditionLine(name, props.vals[name]);
      assert rs[i] == ConditionAt(props, i) == result;
      ConditionsStep(rs, i, conditions, result);
      if result.Err? {
        ConditionsErrPersists(rs, i + 1, |rs|);
        return Err(result.error);
      }
      if !AllAny(result.value) {
        conditions := conditions + [result.value];
      }
      i := i + 1;
    }
    return Ok(TriggerEntry(conditions));
  }

  /** One more property: its failure aborts, its triple is kept unless it is all `any`. */
  lemma ConditionsStep(rs: seq<Result<Condition>>, i: nat, done: seq<Condition>, c: Result<Condition>)
    requires i < |rs| && rs[i] == c
    requires Conditions(rs, i) == Ok(done)
    ensures c.Err? ==> Conditions(rs, i + 1) == Err(c.error)
    ensures c.Ok? ==> Conditions(rs, i + 1) == Ok(if AllAny(c.value) then done else done + [c.value])
  {
  }

  lemma {:induction false} ConditionsErrPersists(rs: seq<Result<Condition>>, n: nat, m: nat)
    requires n <= m <= |rs|
    requires Conditions(rs, n).Err?
    ensures Conditions(rs, m) == Conditions(rs, n)
    decreases m
  {
    if m > n {
      ConditionsErrPersists(rs, n, m - 1);
    }
  }

  /** The indices whose conditions were kept, in order. */
  ghost function Kept(rs: seq<Result<Condition>>, n: nat): seq<nat>
    requires n <= |rs|
  {
    if n == 0 then []
    else if rs[n - 1].Ok? && !AllAny(rs[n - 1].value) then Kept(rs, n - 1) + [n - 1]
    else Kept(rs, n - 1)
  }

  /** The conditions follow the property order, one per property at most: each comes from a
      distinct property (strictly increasing indices), none is all `any`, and every
      property whose triple is not all `any` contributes one. Collecting fails exactly when
      some property fails. */
  lemma {:induction false} ConditionsOrder(rs: seq<Result<Condition>>, n: nat)
    requires n <= |rs|
    ensures Conditions(rs, n).Err? <==> exists i :: 0 <= i < n && rs[i].Err?
    ensures Conditions(rs, n).Ok? ==>
      var cs := Conditions(rs, n).value; var idx := Kept(rs, n);
      && |idx| == |cs| <= n
      && (forall j :: 0 <= j < |idx| ==> idx[j] < n)
      && (forall j, j' :: 0 <= j < j' < |idx| ==> idx[j] < idx[j'])
      && (forall j :: 0 <= j < |cs| ==> (!AllAny(cs[j]) && rs[idx[j]] == Ok(cs[j])))
      && (forall i :: 0 <= i < n ==> rs[i].Ok? && (!AllAny(rs[i].value) ==> i in idx))
  {
    ConditionsFail(rs, n);
    KeptShape(rs, n);
    if n > 0 && Conditions(rs, n).Ok? {
      ConditionsOrder(rs, n - 1);
      assert Conditions(rs, n - 1).Ok? && rs[n - 1].Ok?;
      var c := rs[n - 1].value;
      if AllAny(c) {
        assert Kept(rs, n) == Kept(rs, n - 1);
        assert Conditions(rs, n).value == Conditions(rs, n - 1).value;
      } else {
        assert Kept(rs, n) == Kept(rs, n - 1) + [n - 1];
        assert Conditions(rs, n).value == Conditions(rs, n - 1).value + [c];
      }
    }
  }

  /** The kept indices are below `n`, strictly increasing, and include every index whose
      condition is not all `any`. */
  lemma {:induction false} KeptShape(rs: seq<Result<Condition>>, n: nat)
    requires n <= |rs|
    ensures |Kept(rs, n)| <= n
    ensures forall j :: 0 <= j < |Kept(rs, n)| ==> Kept(rs, n)[j] < n
    ensures forall j, j' :: 0 <= j < j' < |Kept(rs, n)| ==> Kept(rs, n)[j] < Kept(rs, n)[j']
    ensures forall i :: 0 <= i < n && rs[i].Ok? && !AllAny(rs[i].value) ==> i in Kept(rs, n)
  {
    if n > 0 {
      KeptShape(rs, n - 1);
    }
  }

  /** Collecting the first `n` conditions fails exactly when one of them fails. */
  lemma {:induction false} ConditionsFail(rs: seq<Result<Condition>>, n: nat)
    requires n <= |rs|
    ensures Conditions(rs, n).Err? <==> exists i :: 0 <= i < n && rs[i].Err?
  {
    if n > 0 {
      ConditionsFail(rs, n - 1);
      if rs[n - 1].Err? {
        assert Conditions(rs, n).Err?;
      }
    }
  }

  /** For a trigger: its conditions in property order, each from a distinct property (the
      `idx[j]`-th, strictly increasing, so distinct names), never all `any`, and one for
      every property whose triple is not all `any`. */
  lemma TriggerConditions(line: seq<string>)
    requires TriggerOf(line).Ok?
    ensures var props := Entry(line, None, Some(TriggerNames)).value;
      var rs := ConditionResults(props);
      var cs := TriggerOf(line).value.conditions;
      var idx := Kept(rs, |rs|);
      && |idx| == |cs|
      && (forall j :: 0 <= j < |idx| ==> idx[j] < |props.keys|)
      && (forall j, j' :: 0 <= j < j' < |idx| ==> idx[j] < idx[j'] && props.keys[idx[j]] != props.keys[idx[j']])
      && (forall j :: 0 <= j < |cs| ==> (!AllAny(cs[j]) && rs[idx[j]] == Ok(cs[j])))
      && (forall i :: 0 <= i < |rs| ==> rs[i].Ok? && (!AllAny(rs[i].value) ==> i in idx))
  {
    var props := Entry(line, None, Some(TriggerNames)).value;
    var rs := ConditionResults(props);
    ConditionsOrder(rs, |rs|);
  }

  /** A trigger accepts only `has_section`, `has_item` and `has_value`: any other property
      name makes it fail, and an accepted trigger's properties all carry an '='. */
  lemma TriggerNamesOnly(line: seq<string>)
    ensures TriggerOf(line).Ok? ==> forall j :: 0 <= j < |line| ==> '=' in line[j] && PropName(line[j]) in TriggerNames
    ensures (exists j :: 0 <= j < |line| && '=' in line[j] && PropName(line[j]) !in TriggerNames) ==>
      TriggerOf(line).Err?
  {
    EntryNames(line, None, TriggerNames);
  }

  /** Each trigger keyword holds its own slot name and neither of the other two. */
  lemma KeywordWords()
    ensures HasInfix("has_section", "section")
    ensures !HasInfix("has_section", "item") && !HasInfix("has_section", "value")
    ensures HasInfix("has_item", "item")
    ensures !HasInfix("has_item", "section") && !HasInfix("has_item", "value")
    ensures HasInfix("has_value", "value")
    ensures !HasInfix("has_value", "section") && !HasInfix("has_value", "item")
  {
    hide *;
    InfixAt("has_section", "section", 4);
    InfixAt("has_item", "item", 4);
    InfixAt("has_value", "value", 4);
    NoInfixByChar("has_section", "item", 'm');
    NoInfixByChar("has_section", "value", 'v');
    NoInfixByChar("has_item", "section", 'c');
    NoInfixByChar("has_item", "value", 'v');
    NoInfixByChar("has_value", "section", 'c');
    NoInfixByChar("has_value", "item", 'i');
  }

  /** A single value fills exactly the slot its property names, `any` elsewhere. */
  lemma ScalarSlots(x: Scalar)
    ensures ConditionOf("has_section", One(x)) == Ok([x, AnyWord, AnyWord])
    ensures ConditionOf("has_item", One(x)) == Ok([AnyWord, x, AnyWord])
    ensures ConditionOf("has_value", One(x)) == Ok([AnyWord, AnyWord, x])
  {
    KeywordWords();
  }

  /** A bracketed list of at most three words fills the slots from `section` onwards and
      leaves the rest `any`; a longer one fails. */
  lemma ListSlots(name: string, xs: seq<Scalar>)
    ensures |xs| <= 3 ==>
      (ConditionOf(name, Many(xs)).Ok? && ConditionOf(name, Many(xs)).value == xs + [AnyWord, AnyWord, AnyWord][|xs|..])
    ensures |xs| > 3 ==> ConditionOf(name, Many(xs)) == Err(IndexError)
  {
  }

  // ------------------------------------------------------------ RecipeSection

  /** A recipe section: its triggers and the adjustments they guard. */
  datatype Recipe = Recipe(name: Option<string>, triggers: OrdMap<TriggerEntry>, adjConfig: OrdMap<OrdMap<Value>>)

  /** The item name holds one of the trigger keywords. */
  predicate IsTriggerItem(item: string) {
    exists j :: 0 <= j < |TriggerKeywords| && HasInfix(item, TriggerKeywords[j])
  }

  /** What one recipe item parses to. */
  datatype Part = TriggerPart(trigger: TriggerEntry) | AdjustPart(entry: OrdMap<Value>)

  /** The item `k` with property strings `line`: a trigger item as a `TriggerEntry`, any
      other item as its `parse_entry` result with no name restriction. */
  function ItemPart(k: string, line: seq<string>): Result<Part> {
    if IsTriggerItem(k) then
      var t :- TriggerOf(line);
      Ok(TriggerPart(t))
    else
      var e :- Entry(line, Some(k), None);
      Ok(AdjustPart(e))
  }

  /** Every item of the section parsed on its own, in order. */
  function Parts(d: OrdMap<seq<string>>): (r: seq<Result<Part>>)
    ensures |r| == |d.keys|
  {
    seq(|d.keys|, i requires 0 <= i < |d.keys| => PartOf(d, i))
  }

  /** The `i`-th item parsed; a listed name without contents, which a well-formed section
      never holds, is the failed lookup. */
  function PartOf(d: OrdMap<seq<string>>, i: nat): Result<Part>
    requires i < |d.keys|
  {
    var k := d.keys[i];
    if k in d.vals then ItemPart(k, d.vals[k]) else Err(KeyError(Some(k)))
  }

  /** A parsed item stored in its place. */
  function Place(acc: Recipe, k: string, p: Part): Recipe {
    match p
    case TriggerPart(t) => acc.(triggers := acc.triggers.Put(k, t))
    case AdjustPart(e) => acc.(adjConfig := acc.adjConfig.Put(k, e))
  }

  /** The recipe built from the first `n` parsed items `ps` under the names `ks`, in
      order; the first failure aborts. */
  function RecipeFold(ks: seq<string>, ps: seq<Result<Part>>, name: Option<string>, n: nat): Result<Recipe>
    requires n <= |ks| == |ps|
  {
    if n == 0 then Ok(Recipe(name, Empty(), Empty()))
    else
      var acc :- RecipeFold(ks, ps, name, n - 1);
      var p :- ps[n - 1];
      Ok(Place(acc, ks[n - 1], p))
  }

  /** `RecipeSection(recipe_section_dict, name)`. */
  function RecipeOf(d: OrdMap<seq<string>>, name: Option<string>): Result<Recipe>
  {
    RecipeFold(d.keys, Parts(d), name, |d.keys|)
  }

  /** The names of the first `n` items that parsed as triggers (or, with `trig` false, as
      adjustments), in item order. */
  function KeysWhere(ks: seq<string>, ps: seq<Result<Part>>, n: nat, trig: bool): (r: seq<string>)
    requires n <= |ks| == |ps|
    ensures forall k :: k in r ==> k in ks[..n]
    ensures forall k :: k in r ==> exists i :: 0 <= i < n && ks[i] == k && ps[i].Ok? && ps[i].value.TriggerPart? == trig
  {
    if n == 0 then []
    else if ps[n - 1].Ok? && ps[n - 1].value.TriggerPart? == trig then KeysWhere(ks, ps, n - 1, trig) + [ks[n - 1]]
    else KeysWhere(ks, ps, n - 1, trig)
  }

  /** `RecipeSection.__init__`: every item goes to the triggers when its name holds a
      trigger keyword, otherwise to the adjustments as a `parse_entry` result. */
  method NewRecipeSection(d: OrdMap<seq<string>>, name: Option<string>) returns (r: Result<Recipe>)
    requires d.Valid()
    ensures r == RecipeOf(d, name)
  {
    r := RecipeItems(d, name, Parts(d));
  }

  /** The item loop over the parsed items `ps`, each `PartOf` its position. */
  method RecipeItems(d: OrdMap<seq<string>>, name: Option<string>, ghost ps: seq<Result<Part>>) returns (r: Result<Recipe>)
    requires d.Valid() && |ps| == |d.keys|
    requires forall i {:trigger PartOf(d, i)} :: 0 <= i < |d.keys| ==> ps[i] == PartOf(d, i)
    ensures r == RecipeFold(d.keys, ps, name, |d.keys|)
  {
    var acc := Recipe(name, Empty(), Empty());
    var n := 0;
    while n < |d.keys|
      invariant 0 <= n <= |d.keys|
      invariant acc.name == name && RecipeFold(d.keys, ps, name, n) == Ok(acc)
    {
      var step := RecipeStep(d, name, ps, n, acc.triggers, acc.adjConfig);
      if step.Err? {
        return step;
      }
      acc := step.value;
      n := n + 1;
    }
    return Ok(acc);
  }

  /** One pass of the item loop: the `n`-th item parsed and stored in its place. */
  method RecipeStep(d: OrdMap<seq<string>>, name: Option<string>, ghost ps: seq<Result<Part>>, n: nat,
                    triggers: OrdMap<TriggerEntry>, adjConfig: OrdMap<OrdMap<Value>>) returns (r: Result<Recipe>)
    requires n < |d.keys| == |ps| && d.keys[n] in d.vals
    requires forall i {:trigger PartOf(d, i)} :: 0 <= i < |d.keys| ==> ps[i] == PartOf(d, i)
    requires RecipeFold(d.keys, ps, name, n) == Ok(Recipe(name, triggers, adjConfig))
    ensures r.Ok? ==> r == RecipeFold(d.keys, ps, name, n + 1) && r.value.name == name
    ensures r.Err? ==> r == RecipeFold(d.keys, ps, name, |d.keys|)
  {
    var item := d.keys[n];
    var part := RecipeItemAt(d, n);
    RecipeFoldStep(d.keys, ps, name, n, Recipe(name, triggers, adjConfig));
    if part.Err? {
      RecipeErrPersists(d.keys, ps, name, n + 1, |d.keys|);
      return Err(part.error);
    }
    var triggers', adjConfig' := StorePart(triggers, adjConfig, item, part.value);
    return Ok(Recipe(name, triggers', adjConfig'));
  }

  /** A parsed item goes to the triggers or to the adjustments under its name. */
  method StorePart(triggers: OrdMap<TriggerEntry>, adjConfig: OrdMap<OrdMap<Value>>, item: string, part: Part)
    returns (triggers': OrdMap<TriggerEntry>, adjConfig': OrdMap<OrdMap<Value>>)
    ensures Place(Recipe(None, triggers, adjConfig), item, part) == Recipe(None, triggers', adjConfig')
  {
    triggers', adjConfig' := triggers, adjConfig;
    if part.TriggerPart? {
      triggers' := triggers.Put(item, part.trigger);
    } else {
      adjConfig' := adjConfig.Put(item, part.entry);
    }
  }

  /** The `n`-th item of the section, parsed. */
  method RecipeItemAt(d: OrdMap<seq<string>>, n: nat) returns (r: Result<Part>)
    requires n < |d.keys| && d.keys[n] in d.vals
    ensures r == PartOf(d, n)
  {
    r := RecipeItem(d.keys[n], d.vals[d.keys[n]]);
  }

  /** The body of the item loop: the keyword scan, then the trigger or the adjustment. */
  method RecipeItem(item: string, entry: seq<string>) returns (r: Result<Part>)
    ensures r == ItemPart(item, entry)
  {
    var j := 0;
    var found := false;
    while j < |TriggerKeywords| && !found
      invariant 0 <= j <= |TriggerKeywords|
      invariant found <==> exists i :: 0 <= i < j && HasInfix(item, TriggerKeywords[i])
    {
      found := HasInfix(item, TriggerKeywords[j]);
      j := j + 1;
    }
    if found {
      var t := NewTriggerEntry(entry);
      if t.Err? {
        return Err(t.error);
      }
      return Ok(TriggerPart(t.value));
    }
    var itemDict := ParseEntry(entry, Some(item), None);
    if itemDict.Err? {
      return Err(itemDict.error);
    }
    return Ok(AdjustPart(itemDict.value));
  }

  /** One more item: its failure aborts, otherwise it is stored in its place. */
  lemma RecipeFoldStep(ks: seq<string>, ps: seq<Result<Part>>, name: Option<string>, n: nat, acc: Recipe)
    requires n < |ks| == |ps|
    requires RecipeFold(ks, ps, name, n) == Ok(acc)
    ensures ps[n].Err? ==> RecipeFold(ks, ps, name, n + 1) == Err(ps[n].error)
    ensures ps[n].Ok? ==> RecipeFold(ks, ps, name, n + 1) == Ok(Place(acc, ks[n], ps[n].value))
  {
  }

  lemma {:induction false} RecipeErrPersists(ks: seq<string>, ps: seq<Result<Part>>, name: Option<string>, n: nat, m: nat)
    requires n <= m <= |ks| == |ps|
    requires RecipeFold(ks, ps, name, n).Err?
    ensures RecipeFold(ks, ps, name, m) == RecipeFold(ks, ps, name, n)
    decreases m
  {
    if m > n {
      RecipeErrPersists(ks, ps, name, n, m - 1);
      RecipeErrStep(ks, ps, name, m - 1);
    }
  }

  /** A failed fold stays failed for one more item. */
  lemma RecipeErrStep(ks: seq<string>, ps: seq<Result<Part>>, name: Option<string>, n: nat)
    requires n < |ks| == |ps|
    requires RecipeFold(ks, ps, name, n).Err?
    ensures RecipeFold(ks, ps, name, n + 1) == RecipeFold(ks, ps, name, n)
  {
  }

  /** The recipe's parts keep distinct keys, listed exactly as their contents. */
  ghost predicate RecipeValid(rc: Recipe) {
    rc.triggers.Valid() && rc.adjConfig.Valid()
  }

  predicate Distinct(ks: seq<string>) {
    forall i, j :: 0 <= i < j < |ks| ==> ks[i] != ks[j]
  }

  /** Both places keep the items' order: the items parsed as triggers, in order, are the
      triggers' keys, and the others the adjustments' keys. */
  lemma {:induction false} RecipeKeys(ks: seq<string>, ps: seq<Result<Part>>, name: Option<string>, n: nat)
    requires n <= |ks| == |ps| && Distinct(ks)
    requires RecipeFold(ks, ps, name, n).Ok?
    ensures var rc := RecipeFold(ks, ps, name, n).value;
      && rc.name == name
      && RecipeValid(rc)
      && rc.triggers.keys == KeysWhere(ks, ps, n, true)
      && rc.adjConfig.keys == KeysWhere(ks, ps, n, false)
  {
    if n > 0 {
      RecipeKeys(ks, ps, name, n - 1);
      assert ks[n - 1] !in ks[..n - 1];
    }
  }

  /** Each item's parse is stored under its name, in its place. */
  lemma {:induction false} RecipeValues(ks: seq<string>, ps: seq<Result<Part>>, name: Option<string>, n: nat)
    requires n <= |ks| == |ps| && Distinct(ks)
    requires RecipeFold(ks, ps, name, n).Ok?
    ensures var rc := RecipeFold(ks, ps, name, n).value;
      forall i :: 0 <= i < n ==> (ps[i].Ok? &&
        (ps[i].value.TriggerPart? ==> ks[i] in rc.triggers.vals && rc.triggers.vals[ks[i]] == ps[i].value.trigger) &&
        (ps[i].value.AdjustPart? ==> ks[i] in rc.adjConfig.vals && rc.adjConfig.vals[ks[i]] == ps[i].value.entry))
  {
    if n > 0 {
      RecipeValues(ks, ps, name, n - 1);
    }
  }

  /** Every item lands in exactly one place: a trigger item among the triggers, holding its
      `TriggerEntry`, any other item among the adjustments, holding its `parse_entry`
      result; both keep the items' order. */
  lemma RecipeSplit(d: OrdMap<seq<string>>, name: Option<string>)
    requires d.Valid()
    requires RecipeOf(d, name).Ok?
    ensures var rc := RecipeOf(d, name).value;
      && rc.name == name
      && rc.triggers.keys == KeysWhere(d.keys, Parts(d), |d.keys|, true)
      && rc.adjConfig.keys == KeysWhere(d.keys, Parts(d), |d.keys|, false)
      && (forall k :: k in rc.triggers.vals <==> k in d.vals && IsTriggerItem(k))
      && (forall k :: k in rc.adjConfig.vals <==> k in d.vals && !IsTriggerItem(k))
      && (forall k :: k in rc.triggers.vals ==> TriggerOf(d.vals[k]) == Ok(rc.triggers.vals[k]))
      && (forall k :: k in rc.adjConfig.vals ==> Entry(d.vals[k], Some(k), None) == Ok(rc.adjConfig.vals[k]))
  {
    var ps := Parts(d);
    var rc := RecipeOf(d, name).value;
    RecipeKeys(d.keys, ps, name, |d.keys|);
    RecipeValues(d.keys, ps, name, |d.keys|);
    assert d.keys[..|d.keys|] == d.keys;
    SplitPlaces(d, ps, rc);
  }

  lemma SplitPlaces(d: OrdMap<seq<string>>, ps: seq<Result<Part>>, rc: Recipe)
    requires d.Valid() && ps == Parts(d) && RecipeValid(rc)
    requires forall k :: k in rc.triggers.vals ==> exists i :: 0 <= i < |d.keys| && d.keys[i] == k && ps[i].Ok? && ps[i].value.TriggerPart?
    requires forall k :: k in rc.adjConfig.vals ==> exists i :: 0 <= i < |d.keys| && d.keys[i] == k && ps[i].Ok? && ps[i].value.AdjustPart?
    requires forall i :: 0 <= i < |d.keys| ==> (ps[i].Ok? &&
        (ps[i].value.TriggerPart? ==> d.keys[i] in rc.triggers.vals && rc.triggers.vals[d.keys[i]] == ps[i].value.trigger) &&
        (ps[i].value.AdjustPart? ==> d.keys[i] in rc.adjConfig.vals && rc.adjConfig.vals[d.keys[i]] == ps[i].value.entry))
    ensures forall k :: k in rc.triggers.vals <==> k in d.vals && IsTriggerItem(k)
    ensures forall k :: k in rc.adjConfig.vals <==> k in d.vals && !IsTriggerItem(k)
    ensures forall k :: k in rc.triggers.vals ==> TriggerOf(d.vals[k]) == Ok(rc.triggers.vals[k])
    ensures forall k :: k in rc.adjConfig.vals ==> Entry(d.vals[k], Some(k), None) == Ok(rc.adjConfig.vals[k])
  {
    forall k | k in d.vals
      ensures (k in rc.triggers.vals <==> IsTriggerItem(k)) && (k in rc.adjConfig.vals <==> !IsTriggerItem(k))
      ensures IsTriggerItem(k) ==> TriggerOf(d.vals[k]) == Ok(rc.triggers.vals[k])
      ensures !IsTriggerItem(k) ==> Entry(d.vals[k], Some(k), None) == Ok(rc.adjConfig.vals[k])
    {
      var i :| 0 <= i < |d.keys| && d.keys[i] == k;
      PartAt(d, i);
      PartKind(k, d.vals[k]);
    }
  }

  lemma PartAt(d: OrdMap<seq<string>>, i: nat)
    requires i < |d.keys| && d.keys[i] in d.vals
    ensures Parts(d)[i] == ItemPart(d.keys[i], d.vals[d.keys[i]])
  {
  }

  /** A parsed item is a trigger exactly when its name holds a trigger keyword. */
  lemma PartKind(k: string, line: seq<string>)
    requires ItemPart(k, line).Ok?
    ensures ItemPart(k, line).value.TriggerPart? <==> IsTriggerItem(k)
    ensures IsTriggerItem(k) ==> TriggerOf(line) == Ok(ItemPart(k, line).value.trigger)
    ensures !IsTriggerItem(k) ==> Entry(line, Some(k), None) == Ok(ItemPart(k, line).value.entry)
  {
  }

  /** A recipe fails exactly when one of its items does, and then with the first failure. */
  lemma {:induction false} RecipeError(ks: seq<string>, ps: seq<Result<Part>>, name: Option<string>, n: nat)
    requires n <= |ks| == |ps|
    ensures RecipeFold(ks, ps, name, n).Err? <==> exists j :: 0 <= j < n && ps[j].Err?
    ensures RecipeFold(ks, ps, name, n).Err? ==>
      exists j :: 0 <= j < n && ps[j].Err? && RecipeFold(ks, ps, name, n).error == ps[j].error
        && forall i :: 0 <= i < j ==> ps[i].Ok?
  {
    if n > 0 {
      RecipeError(ks, ps, name, n - 1);
    }
  }

  // ------------------------------------------------------------ ConfigEntry

  /** A configuration entry of the master config. */
  datatype ConfigEntry = ConfigEntry(
    name: Option<string>,
    value: Value,
    default: Value,
    options: seq<Scalar>,
    description: Value,
    listed: bool,
    typ: string)

  /** The attribute `attr` after the `setattr` loop: the parsed property when there is one,
      otherwise the constructor's value. */
  function Assigned(props: OrdMap<Value>, attr: string, initial: Value): Value {
    if attr in props.vals then props.vals[attr] else initial
  }

  /** The type text after lowercasing, with the `list` marker handled. */
  function TypeOf(t: string): string {
    var lower := Lower(t);
    if HasInfix(lower, "list") then Strip(RemoveWord(lower, "list")) else lower
  }

  /** `ConfigEntry(name, value, default, entry_type, options, parseable_line)`. */
  function ConfigEntryOf(name: Option<string>, value: Value, default: Value, entryType: string, options: Value,
                         line: Option<seq<string>>): Result<ConfigEntry>
  {
    var props :- if line.Some? then Entry(line.value, name, Some(ConfigNames)) else Ok(Empty());
    match Assigned(props, "type", One(Str(entryType)))
    case One(Str(t)) =>
      Ok(ConfigEntry(name, value, Assigned(props, "default", default),
                     MkLst(Assigned(props, "options", options)),
                     Assigned(props, "description", One(Str(""))),
                     HasInfix(Lower(t), "list"), TypeOf(t)))
    case _ => Err(AttributeError)  // only a text has `.lower()`
  }

  /** `ConfigEntry.__init__`: the parsed properties set the attributes of the same name,
      then options become a list and the type is lowercased, with `list` taken out. */
  method NewConfigEntry(name: Option<string>, value: Value, default: Value, entryType: string, options: Value,
                        line: Option<seq<string>>) returns (r: Result<ConfigEntry>)
    ensures r == ConfigEntryOf(name, value, default, entryType, options, line)
  {
    var props: OrdMap<Value> := Empty();
    if line.Some? {
      var parsed := ParseEntry(line.value, name, Some(ConfigNames));
      if parsed.Err? {
        return Err(parsed.error);
      }
      props := parsed.value;
      EntryKeysAllowed(line.value, name, ConfigNames);
    }
    var dflt, opts, description, typ := SetAttributes(props, default, options, entryType);
    var optionList := MkLst(opts);
    if !(typ.One? && typ.x.Str?) {
      return Err(AttributeError);
    }
    var t := Lower(typ.x.s);
    var listed := false;
    if HasInfix(t, "list") {
      listed := true;
      t := RemoveWord(t, "list");
      t := Strip(t);
    }
    return Ok(ConfigEntry(name, value, dflt, optionList, description, listed, t));
  }

  /** The `setattr` loop: each parsed property overwrites the attribute of its name. */
  method SetAttributes(props: OrdMap<Value>, default: Value, options: Value, entryType: string)
    returns (dflt: Value, opts: Value, description: Value, typ: Value)
    requires props.Valid() && forall k :: k in props.vals ==> k in ConfigNames
    ensures dflt == Assigned(props, "default", default)
    ensures opts == Assigned(props, "options", options)
    ensures description == Assigned(props, "description", One(Str("")))
    ensures typ == Assigned(props, "type", One(Str(entryType)))
  {
    dflt, opts, description, typ := default, options, One(Str("")), One(Str(entryType));
    var i := 0;
    while i < |props.keys|
      invariant 0 <= i <= |props.keys|
      invariant dflt == if "default" in props.keys[..i] then props.vals["default"] else default
      invariant opts == if "options" in props.keys[..i] then props.vals["options"] else options
      invariant description == if "description" in props.keys[..i] then props.vals["description"] else One(Str(""))
      invariant typ == if "type" in props.keys[..i] then props.vals["type"] else One(Str(entryType))
    {
      var attr := props.keys[i];
      assert props.keys[..i + 1] == props.keys[..i] + [attr];
      assert attr in props.vals;
      if attr == "default" {
        dflt := props.vals[attr];
      } else if attr == "type" {
        typ := props.vals[attr];
      } else if attr == "options" {
        opts := props.vals[attr];
      } else {
        description := props.vals[attr];
      }
      i := i + 1;
    }
    assert props.keys[..i] == props.keys;
  }

  /** An accepted entry holds only allowed names. */
  lemma EntryKeysAllowed(info: seq<string>, item: Option<string>, names: seq<string>)
    requires Entry(info, item, Some(names)).Ok?
    ensures forall k :: k in Entry(info, item, Some(names)).value.vals ==> k in names
  {
    EntryNames(info, item, names);
  }

  predicate IsLowerText(s: string) {
    forall c :: c in s ==> LowerChar(c) == c
  }

  /** A configuration entry accepts only `default`, `type`, `options` and `description`;
      each holds the parsed property when given (`default` as parsed, not cast); `options`
      ends up a list, and `listed` says whether the lowercased type held `list`. */
  lemma ConfigEntryShape(name: Option<string>, value: Value, default: Value, entryType: string, options: Value,
                         line: Option<seq<string>>)
    ensures line.Some? && (exists j :: 0 <= j < |line.value| && '=' in line.value[j] && PropName(line.value[j]) !in ConfigNames) ==>
      ConfigEntryOf(name, value, default, entryType, options, line).Err?
    ensures ConfigEntryOf(name, value, default, entryType, options, line).Ok? ==>
      var e := ConfigEntryOf(name, value, default, entryType, options, line).value;
      var props := if line.Some? then Entry(line.value, name, Some(ConfigNames)).value else Empty();
      && (line.Some? ==> forall j :: 0 <= j < |line.value| ==> '=' in line.value[j] && PropName(line.value[j]) in ConfigNames)
      && e.name == name && e.value == value
      && e.default == (if "default" in props.vals then props.vals["default"] else default)
      && e.description == (if "description" in props.vals then props.vals["description"] else One(Str("")))
      && (("options" in props.vals ==> e.options == MkLst(props.vals["options"])) &&
          ("options" !in props.vals ==> e.options == MkLst(options)))
      && exists t :: Assigned(props, "type", One(Str(entryType))) == One(Str(t)) &&
                     e.typ == TypeOf(t) && (e.listed <==> HasInfix(Lower(t), "list"))
  {
    if line.Some? {
      EntryNames(line.value, name, ConfigNames);
    }
  }

  /** The stored type is always lowercase, and it is the lowercased type itself unless that
      held `list`. */
  lemma ConfigTypeLower(t: string)
    ensures IsLowerText(TypeOf(t))
    ensures !HasInfix(Lower(t), "list") ==> TypeOf(t) == Lower(t)
  {
    LowerIsLower(t);
    var lower := Lower(t);
    if HasInfix(lower, "list") {
      RemoveWordChars(lower, "list");
      StripSubset(RemoveWord(lower, "list"));
    }
  }

  lemma {:induction false} LowerIsLower(s: string)
    ensures IsLowerText(Lower(s))
  {
    if s != [] {
      LowerIsLower(s[1..]);
      assert Lower(s) == [LowerChar(s[0])] + Lower(s[1..]);
    }
  }

  /** `RemoveWord` keeps only characters of its input. */
  lemma {:induction false} RemoveWordChars(s: string, w: string)
    requires w != []
    ensures forall c :: c in RemoveWord(s, w) ==> c in s
    decreases |s|
  {
    if s == [] {
    } else if StartsWith(s, w) {
      RemoveWordChars(s[|w|..], w);
    } else {
      RemoveWordChars(s[1..], w);
    }
  }
}
