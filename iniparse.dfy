/** The INI-like text parser of iniparse.py: property strings, sections, items, values. */
module IniParse {
  import opened Base
  import opened Strings
  import opened OrdMaps
  import opened Values
  import opened Utilities
  import opened Cursors

  // ------------------------------------------------------------ parse_entry

  /** One `name = value` property of a master-config entry. */
  datatype Property = Property(name: string, value: Value)

  /** The property name: the text before the first '=', lowercased and stripped. */
  function PropName(s: string): string
    requires '=' in s
  {
    Strip(Lower(Split(s, '=')[0]))
  }

  /** The property text: what lies between the first and second '=', stripped, with
      newlines turned into spaces and tabs removed. */
  function PropText(s: string): string
    requires '=' in s
  {
    RemoveChars(RemoveChars(Strip(Split(s, '=')[1]), "\n", Some(" ")), "\t")
  }

  /** One property string; a bracketed text becomes the list of its space-separated words. */
  function PropertyOf(s: string, item: Option<string>, validNames: Option<seq<string>>): Result<Property> {
    if '=' !in s then Err(MissingEquals(item))
    else if validNames.Some? && PropName(s) !in validNames.value then Err(InvalidProperty(PropName(s)))
    else if '[' in PropText(s) then
      if ']' !in PropText(s) then Err(MissingBracket(PropName(s)))
      else Ok(Property(PropName(s), Many(Texts(Split(RemoveChars(PropText(s), "[]"), ' ')))))
    else Ok(Property(PropName(s), One(Str(PropText(s)))))
  }

  /** Each property string parsed on its own. */
  function Parsed(info: seq<string>, item: Option<string>, validNames: Option<seq<string>>): (r: seq<Result<Property>>)
    ensures |r| == |info| && forall j :: 0 <= j < |info| ==> r[j] == PropertyOf(info[j], item, validNames)
  {
    if info == [] then [] else [PropertyOf(info[0], item, validNames)] + Parsed(info[1..], item, validNames)
  }

  /** The properties collected from `props` onwards: the first failure aborts, later
      properties overwrite earlier ones. */
  function Collect(props: OrdMap<Value>, ps: seq<Result<Property>>): Result<OrdMap<Value>>
    decreases |ps|
  {
    if ps == [] then Ok(props)
    else
      var p :- ps[0];
      Collect(props.Put(p.name, p.value), ps[1..])
  }

  /** The properties `parse_entry(info, item, valid_names)` returns; a bare string is passed as `[s]`. */
  function Entry(info: seq<string>, item: Option<string>, validNames: Option<seq<string>>): (r: Result<OrdMap<Value>>)
    ensures r.Ok? ==> r.value.Valid()
  {
    var ps := Parsed(info, item, validNames);
    if Collect(Empty(), ps).Ok? then
      CollectKeysOrdered(Empty(), ps);
      Collect(Empty(), ps)
    else Collect(Empty(), ps)
  }

  method ParseEntry(info: seq<string>, item: Option<string>, validNames: Option<seq<string>>)
    returns (r: Result<OrdMap<Value>>)
    ensures r == Entry(info, item, validNames)
  {
    ghost var ps := Parsed(info, item, validNames);
    var properties: OrdMap<Value> := Empty();
    var i := 0;
    while i < |info|
      invariant 0 <= i <= |info|
      invariant Entry(info, item, validNames) == Collect(properties, ps[i..])
    {
      assert ps[i..][1..] == ps[i + 1..];
      var p := PropertyOf(info[i], item, validNames);
      if p.Err? {
        return Err(p.error);
      }
      properties := properties.Put(p.value.name, p.value.value);
      i := i + 1;
    }
    assert ps[i..] == [];
    return Ok(properties);
  }

  /** A property fails exactly when it has no '=', names something outside `valid_names`,
      or opens a bracket it does not close. */
  lemma PropertyErrors(s: string, item: Option<string>, validNames: Option<seq<string>>)
    ensures PropertyOf(s, item, validNames).Err? <==>
      '=' !in s
      || (validNames.Some? && PropName(s) !in validNames.value)
      || ('[' in PropText(s) && ']' !in PropText(s))
    ensures '=' !in s ==> PropertyOf(s, item, validNames) == Err(MissingEquals(item))
  {
  }
  /** An accepted property is named by its lowercased, stripped name, allowed by
      `valid_names`; it is a list exactly when its text has a bracket, and the list's words,
      free of brackets and spaces, rejoin with single spaces into the bracket-free text. */
  lemma PropertyAccepted(s: string, item: Option<string>, validNames: Option<seq<string>>)
    requires PropertyOf(s, item, validNames).Ok?
    ensures var p := PropertyOf(s, item, validNames).value;
      && '=' in s && p.name == PropName(s)
      && (validNames.Some? ==> p.name in validNames.value)
      && (p.value.Many? <==> '[' in PropText(s))
      && (p.value.One? ==> p.value.x == Str(PropText(s)))
      && (p.value.Many? ==> exists words: seq<string> ::
            && p.value.xs == Texts(words)
            && Join(" ", words) == RemoveChars(PropText(s), "[]")
            && forall w :: w in words ==> ' ' !in w && '[' !in w && ']' !in w)
  {
    var p := PropertyOf(s, item, validNames).value;
    if p.value.Many? {
      var text := RemoveChars(PropText(s), "[]");
      var words := Split(text, ' ');
      JoinSplit(text, ' ');
      SplitPiecesFree(text, ' ');
      RemoveCharsMembers(PropText(s), "[]");
      forall w | w in words
        ensures ' ' !in w && '[' !in w && ']' !in w
      {
        SplitSubset(text, ' ', w);
      }
    }
  }

  /** `parse_entry` fails exactly when one of its property strings does, and then with the
      error of the first one that fails. */
  lemma {:induction false} CollectErrors(props: OrdMap<Value>, ps: seq<Result<Property>>)
    ensures Collect(props, ps).Err? <==> exists j :: 0 <= j < |ps| && ps[j].Err?
    ensures Collect(props, ps).Err? ==>
      exists j :: 0 <= j < |ps| && ps[j].Err? && Collect(props, ps).error == ps[j].error
        && forall i :: 0 <= i < j ==> ps[i].Ok?
    decreases |ps|
  {
    if ps != [] && ps[0].Ok? {
      var rest := ps[1..];
      CollectErrors(props.Put(ps[0].value.name, ps[0].value.value), rest);
      if Collect(props, ps).Err? {
        var j :| 0 <= j < |rest| && rest[j].Err? && Collect(props, ps).error == rest[j].error
          && forall i :: 0 <= i < j ==> rest[i].Ok?;
        assert ps[j + 1] == rest[j];
      }
    }
  }

  /** No later property has the same name as the one at `j`. */
  ghost predicate LastOfName(ps: seq<Result<Property>>, j: nat)
    requires j < |ps| && forall i :: 0 <= i < |ps| ==> ps[i].Ok?
  {
    forall i :: j < i < |ps| ==> ps[i].value.name != ps[j].value.name
  }

  /** The properties of an accepted entry all parsed. */
  lemma CollectAllOk(props: OrdMap<Value>, ps: seq<Result<Property>>)
    requires Collect(props, ps).Ok?
    ensures forall j :: 0 <= j < |ps| ==> ps[j].Ok?
  {
    CollectErrors(props, ps);
  }

  /** Collecting keeps distinct keys, and keys already present keep their place. */
  lemma {:induction false} CollectKeysOrdered(props: OrdMap<Value>, ps: seq<Result<Property>>)
    requires props.Valid()
    requires Collect(props, ps).Ok?
    ensures var m := Collect(props, ps).value;
      m.Valid() && |props.keys| <= |m.keys| && m.keys[..|props.keys|] == props.keys
    decreases |ps|
  {
    if ps != [] {
      var next := props.Put(ps[0].value.name, ps[0].value.value);
      CollectKeysOrdered(next, ps[1..]);
      var m := Collect(props, ps).value;
      assert m.keys[..|next.keys|] == next.keys;
      assert next.keys[..|props.keys|] == props.keys;
    }
  }

  /** An accepted entry has a key for each property name and no other new key. */
  lemma {:induction false} CollectKeys(props: OrdMap<Value>, ps: seq<Result<Property>>)
    requires Collect(props, ps).Ok?
    ensures forall j :: 0 <= j < |ps| ==> ps[j].Ok?
    ensures forall k :: k in Collect(props, ps).value.vals <==>
      k in props.vals || exists j :: 0 <= j < |ps| && ps[j].value.name == k
    decreases |ps|
  {
    CollectAllOk(props, ps);
    if ps != [] {
      var p := ps[0].value;
      var rest := ps[1..];
      CollectKeys(props.Put(p.name, p.value), rest);
      var m := Collect(props, ps).value;
      forall k | k in m.vals
        ensures k in props.vals || exists j :: 0 <= j < |ps| && ps[j].value.name == k
      {
        if k !in props.vals && k != p.name {
          var j :| 0 <= j < |rest| && rest[j].value.name == k;
          assert ps[j + 1] == rest[j];
        }
      }
      forall k | k in props.vals || exists j :: 0 <= j < |ps| && ps[j].value.name == k
        ensures k in m.vals
      {
        if k !in props.vals && k != p.name {
          var j :| 0 <= j < |ps| && ps[j].value.name == k;
          assert rest[j - 1] == ps[j];
        }
      }
    }
  }

  /** Each name holds the value of the last property with that name. */
  lemma {:induction false} CollectLastWins(props: OrdMap<Value>, ps: seq<Result<Property>>)
    requires Collect(props, ps).Ok?
    ensures forall j :: 0 <= j < |ps| ==> ps[j].Ok?
    ensures forall j :: 0 <= j < |ps| && LastOfName(ps, j) ==>
      ps[j].value.name in Collect(props, ps).value.vals &&
      Collect(props, ps).value.vals[ps[j].value.name] == ps[j].value.value
    decreases |ps|
  {
    CollectAllOk(props, ps);
    if ps != [] {
      var p := ps[0].value;
      var next := props.Put(p.name, p.value);
      var rest := ps[1..];
      CollectLastWins(next, rest);
      CollectUntouched(next, rest);
      var m := Collect(props, ps).value;
      forall j | 0 <= j < |ps| && LastOfName(ps, j)
        ensures ps[j].value.name in m.vals && m.vals[ps[j].value.name] == ps[j].value.value
      {
        if j > 0 {
          assert LastOfName(rest, j - 1) by {
            forall i | j - 1 < i < |rest|
              ensures rest[i].value.name != rest[j - 1].value.name
            {
              assert rest[i] == ps[i + 1];
            }
          }
        } else {
          forall i | 0 <= i < |rest|
            ensures rest[i].value.name != p.name
          {
            assert rest[i] == ps[i + 1];
          }
        }
      }
    }
  }

  /** A key no property names keeps its value. */
  lemma {:induction false} CollectUntouched(props: OrdMap<Value>, ps: seq<Result<Property>>)
    requires Collect(props, ps).Ok?
    ensures forall j :: 0 <= j < |ps| ==> ps[j].Ok?
    ensures forall k :: k in props.vals && (forall j :: 0 <= j < |ps| ==> ps[j].value.name != k) ==>
      k in Collect(props, ps).value.vals && Collect(props, ps).value.vals[k] == props.vals[k]
    decreases |ps|
  {
    CollectAllOk(props, ps);
    if ps != [] {
      var p := ps[0].value;
      var rest := ps[1..];
      CollectUntouched(props.Put(p.name, p.value), rest);
      forall k | k in props.vals && (forall j :: 0 <= j < |ps| ==> ps[j].value.name != k)
        ensures forall j :: 0 <= j < |rest| ==> rest[j].value.name != k
      {
        assert ps[0].value.name != k;
        forall j | 0 <= j < |rest|
          ensures rest[j].value.name != k
        {
          assert rest[j] == ps[j + 1];
        }
      }
    }
  }

  // ------------------------------------------------------------ parse_sections

  /** A raw line with tabs and the comment removed, then stripped. A stripped non-empty
      line is never a piece of the line separator, so "non-empty" is the whole test. */
  function Clean(line: string): string {
    Strip(RemoveComment(RemoveChars(line, "\t")))
  }

  /** A header's section name: brackets removed, lowercased, stripped. */
  function SectionName(c: string): string {
    Strip(Lower(RemoveChars(c, "[]")))
  }

  /** What a cleaned line does in `parse_sections`: a line starting with '[' and holding a
      ']' opens its section empty, another non-empty line not starting with '[' is content,
      and the rest (empty, or '[' without ']') is skipped. */
  function Classify(c: string): (m: Mark<seq<string>>)
    ensures m.Add? ==> m.text == c
    ensures !m.Fail?
  {
    if c != [] && c[0] == '[' && ']' in c then Open(SectionName(c), [])
    else if c != [] && c[0] != '[' then Add(c)
    else Skip
  }

  /** Every raw line cleaned and classified. */
  function Kinds(lines: seq<string>): (r: seq<Mark<seq<string>>>)
    ensures |r| == |lines|
  {
    if lines == [] then [] else [Classify(Clean(lines[0]))] + Kinds(lines[1..])
  }

  lemma {:induction false} KindsAt(lines: seq<string>, i: nat)
    requires i < |lines|
    ensures Kinds(lines)[i] == Classify(Clean(lines[i]))
  {
    if i > 0 {
      KindsAt(lines[1..], i - 1);
    }
  }

  /** `result[section].append(line)`. */
  function AppendLine(v: seq<string>, c: string): seq<string> { v + [c] }

  /** The exception for content at line `i` before any section. */
  function BeforeSection(i: nat): Error { ContentBeforeSection(i) }

  /** The sections of the classified lines `ms`. */
  function SectionsOfKinds(ms: seq<Mark<seq<string>>>): Result<OrdMap<seq<string>>> {
    var st :- UpTo(Fresh(), ms, |ms|, AppendLine, BeforeSection);
    Ok(st.result)
  }

  /** `parse_sections(lines)`: each section name with its content lines. */
  function SectionsOf(lines: seq<string>): Result<OrdMap<seq<string>>> {
    SectionsOfKinds(Kinds(lines))
  }

  /** Tabs, then the comment, removed from a raw line, and the rest stripped. */
  method CleanLine(raw: string) returns (line: string)
    ensures line == Clean(raw)
  {
    line := RemoveChars(raw, "\t");
    line := RemoveComment(line);
    line := Strip(line);
  }

  /** The body of the `parse_sections` loop for the cleaned line `line` at index `i`. */
  method SectionLine(result: OrdMap<seq<string>>, section: Option<string>, i: nat, line: string)
    returns (r: Result<Cursor<seq<string>>>)
    requires Inv(Cursor(result, section))
    ensures r == Step(Cursor(result, section), i, Classify(line), AppendLine, BeforeSection)
  {
    var result, section := result, section;
    if line != [] {
      if line[0] == '[' {
        if ']' in line {
          section := Some(SectionName(line));
          result := result.Put(section.value, []);
        }
      } else {
        if section.None? {
          return Err(ContentBeforeSection(i));
        } else {
          result := result.Put(section.value, result.vals[section.value] + [line]);
        }
      }
    }
    return Ok(Cursor(result, section));
  }

  method ParseSections(lines: seq<string>) returns (r: Result<OrdMap<seq<string>>>)
    ensures r == SectionsOf(lines)
  {
    ghost var ms := Kinds(lines);
    assert SectionsOf(lines) == SectionsOfKinds(ms);
    var result: OrdMap<seq<string>> := Empty();
    var section: Option<string> := None;
    var i := 0;
    while i < |lines|
      invariant 0 <= i <= |lines|
      invariant UpTo(Fresh(), ms, i, AppendLine, BeforeSection) == Ok(Cursor(result, section))
    {
      var next := SectionsStep(lines, ms, i, result, section);
      if next.Err? {
        ErrPersists(Fresh(), ms, i + 1, |ms|, AppendLine, BeforeSection);
        return Err(next.error);
      }
      result, section := next.value.result, next.value.current;
      i := i + 1;
    }
    return Ok(result);
  }

  /** One pass of the `parse_sections` loop: line `i` cleaned and applied. */
  method SectionsStep(lines: seq<string>, ghost ms: seq<Mark<seq<string>>>, i: nat,
                      result: OrdMap<seq<string>>, section: Option<string>)
    returns (next: Result<Cursor<seq<string>>>)
    requires ms == Kinds(lines) && i < |lines|
    requires UpTo(Fresh(), ms, i, AppendLine, BeforeSection) == Ok(Cursor(result, section))
    ensures next == UpTo(Fresh(), ms, i + 1, AppendLine, BeforeSection)
  {
    var line := CleanLine(lines[i]);
    KindsAt(lines, i);
    next := SectionLine(result, section, i, line);
  }

  /** `parse_sections` fails exactly when a content line comes before every header, and
      then it names the first content line. */
  lemma SectionsError(ms: seq<Mark<seq<string>>>)
    requires forall i :: 0 <= i < |ms| ==> !ms[i].Fail?
    ensures SectionsOfKinds(ms).Err? <==> exists i :: 0 <= i < |ms| && ms[i].Add? && !OpenBefore(ms, i)
    ensures SectionsOfKinds(ms).Err? ==>
      exists i :: 0 <= i < |ms| && ms[i].Add? && !OpenBefore(ms, i)
        && (forall j :: 0 <= j < i ==> !ms[j].Add?)
        && SectionsOfKinds(ms).error == ContentBeforeSection(i)
  {
    ErrorAt(ms, |ms|, AppendLine, BeforeSection);
    assert forall i :: 0 <= i < |ms| ==> (Fails(ms, i) <==> ms[i].Add? && !OpenBefore(ms, i));
    if SectionsOfKinds(ms).Err? {
      var i :| 0 <= i < |ms| && Fails(ms, i)
        && (forall j :: 0 <= j < i ==> !Fails(ms, j))
        && SectionsOfKinds(ms).error == FailureOf(ms[i], i, BeforeSection);
      FirstOrphan(ms, i);
    }
  }

  /** The sections are exactly the names of the headers. */
  lemma SectionKeys(ms: seq<Mark<seq<string>>>)
    requires SectionsOfKinds(ms).Ok?
    ensures SectionsOfKinds(ms).value.Valid()
    ensures forall k :: k in SectionsOfKinds(ms).value.vals <==>
      exists j :: 0 <= j < |ms| && ms[j].Open? && ms[j].name == k
  {
    Keys(Fresh(), ms, |ms|, AppendLine, BeforeSection);
    UpToValid(Fresh(), ms, |ms|, AppendLine, BeforeSection);
  }

  /** A section holds the content lines between its last header and the next header, in
      order: redeclaring a section starts it afresh, and lines under other headers never
      reach it. */
  lemma SectionContents(ms: seq<Mark<seq<string>>>, h: nat, e: nat)
    requires h < e <= |ms| && ms[h].Open? && ms[h].init == []
    requires forall j :: h < j < e ==> !ms[j].Open?
    requires e == |ms| || ms[e].Open?
    requires forall j :: h < j < |ms| && ms[j].Open? ==> ms[j].name != ms[h].name
    requires SectionsOfKinds(ms).Ok?
    ensures ms[h].name in SectionsOfKinds(ms).value.vals
    ensures SectionsOfKinds(ms).value.vals[ms[h].name] == Accum(ms, h + 1, e, [], AppendLine)
  {
    LastOpening(Fresh(), ms, h, e, AppendLine, BeforeSection);
  }

  /** Accumulating lines by appending yields exactly the content lines, in order. */
  lemma {:induction false} AppendedLines(ms: seq<Mark<seq<string>>>, i: nat, e: nat)
    requires i <= e <= |ms|
    ensures var r := Accum(ms, i, e, [], AppendLine);
      forall c :: c in r <==> exists j :: i <= j < e && ms[j] == Add(c)
    decreases e - i
  {
    if e > i {
      AppendedLines(ms, i, e - 1);
    }
  }

  /** A line starting with '[' opens a section exactly when it holds a ']', the section's
      name is the bracket-free text lowercased and stripped, and a '[' line without ']' is
      dropped. */
  lemma HeaderLines(c: string)
    ensures Classify(c).Open? <==> c != [] && c[0] == '[' && ']' in c
    ensures Classify(c).Open? ==> Classify(c).name == Strip(Lower(RemoveChars(c, "[]"))) && Classify(c).init == []
    ensures Classify(c).Skip? <==> c == [] || (c[0] == '[' && ']' !in c)
  {
  }

  // ------------------------------------------------------------ parse_items

  /** The text after an item's colon: newlines turned into spaces, then left-stripped. A
      text holding a property ('=') is kept behind one space, as if appended to "". */
  function ItemInit(rest: string): string {
    var potential := LStrip(RemoveChars(rest, "\n", Some(" ")));
    if '=' !in potential then potential else " " + potential
  }

  /** What a section line does in `parse_items`: after `lstrip()`, a line with a colon opens
      the item named by the text before its first colon, any other line continues the
      current item. */
  function ItemMark(line: string): (m: Mark<string>)
    ensures !m.Fail?
  {
    var v := LStrip(line);
    if ':' in v then
      var k := IndexOf(v, ':');
      Open(Strip(Lower(v[..k])), ItemInit(v[k + 1..]))
    else Add(v)
  }

  function ItemMarks(lines: seq<string>): (r: seq<Mark<string>>)
    ensures |r| == |lines|
  {
    seq(|lines|, i requires 0 <= i < |lines| => ItemMark(lines[i]))
  }

  /** `result[k][item] += " " + val`. */
  function JoinText(v: string, t: string): string { v + " " + t }

  /** A continuation line before any item looks up the item `None`. */
  function NoItem(i: nat): Error { KeyError(None) }

  /** The clean-up of a section's last item: a text holding a comma gets its comma tokens
      stripped and rejoined with ", ". */
  function Normalize(v: string): string {
    if ',' in v then CommaNormal(v) else v
  }

  /** The item the cursor rests on, normalised and stripped. */
  function Finish(st: Cursor<string>): (r: OrdMap<string>)
    requires Inv(st)
  {
    if st.current.None? then st.result
    else st.result.Put(st.current.value, Strip(Normalize(st.result.vals[st.current.value])))
  }

  /** The items of one section, from its classified lines. */
  function ItemsOfMarks(ms: seq<Mark<string>>): Result<OrdMap<string>> {
    var st :- UpTo(Fresh(), ms, |ms|, JoinText, NoItem);
    Ok(Finish(st))
  }

  /** The items of one section's lines. */
  function SectionItems(lines: seq<string>): Result<OrdMap<string>> {
    ItemsOfMarks(ItemMarks(lines))
  }

  /** The results of `f` on the first `n` sections' lines, gathered under the section
      names in order; the first failure aborts. */
  function Gather<V>(sections: OrdMap<seq<string>>, f: seq<string> -> Result<V>, n: nat): Result<OrdMap<V>>
    requires n <= |sections.keys|
  {
    if n == 0 then Ok(Empty())
    else
      var acc :- Gather(sections, f, n - 1);
      var v :- Pick(sections, f, n - 1);
      Ok(acc.Put(sections.keys[n - 1], v))
  }

  /** The result of `f` on the `j`-th section's lines; a name listed without lines, which a
      well-formed dictionary never holds, would be a KeyError. */
  function Pick<V>(sections: OrdMap<seq<string>>, f: seq<string> -> Result<V>, j: nat): Result<V>
    requires j < |sections.keys|
  {
    var k := sections.keys[j];
    if k in sections.vals then f(sections.vals[k]) else Err(KeyError(Some(k)))
  }

  /** `parse_items(sections)`. */
  function ItemsOf(sections: OrdMap<seq<string>>): Result<OrdMap<OrdMap<string>>> {
    Gather(sections, SectionItems, |sections.keys|)
  }

  /** The value an item line starts its item with: "" replaced by the text after the colon,
      or extended by it when it holds a property. */
  method ItemStart(rest: string) returns (value: string)
    ensures value == ItemInit(rest)
  {
    value := "";
    var potential := LStrip(RemoveChars(rest, "\n", Some(" ")));
    if '=' !in potential {
      value := potential;
    } else {
      value := value + (" " + potential);
    }
  }

  /** The body of the inner `parse_items` loop for the line `raw` at index `i`. */
  method ItemLine(items: OrdMap<string>, item: Option<string>, i: nat, raw: string)
    returns (r: Result<Cursor<string>>)
    requires Inv(Cursor(items, item))
    ensures r == Step(Cursor(items, item), i, ItemMark(raw), JoinText, NoItem)
  {
    var val := LStrip(raw);
    if ':' in val {
      var loc := IndexOf(val, ':');
      var name := Strip(Lower(val[..loc]));
      var value := ItemStart(val[loc + 1..]);
      ItemMarkColon(raw);
      items.PutPut(name, "", value);
      return Ok(Cursor(items.Put(name, "").Put(name, value), Some(name)));
    } else {
      ItemMarkPlain(raw);
      if item.None? {
        return Err(KeyError(None));
      }
      return Ok(Cursor(items.Put(item.value, items.vals[item.value] + " " + val), item));
    }
  }

  lemma ItemMarkColon(raw: string)
    requires ':' in LStrip(raw)
    ensures var v := LStrip(raw); var k := IndexOf(v, ':');
      ItemMark(raw) == Open(Strip(Lower(v[..k])), ItemInit(v[k + 1..]))
  {
  }

  lemma ItemMarkPlain(raw: string)
    requires ':' !in LStrip(raw)
    ensures ItemMark(raw) == Add(LStrip(raw))
  {
  }

  /** The final clean-up of a section's last item. */
  method FinishItems(items: OrdMap<string>, item: Option<string>) returns (r: OrdMap<string>)
    requires Inv(Cursor(items, item))
    ensures r == Finish(Cursor(items, item))
  {
    r := items;
    if item.Some? {
      if ',' in r.vals[item.value] {
        r := r.Put(item.value, Join(", ", StripAll(Split(r.vals[item.value], ','))));
      }
      r := r.Put(item.value, Strip(r.vals[item.value]));
    }
  }

  /** The inner loop of `parse_items`: the items of one section's lines. */
  method ParseSectionItems(lines: seq<string>) returns (r: Result<OrdMap<string>>)
    ensures r == SectionItems(lines)
  {
    ghost var ms := ItemMarks(lines);
    assert SectionItems(lines) == ItemsOfMarks(ms);
    var items: OrdMap<string> := Empty();
    var item: Option<string> := None;
    var i := 0;
    while i < |lines|
      invariant 0 <= i <= |lines|
      invariant UpTo(Fresh(), ms, i, JoinText, NoItem) == Ok(Cursor(items, item))
    {
      var next := ItemsStep(lines, ms, i, items, item);
      if next.Err? {
        ErrPersists(Fresh(), ms, i + 1, |ms|, JoinText, NoItem);
        return Err(next.error);
      }
      items, item := next.value.result, next.value.current;
      i := i + 1;
    }
    var done := FinishItems(items, item);
    return Ok(done);
  }

  /** One pass of the inner `parse_items` loop: line `i` applied. */
  method ItemsStep(lines: seq<string>, ghost ms: seq<Mark<string>>, i: nat, items: OrdMap<string>, item: Option<string>)
    returns (next: Result<Cursor<string>>)
    requires ms == ItemMarks(lines) && i < |lines|
    requires UpTo(Fresh(), ms, i, JoinText, NoItem) == Ok(Cursor(items, item))
    ensures next == UpTo(Fresh(), ms, i + 1, JoinText, NoItem)
  {
    assert ms[i] == ItemMark(lines[i]);
    next := ItemLine(items, item, i, lines[i]);
  }

  /** `parse_items(sections)`: the items of every section, in section order. */
  method ParseItems(sections: OrdMap<seq<string>>) returns (r: Result<OrdMap<OrdMap<string>>>)
    ensures r == ItemsOf(sections)
  {
    r := GatherItems(sections, SectionItems);
  }

  /** The loop of `parse_items`, proved against `Gather` with a per-section parser `parse`
      that agrees with `SectionItems` wherever the latter is mentioned. */
  method GatherItems(sections: OrdMap<seq<string>>, ghost parse: seq<string> -> Result<OrdMap<string>>)
    returns (r: Result<OrdMap<OrdMap<string>>>)
    requires forall lines {:trigger SectionItems(lines)} :: parse(lines) == SectionItems(lines)
    ensures r == Gather(sections, parse, |sections.keys|)
  {
    var result: OrdMap<OrdMap<string>> := Empty();
    var i := 0;
    while i < |sections.keys|
      invariant 0 <= i <= |sections.keys|
      invariant Gather(sections, parse, i) == Ok(result)
    {
      var next := SectionAt(sections, parse, i, result);
      if next.Err? {
        return next;
      }
      result := next.value;
      i := i + 1;
    }
    return Ok(result);
  }

  /** One pass of the outer `parse_items` loop: the items of the `i`-th section stored
      under its name. */
  method SectionAt(sections: OrdMap<seq<string>>, ghost parse: seq<string> -> Result<OrdMap<string>>,
                   i: nat, result: OrdMap<OrdMap<string>>) returns (next: Result<OrdMap<OrdMap<string>>>)
    requires forall lines {:trigger SectionItems(lines)} :: parse(lines) == SectionItems(lines)
    requires i < |sections.keys|
    requires Gather(sections, parse, i) == Ok(result)
    ensures next.Ok? ==> next == Gather(sections, parse, i + 1)
    ensures next.Err? ==> next == Gather(sections, parse, |sections.keys|)
  {
    var k := sections.keys[i];
    if k !in sections.vals {
      GatherErrPersists(sections, parse, i + 1, |sections.keys|);
      return Err(KeyError(Some(k)));
    }
    var items := ParseSectionItems(sections.vals[k]);
    if items.Err? {
      GatherErrPersists(sections, parse, i + 1, |sections.keys|);
      return Err(items.error);
    }
    return Ok(result.Put(k, items.value));
  }

  lemma {:induction false} GatherErrPersists<V>(sections: OrdMap<seq<string>>, f: seq<string> -> Result<V>, n: nat, m: nat)
    requires n <= m <= |sections.keys|
    requires Gather(sections, f, n).Err?
    ensures Gather(sections, f, m) == Gather(sections, f, n)
    decreases m
  {
    if m > n {
      GatherErrPersists(sections, f, n, m - 1);
    }
  }

  /** The item name is the text before the first colon of the left-stripped line,
      lowercased and stripped, and every later colon stays in the value (so times of day
      survive); a line without a colon continues the current item with its left-stripped
      text. */
  lemma ItemLines(raw: string)
    ensures ItemMark(raw).Open? <==> ':' in LStrip(raw)
    ensures ItemMark(raw).Add? ==> ItemMark(raw).text == LStrip(raw)
    ensures ItemMark(raw).Open? ==> var v := LStrip(raw);
      exists k :: 0 <= k < |v| && v[k] == ':' && ':' !in v[..k]
        && ItemMark(raw).name == Strip(Lower(v[..k]))
        && (':' in v[k + 1..] ==> ':' in ItemMark(raw).init)
  {
    var v := LStrip(raw);
    if ':' in v {
      ItemMarkColon(raw);
      var k := IndexOf(v, ':');
      if ':' in v[k + 1..] {
        ColonSurvives(v[k + 1..]);
      }
      assert 0 <= k < |v| && v[k] == ':' && ':' !in v[..k];
    } else {
      ItemMarkPlain(raw);
    }
  }

  lemma ColonSurvives(rest: string)
    requires ':' in rest
    ensures ':' in ItemInit(rest)
  {
    ColonSurvivesStrip(rest);
    var potential := LStrip(RemoveChars(rest, "\n", Some(" ")));
    assert ':' in " " + potential;
  }

  lemma ColonSurvivesStrip(rest: string)
    requires ':' in rest
    ensures ':' in LStrip(RemoveChars(rest, "\n", Some(" ")))
  {
    var replaced := RemoveChars(rest, "\n", Some(" "));
    ReplaceCharsPointwise(rest, "\n", ' ');
    var j :| 0 <= j < |rest| && rest[j] == ':';
    assert replaced[j] == ':';
    LStripKeeps(replaced, ':');
  }

  /** The items of a section fail exactly when a continuation line comes before every item
      line, and then with the lookup of the item `None`. */
  lemma ItemsError(ms: seq<Mark<string>>)
    requires forall i :: 0 <= i < |ms| ==> !ms[i].Fail?
    ensures ItemsOfMarks(ms).Err? <==> exists i :: 0 <= i < |ms| && ms[i].Add? && !OpenBefore(ms, i)
    ensures ItemsOfMarks(ms).Err? ==> ItemsOfMarks(ms).error == KeyError(None)
  {
    ErrorAt(ms, |ms|, JoinText, NoItem);
    assert forall i :: 0 <= i < |ms| ==> (Fails(ms, i) <==> ms[i].Add? && !OpenBefore(ms, i));
  }

  /** A section's items are exactly the names of its item lines. */
  lemma ItemKeys(ms: seq<Mark<string>>)
    requires ItemsOfMarks(ms).Ok?
    ensures ItemsOfMarks(ms).value.Valid()
    ensures forall k :: k in ItemsOfMarks(ms).value.vals <==>
      exists j :: 0 <= j < |ms| && ms[j].Open? && ms[j].name == k
  {
    Keys(Fresh(), ms, |ms|, JoinText, NoItem);
    UpToValid(Fresh(), ms, |ms|, JoinText, NoItem);
  }

  /** An item holds the text of its last item line followed, one space each, by the
      continuation lines up to the next item line; only the section's last item is
      comma-normalised and stripped, all others are kept as joined. */
  lemma ItemValue(ms: seq<Mark<string>>, h: nat, e: nat)
    requires h < e <= |ms| && ms[h].Open?
    requires forall j :: h < j < e ==> !ms[j].Open?
    requires e == |ms| || ms[e].Open?
    requires forall j :: h < j < |ms| && ms[j].Open? ==> ms[j].name != ms[h].name
    requires ItemsOfMarks(ms).Ok?
    ensures ms[h].name in ItemsOfMarks(ms).value.vals
    ensures var joined := Accum(ms, h + 1, e, ms[h].init, JoinText);
      ItemsOfMarks(ms).value.vals[ms[h].name] == if e == |ms| then Strip(Normalize(joined)) else joined
  {
    LastOpening(Fresh(), ms, h, e, JoinText, NoItem);
  }

  /** The clean-up of the last item keeps its stripped comma tokens. */
  lemma LastItemTokens(v: string)
    ensures StripAll(Split(Strip(Normalize(v)), ',')) == StripAll(Split(v, ','))
  {
    if ',' in v {
      CommaNormalTokens(v);
    } else {
      StripAllSplitStrip(v, ',');
    }
  }

  /** Gathering succeeds when `f` succeeds on every section's lines. */
  lemma {:induction false} GatherAllPicked<V>(sections: OrdMap<seq<string>>, f: seq<string> -> Result<V>, n: nat)
    requires n <= |sections.keys|
    requires forall j :: 0 <= j < n ==> Pick(sections, f, j).Ok?
    ensures Gather(sections, f, n).Ok?
  {
    if n > 0 {
      GatherAllPicked(sections, f, n - 1);
    }
  }

  /** A successful gathering lists the first `n` section names, in order, and holds exactly
      those keys. */
  lemma {:induction false} GatherKeys<V>(sections: OrdMap<seq<string>>, f: seq<string> -> Result<V>, n: nat)
    requires n <= |sections.keys|
    requires forall i, j :: 0 <= i < j < |sections.keys| ==> sections.keys[i] != sections.keys[j]
    requires Gather(sections, f, n).Ok?
    ensures Gather(sections, f, n).value.keys == sections.keys[..n]
    ensures forall k :: k in Gather(sections, f, n).value.vals <==> k in sections.keys[..n]
  {
    var ks := sections.keys;
    if n > 0 {
      GatherKeys(sections, f, n - 1);
      assert ks[n - 1] !in ks[..n - 1];
      assert ks[..n] == ks[..n - 1] + [ks[n - 1]];
    }
  }

  /** A successful gathering maps each of the first `n` section names to the result of `f`
      on that section's lines. */
  lemma {:induction false} GatherValues<V>(sections: OrdMap<seq<string>>, f: seq<string> -> Result<V>, n: nat)
    requires n <= |sections.keys|
    requires forall i, j :: 0 <= i < j < |sections.keys| ==> sections.keys[i] != sections.keys[j]
    requires Gather(sections, f, n).Ok?
    ensures forall j :: 0 <= j < n ==>
      && sections.keys[j] in Gather(sections, f, n).value.vals
      && Pick(sections, f, j).Ok?
      && Gather(sections, f, n).value.vals[sections.keys[j]] == Pick(sections, f, j).value
  {
    if n > 0 {
      GatherValues(sections, f, n - 1);
    }
  }

  /** Gathering fails with the error of the first failing section. */
  lemma {:induction false} GatherError<V>(sections: OrdMap<seq<string>>, f: seq<string> -> Result<V>, n: nat)
    requires n <= |sections.keys|
    requires Gather(sections, f, n).Err?
    ensures exists j :: 0 <= j < n && Pick(sections, f, j).Err? &&
                        Gather(sections, f, n).error == Pick(sections, f, j).error &&
                        forall i :: 0 <= i < j ==> Pick(sections, f, i).Ok?
  {
    if Gather(sections, f, n - 1).Err? {
      GatherError(sections, f, n - 1);
    } else {
      GatherAllOk(sections, f, n - 1);
    }
  }

  lemma {:induction false} GatherAllOk<V>(sections: OrdMap<seq<string>>, f: seq<string> -> Result<V>, n: nat)
    requires n <= |sections.keys|
    requires Gather(sections, f, n).Ok?
    ensures forall j :: 0 <= j < n ==> Pick(sections, f, j).Ok?
  {
    if n > 0 {
      GatherAllOk(sections, f, n - 1);
    }
  }

  /** In a well-formed dictionary every section name picks its own lines. */
  lemma PickSection<V>(sections: OrdMap<seq<string>>, f: seq<string> -> Result<V>)
    requires sections.Valid()
    ensures forall j :: 0 <= j < |sections.keys| ==> Pick(sections, f, j) == f(sections.vals[sections.keys[j]])
  {
  }

  /** `parse_items` succeeds exactly when every section's lines parse. */
  lemma ItemsOkIff(sections: OrdMap<seq<string>>)
    requires sections.Valid()
    ensures ItemsOf(sections).Ok? <==> forall k :: k in sections.vals ==> SectionItems(sections.vals[k]).Ok?
  {
    var ks := sections.keys;
    PickSection(sections, SectionItems);
    if ItemsOf(sections).Ok? {
      GatherAllOk(sections, SectionItems, |ks|);
      forall k | k in sections.vals
        ensures SectionItems(sections.vals[k]).Ok?
      {
        var j :| 0 <= j < |ks| && ks[j] == k;
      }
    } else if forall k :: k in sections.vals ==> SectionItems(sections.vals[k]).Ok? {
      GatherAllPicked(sections, SectionItems, |ks|);
    }
  }

  /** A successful `parse_items` keeps the sections and their order and gives each section
      the items of its own lines. */
  lemma ItemsLayout(sections: OrdMap<seq<string>>)
    requires sections.Valid()
    requires ItemsOf(sections).Ok?
    ensures ItemsOf(sections).value.Valid()
    ensures ItemsOf(sections).value.keys == sections.keys
    ensures forall k :: k in sections.vals ==>
      SectionItems(sections.vals[k]).Ok? && ItemsOf(sections).value.vals[k] == SectionItems(sections.vals[k]).value
  {
    var ks := sections.keys;
    PickSection(sections, SectionItems);
    GatherKeys(sections, SectionItems, |ks|);
    GatherValues(sections, SectionItems, |ks|);
    assert ks[..|ks|] == ks;
    forall k | k in sections.vals
      ensures SectionItems(sections.vals[k]).Ok? && ItemsOf(sections).value.vals[k] == SectionItems(sections.vals[k]).value
    {
      var j :| 0 <= j < |ks| && ks[j] == k;
    }
  }

  /** A failing `parse_items` fails with the failure of the first section, in order, whose
      lines fail. */
  lemma ItemsFailure(sections: OrdMap<seq<string>>)
    requires sections.Valid()
    requires ItemsOf(sections).Err?
    ensures exists j :: 0 <= j < |sections.keys| && SectionItems(sections.vals[sections.keys[j]]).Err? &&
                        ItemsOf(sections).error == SectionItems(sections.vals[sections.keys[j]]).error &&
                        forall i :: 0 <= i < j ==> SectionItems(sections.vals[sections.keys[i]]).Ok?
  {
    PickSection(sections, SectionItems);
    GatherError(sections, SectionItems, |sections.keys|);
  }

  // ------------------------------------------------------------ parse_values

  /** One item's value list: the stripped comma tokens of a text holding a comma, else the
      stripped text alone. */
  function ValueList(val: string): seq<string> {
    var value := Strip(val);
    if ',' in val then StripAll(Split(value, ',')) else [value]
  }

  /** The value lists of one section's items. */
  function SectionValues(items: OrdMap<string>): OrdMap<seq<string>> {
    items.MapValues(ValueList)
  }

  /** `parse_values(parsed_items)`. */
  function ValuesOf(parsed: OrdMap<OrdMap<string>>): OrdMap<OrdMap<seq<string>>> {
    parsed.MapValues(SectionValues)
  }

  /** One item's value list. */
  method ValueOf(val: string) returns (values: seq<string>)
    ensures values == ValueList(val)
  {
    var value := Strip(val);
    if ',' in val {
      values := StripAll(Split(value, ','));
    } else {
      values := [value];
    }
  }

  /** The value lists of one section, item by item. */
  method ParseSectionValues(items: OrdMap<string>) returns (r: OrdMap<seq<string>>)
    requires items.Valid()
    ensures r == SectionValues(items)
  {
    r := Empty();
    var i := 0;
    while i < |items.keys|
      invariant 0 <= i <= |items.keys|
      invariant r.keys == items.keys[..i]
      invariant forall k :: k in r.vals <==> k in items.keys[..i]
      invariant forall k :: k in r.vals ==> r.vals[k] == ValueList(items.vals[k])
    {
      var item := items.keys[i];
      var values := ValueOf(items.vals[item]);
      r := r.Put(item, values);
      assert items.keys[..i + 1] == items.keys[..i] + [item];
      i := i + 1;
    }
    assert items.keys[..i] == items.keys;
    assert r.vals == SectionValues(items).vals;
  }

  /** `parse_values(parsed_items)`: every section's items turned into value lists. */
  method ParseValues(parsed: OrdMap<OrdMap<string>>) returns (r: OrdMap<OrdMap<seq<string>>>)
    requires parsed.Valid() && forall s :: s in parsed.vals ==> parsed.vals[s].Valid()
    ensures r == ValuesOf(parsed)
  {
    r := Empty();
    var i := 0;
    while i < |parsed.keys|
      invariant 0 <= i <= |parsed.keys|
      invariant r.keys == parsed.keys[..i]
      invariant forall s :: s in r.vals <==> s in parsed.keys[..i]
      invariant forall s :: s in r.vals ==> r.vals[s] == SectionValues(parsed.vals[s])
    {
      var section := parsed.keys[i];
      var values := ParseSectionValues(parsed.vals[section]);
      r := r.Put(section, values);
      assert parsed.keys[..i + 1] == parsed.keys[..i] + [section];
      i := i + 1;
    }
    assert parsed.keys[..i] == parsed.keys;
    assert r.vals == ValuesOf(parsed).vals;
  }

  /** Tokens holding no comma and no surrounding whitespace. */
  predicate CleanTokens(ts: seq<string>) {
    forall i :: 0 <= i < |ts| ==> ',' !in ts[i] && Strip(ts[i]) == ts[i]
  }

  /** Every value list is non-empty and its tokens are clean; a text holding a comma
      becomes its stripped comma tokens, at least two of them, and any other text the
      one-element list of its stripped self. */
  lemma ValueListShape(val: string)
    ensures |ValueList(val)| >= 1 && CleanTokens(ValueList(val))
    ensures ',' in val ==> ValueList(val) == StripAll(Split(val, ',')) && |ValueList(val)| >= 2
    ensures ',' !in val ==> ValueList(val) == [Strip(val)]
  {
    if ',' in val {
      CommaValues(val);
    } else {
      PlainValue(val);
    }
  }

  lemma PlainValue(val: string)
    requires ',' !in val
    ensures ValueList(val) == [Strip(val)] && CleanTokens(ValueList(val))
  {
    assert ValueList(val) == [Strip(val)];
    StripIdempotent(val);
    StripSubset(val);
    var ts := [Strip(val)];
    assert ',' !in ts[0] && Strip(ts[0]) == ts[0];
    assert CleanTokens(ts);
  }

  lemma CommaValues(val: string)
    requires ',' in val
    ensures ValueList(val) == StripAll(Split(val, ',')) && |ValueList(val)| >= 2
    ensures CleanTokens(ValueList(val))
  {
    StripAllSplitStrip(val, ',');
    TokensClean(val, StripAll(Split(val, ',')));
  }

  /** The clean-up `parse_items` gives a section's last item changes nothing in the value
      list `parse_values` makes of it. */
  lemma NormalizeInvisible(v: string)
    ensures ValueList(Strip(Normalize(v))) == ValueList(v)
  {
    var n := Strip(Normalize(v));
    LastItemTokens(v);
    StripIdempotent(Normalize(v));
    StripAllSplitStrip(n, ',');
    ValueListShape(v);
    if ',' in v {
      assert |Split(n, ',')| >= 2;
    } else {
      assert ValueList(n) == [Strip(n)];
    }
  }
}
