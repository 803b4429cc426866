/** The older parser of input.py: comment cutting by the first '#' (else ';'), sections
    opened by bracket lines without ':' or '=', and items that keep only the last colon
    line of each section. */
module LegacyInput {
  import opened Base
  import opened Strings
  import opened OrdMaps
  import opened Utilities
  import opened Cursors

  // ------------------------------------------------------------ parse_sections

  /** Tabs and newlines removed, then stripped. */
  function Trimmed(raw: string): string {
    Strip(RemoveChars(raw, "\t\n"))
  }

  /** The comment cut: the text before the first '#' if there is one, else the text
      before the first ';'. */
  function CutComment(line: string): string {
    if '#' in line then Split(line, '#')[0]
    else if ';' in line then Split(line, ';')[0]
    else line
  }

  /** A raw line as the legacy parser reads it. */
  function LegacyClean(raw: string): string {
    CutComment(Trimmed(raw))
  }

  /** `line in os.linesep` for the one-character separator "\n": the line is one of its
      substrings. */
  predicate InLineSep(line: string) {
    line == [] || line == "\n"
  }

  /** What the cleaned line `c` at index `i` does: a line with '[' and ']' and neither ':'
      nor '=' opens its lowercased, bracket-free name (not stripped); a line with '[' and no
      ']' fails; other bracket lines are dropped; every other non-empty line is content. */
  function LegacyClassify(c: string, i: nat): (m: Mark<seq<string>>)
    ensures m.Add? ==> m.text == c
  {
    if InLineSep(c) then Skip
    else if '[' in c then
      if ']' in c then
        if ':' !in c && '=' !in c then Open(Lower(RemoveChars(c, "[]")), []) else Skip
      else Fail(OpenBracket(i))
    else Add(c)
  }

  function LegacyKinds(lines: seq<string>): (r: seq<Mark<seq<string>>>)
    ensures |r| == |lines|
  {
    seq(|lines|, i requires 0 <= i < |lines| => LegacyClassify(LegacyClean(lines[i]), i))
  }

  /** `result[section].append(line)`. */
  function Append(v: seq<string>, c: string): seq<string> { v + [c] }

  /** Content before any section looks up the section `None`. */
  function NoSection(i: nat): Error { KeyError(None) }

  function LegacySectionsOfKinds(ms: seq<Mark<seq<string>>>): Result<OrdMap<seq<string>>> {
    var st :- UpTo(Fresh(), ms, |ms|, Append, NoSection);
    Ok(st.result)
  }

  /** The legacy `parse_sections(lines)`. */
  function LegacySections(lines: seq<string>): Result<OrdMap<seq<string>>> {
    LegacySectionsOfKinds(LegacyKinds(lines))
  }

  /** Tabs and newlines removed, the line stripped, and the comment cut. */
  method LegacyCleanLine(raw: string) returns (line: string)
    ensures line == LegacyClean(raw)
  {
    line := RemoveChars(raw, "\t\n");
    line := Strip(line);
    if '#' in line {
      line := Split(line, '#')[0];
    } else if ';' in line {
      line := Split(line, ';')[0];
    }
  }

  /** The body of the legacy `parse_sections` loop for the cleaned line at index `i`. */
  method LegacySectionLine(result: OrdMap<seq<string>>, section: Option<string>, i: nat, line: string)
    returns (r: Result<Cursor<seq<string>>>)
    requires Inv(Cursor(result, section))
    ensures r == Step(Cursor(result, section), i, LegacyClassify(line, i), Append, NoSection)
  {
    var result, section := result, section;
    if !InLineSep(line) {
      if '[' in line {
        if ']' in line {
          if ':' !in line && '=' !in line {
            section := Some(Lower(RemoveChars(line, "[]")));
            result := result.Put(section.value, []);
          }
        } else {
          return Err(OpenBracket(i));
        }
      } else {
        if section.None? {
          return Err(KeyError(None));
        }
        result := result.Put(section.value, result.vals[section.value] + [line]);
      }
    }
    return Ok(Cursor(result, section));
  }

  /** The legacy `parse_sections(lines)`, a `while` loop over the line index. */
  method LegacyParseSections(lines: seq<string>) returns (r: Result<OrdMap<seq<string>>>)
    ensures r == LegacySections(lines)
  {
    ghost var ms := LegacyKinds(lines);
    assert LegacySections(lines) == LegacySectionsOfKinds(ms);
    var result: OrdMap<seq<string>> := Empty();
    var section: Option<string> := None;
    var i := 0;
    while i < |lines|
      invariant 0 <= i <= |lines|
      invariant UpTo(Fresh(), ms, i, Append, NoSection) == Ok(Cursor(result, section))
    {
      var next := LegacySectionsStep(lines, ms, i, result, section);
      if next.Err? {
        ErrPersists(Fresh(), ms, i + 1, |ms|, Append, NoSection);
        return Err(next.error);
      }
      result, section := next.value.result, next.value.current;
      i := i + 1;
    }
    assert LegacySectionsOfKinds(ms) == Ok(result);
    return Ok(result);
  }

  /** One pass of the legacy `parse_sections` loop: line `i` cleaned and applied. */
  method LegacySectionsStep(lines: seq<string>, ghost ms: seq<Mark<seq<string>>>, i: nat,
                            result: OrdMap<seq<string>>, section: Option<string>)
    returns (next: Result<Cursor<seq<string>>>)
    requires ms == LegacyKinds(lines) && i < |lines|
    requires UpTo(Fresh(), ms, i, Append, NoSection) == Ok(Cursor(result, section))
    ensures next == UpTo(Fresh(), ms, i + 1, Append, NoSection)
  {
    var line := LegacyCleanLine(lines[i]);
    assert ms[i] == LegacyClassify(line, i);
    next := LegacySectionLine(result, section, i, line);
  }

  /** The comment cut keeps a prefix of the line with no '#' in it; a ';' survives only
      when the line has a '#' (which takes precedence), and a line with neither is kept. */
  lemma CutCommentShape(line: string)
    ensures var r := CutComment(line);
      && r == line[..|r|]
      && '#' !in r
      && ('#' !in line ==> ';' !in r)
      && ('#' !in line && ';' !in line ==> r == line)
  {
    if '#' in line {
      CutAt(line, '#');
    } else if ';' in line {
      CutAt(line, ';');
    }
  }

  lemma CutAt(line: string, c: char)
    requires c in line
    ensures var r := Split(line, c)[0];
      r == line[..|r|] && c !in r && forall x :: x in r ==> x in line
  {
    var k := IndexOf(line, c);
    assert Split(line, c)[0] == line[..k];
  }

  /** A cleaned line fails exactly when it holds '[' and no ']'; it opens a section exactly
      when it holds '[' and ']' and neither ':' nor '='; a non-empty line without '[' is
      content; everything else is dropped. */
  lemma LegacyLineKinds(c: string, i: nat)
    ensures LegacyClassify(c, i).Fail? <==> !InLineSep(c) && '[' in c && ']' !in c
    ensures LegacyClassify(c, i).Fail? ==> LegacyClassify(c, i).error == OpenBracket(i)
    ensures LegacyClassify(c, i).Open? <==> !InLineSep(c) && '[' in c && ']' in c && ':' !in c && '=' !in c
    ensures LegacyClassify(c, i).Open? ==>
      LegacyClassify(c, i).name == Lower(RemoveChars(c, "[]")) && LegacyClassify(c, i).init == []
    ensures LegacyClassify(c, i).Add? <==> !InLineSep(c) && '[' !in c
  {
  }

  /** The legacy sections fail exactly when a line fails, and then with the first failure:
      the open bracket at its line index, or the lookup of the section `None`. */
  lemma LegacySectionsError(ms: seq<Mark<seq<string>>>)
    requires forall i :: 0 <= i < |ms| && ms[i].Fail? ==> ms[i].error == OpenBracket(i)
    ensures LegacySectionsOfKinds(ms).Err? <==> exists i :: 0 <= i < |ms| && Fails(ms, i)
    ensures LegacySectionsOfKinds(ms).Err? ==>
      exists i :: (0 <= i < |ms| && Fails(ms, i) && (forall j :: 0 <= j < i ==> !Fails(ms, j)) &&
                   LegacySectionsOfKinds(ms).error == if ms[i].Fail? then OpenBracket(i) else KeyError(None))
  {
    ErrorAt(ms, |ms|, Append, NoSection);
  }

  /** A failing legacy line fails with the open bracket at its own index. */
  lemma LegacyKindsFailures(lines: seq<string>)
    ensures var ms := LegacyKinds(lines);
      forall i :: 0 <= i < |ms| && ms[i].Fail? ==> ms[i].error == OpenBracket(i)
  {
    var ms := LegacyKinds(lines);
    forall i | 0 <= i < |ms| && ms[i].Fail?
      ensures ms[i].error == OpenBracket(i)
    {
      LegacyLineKinds(LegacyClean(lines[i]), i);
    }
  }

  /** The legacy sections are exactly the names of the opening lines, and each holds the
      content lines between its last opening line and the next one. */
  lemma LegacySectionContents(ms: seq<Mark<seq<string>>>, h: nat, e: nat)
    requires h < e <= |ms| && ms[h].Open? && ms[h].init == []
    requires forall j :: h < j < e ==> !ms[j].Open?
    requires e == |ms| || ms[e].Open?
    requires forall j :: h < j < |ms| && ms[j].Open? ==> ms[j].name != ms[h].name
    requires LegacySectionsOfKinds(ms).Ok?
    ensures ms[h].name in LegacySectionsOfKinds(ms).value.vals
    ensures LegacySectionsOfKinds(ms).value.vals[ms[h].name] == Accum(ms, h + 1, e, [], Append)
  {
    LastOpening(Fresh(), ms, h, e, Append, NoSection);
  }

  lemma LegacySectionKeys(ms: seq<Mark<seq<string>>>)
    requires LegacySectionsOfKinds(ms).Ok?
    ensures LegacySectionsOfKinds(ms).value.Valid()
    ensures forall k :: k in LegacySectionsOfKinds(ms).value.vals <==>
      exists j :: 0 <= j < |ms| && ms[j].Open? && ms[j].name == k
  {
    Keys(Fresh(), ms, |ms|, Append, NoSection);
    UpToValid(Fresh(), ms, |ms|, Append, NoSection);
  }

  // ------------------------------------------------------------ parse_items

  /** `list(s)`: the characters of `s`, each as a one-character string. */
  function Chars(s: string): (r: seq<string>)
    ensures |r| == |s|
  {
    seq(|s|, j requires 0 <= j < |s| => [s[j]])
  }

  /** The one-item dictionary `{item: value}`. */
  function Single(item: string, value: seq<string>): OrdMap<seq<string>> {
    Empty().Put(item, value)
  }

  /** What the colon line `v[i]` makes of its section: its lowercased text before the first
      colon names the item; a non-blank text after the last colon becomes the list of its
      characters, otherwise the following lines are joined and split at commas. */
  function ColonEntry(v: seq<string>, i: nat): OrdMap<seq<string>>
    requires i < |v| && ':' in v[i]
  {
    var parts := Split(v[i], ':');
    var item := Lower(parts[0]);
    var last := parts[|parts| - 1];
    if Strip(last) != [] then Single(item, Chars(last))
    else Single(item, Split(Join("", v[i + 1..]), ','))
  }

  /** The entry each line of a section would write, if it has a colon. */
  function Entries(v: seq<string>): (r: seq<Option<OrdMap<seq<string>>>>)
    ensures |r| == |v|
    ensures forall i :: 0 <= i < |v| ==> (r[i].Some? <==> ':' in v[i])
    ensures forall i :: 0 <= i < |v| && r[i].Some? ==> r[i].value == ColonEntry(v, i)
  {
    seq(|v|, i requires 0 <= i < |v| => if ':' in v[i] then Some(ColonEntry(v, i)) else None)
  }

  /** The last present value among the first `n`. */
  function LastSome<T>(es: seq<Option<T>>, n: nat): Option<T>
    requires n <= |es|
  {
    if n == 0 then None
    else if es[n - 1].Some? then es[n - 1]
    else LastSome(es, n - 1)
  }

  /** `result` with the section `k` written by each of its colon lines in turn. */
  function WithSection(result: OrdMap<OrdMap<seq<string>>>, k: string, e: Option<OrdMap<seq<string>>>): OrdMap<OrdMap<seq<string>>> {
    if e.Some? then result.Put(k, e.value) else result
  }

  /** The legacy `parse_items` over the first `n` sections. */
  function LegacyItemsUpTo(sections: OrdMap<seq<string>>, n: nat): OrdMap<OrdMap<seq<string>>>
    requires sections.Valid() && n <= |sections.keys|
  {
    if n == 0 then Empty()
    else
      var k := sections.keys[n - 1];
      var es := Entries(sections.vals[k]);
      WithSection(LegacyItemsUpTo(sections, n - 1), k, LastSome(es, |es|))
  }

  /** The legacy `parse_items(sections)`. */
  function LegacyItems(sections: OrdMap<seq<string>>): OrdMap<OrdMap<seq<string>>>
    requires sections.Valid()
  {
    LegacyItemsUpTo(sections, |sections.keys|)
  }

  /** The dictionary the colon line `v[i]` writes. */
  method ColonLine(v: seq<string>, i: nat) returns (entry: OrdMap<seq<string>>)
    requires i < |v| && ':' in v[i]
    ensures entry == ColonEntry(v, i)
  {
    var parseable := Split(v[i], ':');
    var item := Lower(parseable[0]);
    if Strip(parseable[|parseable| - 1]) != [] {
      entry := Single(item, Chars(parseable[|parseable| - 1]));
    } else {
      var properties := Split(Join("", v[i + 1..]), ',');
      entry := Single(item, properties);
    }
  }

  /** The legacy `parse_items(sections)`: every colon line replaces its section's whole
      dictionary. */
  method LegacyParseItems(sections: OrdMap<seq<string>>) returns (result: OrdMap<OrdMap<seq<string>>>)
    requires sections.Valid()
    ensures result == LegacyItems(sections)
  {
    result := Empty();
    var n := 0;
    while n < |sections.keys|
      invariant 0 <= n <= |sections.keys|
      invariant result == LegacyItemsUpTo(sections, n)
    {
      var k := sections.keys[n];
      var v := sections.vals[k];
      ghost var acc := result;
      ghost var es := Entries(v);
      var i := 0;
      while i < |v|
        invariant 0 <= i <= |v|
        invariant result == WithSection(acc, k, LastSome(es, i))
      {
        if ':' in v[i] {
          var entry := ColonLine(v, i);
          assert es[i] == Some(entry);
          if LastSome(es, i).Some? {
            acc.PutPut(k, LastSome(es, i).value, entry);
          }
          result := result.Put(k, entry);
        } else {
          assert es[i] == None;
        }
        i := i + 1;
      }
      n := n + 1;
    }
  }

  /** The last present value is the one at the last index holding one. */
  lemma {:induction false} LastSomeAt<T>(es: seq<Option<T>>, n: nat)
    requires n <= |es|
    ensures LastSome(es, n).None? <==> forall j :: 0 <= j < n ==> es[j].None?
    ensures LastSome(es, n).Some? ==> exists j :: 0 <= j < n && es[j] == LastSome(es, n) &&
                                        forall j' :: j < j' < n ==> es[j'].None?
  {
    if n > 0 && es[n - 1].None? {
      LastSomeAt(es, n - 1);
    }
  }

  /** Some line of the section holds a colon. */
  predicate HasColon(v: seq<string>) {
    exists i :: 0 <= i < |v| && ':' in v[i]
  }

  /** `e` is the entry of the section's last colon line. */
  ghost predicate LastColonEntry(v: seq<string>, e: OrdMap<seq<string>>) {
    exists i :: 0 <= i < |v| && ':' in v[i] && (forall j :: i < j < |v| ==> ':' !in v[j])
                && e == ColonEntry(v, i)
  }

  /** A section appears in the legacy items exactly when one of its lines holds a colon,
      and then holds what its last colon line writes; other sections are left out. */
  lemma {:induction false} LegacyItemsShape(sections: OrdMap<seq<string>>, n: nat)
    requires sections.Valid() && n <= |sections.keys|
    ensures forall k :: k in LegacyItemsUpTo(sections, n).vals <==>
      k in sections.keys[..n] && HasColon(sections.vals[k])
    ensures forall k :: k in LegacyItemsUpTo(sections, n).vals ==>
      LastColonEntry(sections.vals[k], LegacyItemsUpTo(sections, n).vals[k])
  {
    hide Entries, ColonEntry, LastSome;
    if n > 0 {
      LegacyItemsShape(sections, n - 1);
      var k := sections.keys[n - 1];
      SectionEntry(sections.vals[k]);
      assert sections.keys[..n] == sections.keys[..n - 1] + [k];
      assert k !in sections.keys[..n - 1];
    }
  }

  /** What one section's colon lines leave behind: nothing when none has a colon,
      otherwise the entry of the last colon line. */
  lemma SectionEntry(v: seq<string>)
    ensures var e := LastSome(Entries(v), |v|);
      && (e.None? <==> !HasColon(v))
      && (e.Some? ==> LastColonEntry(v, e.value))
  {
    hide Entries, ColonEntry;
    var es := Entries(v);
    LastSomeAt(es, |es|);
    if LastSome(es, |es|).Some? {
      var i :| 0 <= i < |es| && es[i] == LastSome(es, |es|) && forall j' :: i < j' < |es| ==> es[j'].None?;
      assert ':' in v[i] && es[i].value == ColonEntry(v, i);
    }
  }

  /** `"".join(list(s)) == s`: the character list is a split of the text. */
  lemma {:induction false} JoinChars(s: string)
    ensures Join("", Chars(s)) == s
  {
    if |s| > 1 {
      JoinChars(s[1..]);
      assert Chars(s)[1..] == Chars(s[1..]);
    } else if |s| == 1 {
      assert Chars(s)[0] == [s[0]] == s;
      assert Chars(s) == [s];
    }
  }

  /** The entry of a colon line names the lowercased text before its first colon; a
      character list rejoins into the text after the last colon, and a comma list rejoins
      into the following lines. */
  lemma ColonEntryShape(v: seq<string>, i: nat)
    requires i < |v| && ':' in v[i]
    ensures var parts := Split(v[i], ':'); var e := ColonEntry(v, i);
      && e.keys == [Lower(v[i][..IndexOf(v[i], ':')])]
      && |e.vals| == 1
      && (Strip(parts[|parts| - 1]) != [] ==> Join("", e.vals[e.keys[0]]) == parts[|parts| - 1])
      && (Strip(parts[|parts| - 1]) == [] ==> Join(",", e.vals[e.keys[0]]) == Join("", v[i + 1..]))
  {
    var parts := Split(v[i], ':');
    var last := parts[|parts| - 1];
    if Strip(last) != [] {
      JoinChars(last);
    } else {
      JoinSplit(Join("", v[i + 1..]), ',');
    }
  }
}
