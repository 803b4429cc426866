# inicheck, modelled in Dafny

inicheck checks INI-style configuration files against a *master config*. The master
config is a file that declares every section and item a user file may hold, and gives
each item a type, default, options and description. It can also declare *recipes*:
triggers (conditions on sections, items and values) together with adjustments to
apply when they hold. inicheck reads both files and does the following:

- it fills in defaults;
- it casts each value to its declared type;
- it rewrites relative paths against the user file's directory;
- it reports what is wrong, as errors and warnings;
- it can migrate an old file through a *changelog*, a file of renamed, moved and
  removed sections and items.

This project models the core of that pipeline and proves properties about it:

- **The INI parser** (`IniParse`, on `inicheck/iniparse.py`). It turns raw lines into
  sections, items, then value lists, and parses the `name = value` properties of
  master config entries.
- **The master config entries** (`Entries`, on `inicheck/entries.py`): recipe
  sections, trigger entries and config entries.
- **The master config reader** (`Config`, on `inicheck/config.py`). It covers
  `parse_info`, `convert_type` and the `MasterConfig` section loop.
- **The checkers** (`Checkers`, on `inicheck/checkers.py`). They are one `Checker`
  class whose kind (generic, type, datetime, float, int, bool, string, path,
  directory, filename, critical filename, critical directory) selects the behaviour
  of each source subclass.
- **The checking driver** (`Tools`, on `inicheck/tools.py`). `check_config` collects
  errors and warnings, `cast_all_variables` casts a user config in place, and
  `get_user_config` guards against a missing master config.
- **The changelog engine** (`Changes`, on `inicheck/changes.py`). It joins change
  lists, validates them against the master config, binds them to the user config,
  and applies them.
- **The value helpers** (`Utilities` and `Values`, on `inicheck/utilities.py`):
  `remove_chars`, `remove_comment`, `mk_lst` and `cast_variable`.
- **The older checker** (`Inicheck`, on `inicheck/inicheck.py`). It parses
  `type=`/`options=` settings, adds defaults, rewrites config paths, and contains
  the section and option logic of `check_config_file`.
- **The legacy Python 2 reader** (`LegacyInput`, on `inicheck/input.py`).

Shared modules:

- `Base` holds `Result`, `Option` and the error values.
- `Strings` holds the Python `str` methods the source uses, restricted to ASCII: `lower()` and `upper()` fold only `A`-`Z` and `a`-`z`, and `strip()` removes only the six ASCII whitespace characters.
- `OrdMaps` holds the insertion-ordered dictionary (`OrderedDict`). An `OrdMap` is a
  key sequence plus a map, and `Put` keeps a key's place when the key is already
  present.
- `Paths` holds `os.path.isabs`, `dirname` and `join` on text.
- `Cursors` holds the shared "current section / current item" line-loop
  specification that both `parse_sections` and `parse_items` follow.

Code that works by changing state is modelled in that form:

- The line loops, the cast pass and the changelog steps are `method`s with `while`
  loops.
- Every such method is proved equal to a specification function, and the
  properties are proved about that function.
- The objects whose fields the source updates (`UserConfig`, `ChangeLog`, the
  checker, the config dictionary of `inicheck.py`) are classes.

Python values are modelled as `Value`:

- `One(x)` is a scalar and `Many(xs)` a list.
- A scalar is text, a boolean, an integer, a float (a real number), a timestamp
  (an opaque stamp) or `None`.

Float parsing, date parsing, `str()` of a float and the file-system tests are
foreign to the model. They are passed in as the functions of a `Natives` record.

## Model

| member | source | states |
|---|---|---|
| `IniParse.ParseEntry` | inicheck/iniparse.py:27-81 | The `parse_entry` loop over the property strings (a bare string taken as a one-element list) equals `Entry`: each string parsed on its own, then collected into an ordered dictionary. |
| `IniParse.PropertyErrors` | inicheck/iniparse.py:49-75 | A property fails exactly when it has no `=`, names something outside `valid_names`, or opens a `[` it does not close; a missing `=` reports the item being parsed. |
| `IniParse.PropertyAccepted` | inicheck/iniparse.py:58-80 | An accepted property is named by its lowercased, stripped name, which `valid_names` allows. It is a list exactly when its text has a `[`. A scalar holds the property text: the second `=`-piece, stripped, newlines made spaces and tabs removed. A list's words hold no space or bracket and rejoin with single spaces into the bracket-free text. |
| `IniParse.CollectErrors` | inicheck/iniparse.py:49-75 | `parse_entry` fails exactly when one of its strings fails, and then with the error of the first string that fails. |
| `IniParse.CollectKeys` | inicheck/iniparse.py:44-80 | An accepted entry has exactly one key per property name and no other. |
| `IniParse.CollectKeysOrdered` | inicheck/iniparse.py:44-80 | Collecting keeps keys distinct, and keys already present keep their place. |
| `IniParse.CollectLastWins` | inicheck/iniparse.py:80 | A name given twice holds the value of its last property. |
| `IniParse.CollectUntouched` | inicheck/iniparse.py:80 | A key no property names keeps its value. |
| `IniParse.CleanLine` | inicheck/iniparse.py:104-109 | Tabs are removed, then the comment, then the line is stripped. |
| `IniParse.SectionLine` | inicheck/iniparse.py:111-130 | One pass of the `parse_sections` loop equals one step of the shared line-loop specification on the classified line. |
| `IniParse.ParseSections` | inicheck/iniparse.py:84-132 | The `for` loop over the lines equals `SectionsOf`, the classified lines folded from an empty dictionary with no current section. |
| `IniParse.HeaderLines` | inicheck/iniparse.py:112-119 | A cleaned line starting with `[` opens a section exactly when it holds a `]`. The name is the bracket-free text, lowercased and stripped, and the section starts empty. A `[` line without `]`, and an empty line, are skipped. |
| `IniParse.SectionsError` | inicheck/iniparse.py:121-128 | `parse_sections` fails exactly when a content line comes before every header, and then it names the index of the first such line. |
| `IniParse.SectionKeys` | inicheck/iniparse.py:114-119 | The sections are exactly the names of the header lines, each once. |
| `IniParse.SectionContents` | inicheck/iniparse.py:114-130 | A section holds the content lines between its last header and the next header, in order. Redeclaring a section starts it afresh. |
| `IniParse.AppendedLines` | inicheck/iniparse.py:130 | Appending collects exactly the content lines of the range. |
| `IniParse.ItemLine` | inicheck/iniparse.py:152-177 | One pass of the inner `parse_items` loop equals one step of the shared line-loop specification on the line's mark. |
| `IniParse.ItemStart` | inicheck/iniparse.py:162-173 | An item line's value starts as the text after the colon (newlines made spaces, left-stripped), appended after a space when it holds an `=`. |
| `IniParse.FinishItems` | inicheck/iniparse.py:179-184 | The final clean-up equals `Finish`: the last item is comma-normalised when it holds a comma, then stripped. |
| `IniParse.ParseSectionItems` | inicheck/iniparse.py:150-184 | The inner loop over a section's lines equals `SectionItems`. |
| `IniParse.ParseItems` | inicheck/iniparse.py:135-186 | `parse_items` equals `ItemsOf`, the sections' items gathered in section order. |
| `IniParse.GatherItems` | inicheck/iniparse.py:149-152 | The outer loop equals `Gather` over all the sections. |
| `IniParse.ItemLines` | inicheck/iniparse.py:153-177 | After `lstrip`, a line with a colon opens the item named by the lowercased, stripped text before its first colon. Every later colon stays in the value, so times of day survive. Any other line continues the current item with its left-stripped text. |
| `IniParse.ItemsError` | inicheck/iniparse.py:176-177 | A section's items fail exactly when a continuation line comes before every item line, and then with the lookup of the item `None`. |
| `IniParse.ItemKeys` | inicheck/iniparse.py:156-162 | A section's items are exactly the names of its item lines. |
| `IniParse.ItemValue` | inicheck/iniparse.py:156-184 | An item holds the text of its last item line, then each continuation line up to the next item line after one space. Only the section's last item is comma-normalised and stripped. |
| `IniParse.LastItemTokens` | inicheck/iniparse.py:180-184 | The clean-up of the last item keeps its stripped comma tokens. |
| `IniParse.ItemsOkIff` | inicheck/iniparse.py:149-186 | `parse_items` succeeds exactly when the lines of every section parse. |
| `IniParse.ItemsLayout` | inicheck/iniparse.py:149-186 | A successful `parse_items` keeps the sections and their order, and gives each section the items of its own lines. |
| `IniParse.ItemsFailure` | inicheck/iniparse.py:149-186 | A failing `parse_items` fails as the first section, in order, whose lines fail. |
| `IniParse.ValueOf` | inicheck/iniparse.py:207-213 | One item's value list equals `ValueList`. |
| `IniParse.ParseSectionValues` | inicheck/iniparse.py:205-213 | A section's items become value lists, item by item, in order. |
| `IniParse.ParseValues` | inicheck/iniparse.py:189-215 | `parse_values` equals `ValuesOf`: every section's items become value lists. |
| `IniParse.ValueListShape` | inicheck/iniparse.py:207-213 | Every value list is non-empty and its tokens are stripped. A text with a comma becomes its stripped comma tokens, at least two of them. Any other text becomes the one-element list of its stripped self. |
| `IniParse.NormalizeInvisible` | inicheck/iniparse.py:180-213 | The clean-up that `parse_items` gives a section's last item changes nothing in the value list `parse_values` makes of it. |
| `Entries.EntryNames` | inicheck/iniparse.py:58-62 | Every name `parse_entry` accepts is one of `valid_names`, and each string of an accepted entry has an `=`. A string naming something outside `valid_names` makes the entry fail. |
| `Entries.ConditionOf` | inicheck/entries.py:91-101 | A property's condition is a triple, and it fails exactly for a list of more than three words (the index error of `result[i]`). |
| `Entries.ListedCondition` | inicheck/entries.py:92-95 | The `enumerate` loop laying a list over `['any', 'any', 'any']` equals `ConditionOf` on that list. |
| `Entries.NamedCondition` | inicheck/entries.py:98-101 | The loop over `section`, `item`, `value` placing a single value equals `ConditionOf` on it. |
| `Entries.ConditionLine` | inicheck/entries.py:91-101 | The body of the property loop equals `ConditionOf`. |
| `Entries.ListSlots` | inicheck/entries.py:92-95 | A list of at most three words fills the slots from `section` onwards and leaves the rest `any`. A longer list fails with an index error. |
| `Entries.ScalarSlots` | inicheck/entries.py:98-101 | A single value under `has_section`, `has_item` or `has_value` fills exactly its own slot, with `any` elsewhere. |
| `Entries.NewTriggerEntry` | inicheck/entries.py:81-105 | `TriggerEntry.__init__` equals `TriggerOf`: the properties parsed with the three trigger names, then one condition per property, with all-`any` triples left out. |
| `Entries.TriggerNamesOnly` | inicheck/entries.py:84-88 | A trigger accepts only `has_section`, `has_item` and `has_value`. Any other property name makes it fail. |
| `Entries.ConditionsOrder` | inicheck/entries.py:90-105 | Collecting conditions fails exactly when a property fails. Otherwise the conditions follow property order, each from a distinct property and none all `any`, and every property whose triple is not all `any` contributes one. |
| `Entries.TriggerConditions` | inicheck/entries.py:87-105 | The same, for a trigger's own parsed properties: the conditions come from distinct property names, in order. |
| `Entries.NewRecipeSection` | inicheck/entries.py:17-43 | `RecipeSection.__init__` equals `RecipeOf`: the items folded, in order, into triggers and adjustments. |
| `Entries.RecipeItem` | inicheck/entries.py:33-43 | One item's parse equals `ItemPart`: a `TriggerEntry` when its name holds a trigger keyword, otherwise `parse_entry` of it. |
| `Entries.PartKind` | inicheck/entries.py:33-43 | An item is a trigger exactly when its name holds `trigger`, `triggers` or `condition`. |
| `Entries.RecipeSplit` | inicheck/entries.py:31-43 | Every item lands in exactly one place. A trigger item lands among the triggers, holding its `TriggerEntry`. Any other item lands among the adjustments, holding its `parse_entry` result. Both places keep the items' order. |
| `Entries.RecipeError` | inicheck/entries.py:31-43 | A recipe fails exactly when one of its items does, and then with the first failure. |
| `Entries.NewConfigEntry` | inicheck/entries.py:142-171 | `ConfigEntry.__init__` equals `ConfigEntryOf`. |
| `Entries.SetAttributes` | inicheck/entries.py:154-158 | The `setattr` loop: each parsed property overwrites the attribute of its own name, and the others keep their constructor values. |
| `Entries.ConfigEntryShape` | inicheck/entries.py:142-171 | A config entry accepts only `default`, `type`, `options` and `description`, and each holds the parsed property when given. `options` always ends up a list. The stored type is `TypeOf` of the given type, which `Entries.ConfigTypeLower` shows is lowercase. `listed` says whether the lowercased type held `list`. |
| `Entries.ConfigTypeLower` | inicheck/entries.py:164-171 | The stored type is always lowercase. It is the lowercased type itself unless that held `list`. |
| `Checkers.Checker.New` | inicheck/checkers.py:10-27 | Building a checker fails exactly when its keywords do not suffice (a missing `value` or `config`, or a path checker without a usable config), and then with that error. Otherwise the fresh checker's state is `Init`. |
| `Checkers.Checker.constructor` | inicheck/checkers.py:244-311 | The constructors of `GenericCheck`, `CheckType` and the subclasses set the state `Init` gives. |
| `Checkers.InitKeywords` | inicheck/checkers.py:10-27 | A checker needs the `value` keyword, then the `config` keyword, and a missing one is reported in that order. A type checker built with both starts as a warning with no message and the value as given. It is a list checker only when `is_list` was given as true. |
| `Checkers.PathInit` | inicheck/checkers.py:244-311 | A path checker needs a config object. A relative text value is placed under the directory of the config file, and an absolute one is kept. Only the directory checkers test directories, and only the critical checkers report errors. Each checker has its own missing-path message. |
| `Checkers.Checker.IsItALst` | inicheck/checkers.py:78-100 | `is_it_a_lst` equals `ListCheck` on the checker's state. |
| `Checkers.ListCheckSpec` | inicheck/checkers.py:78-100 | `is_it_a_lst` answers true exactly for a list of other than one element. A one-element list is unwrapped, and nothing else changes. |
| `Checkers.ListKeywordFinding` | inicheck/checkers.py:87-127 | `is_valid` as written, with `mk_lst` called with the keyword `unlist`, raises TypeError exactly for a type checker given a one-element list; the intended check unwraps that value and reaches a verdict. On every other input the two agree. |
| `Checkers.Checker.Cast` | inicheck/checkers.py:134-138 | `cast` returns and stores what `CastStep` gives for the checker's kind. |
| `Checkers.Checker.CastFloatInt` | inicheck/checkers.py:177-196 | `cast_float_int` equals `CastStep` for an int checker. |
| `Checkers.IntRule` | inicheck/checkers.py:177-196 | An int checker accepts exactly the values whose float is a whole number, and gives that number as an integer. A float with a fractional part is left in the value attribute. |
| `Checkers.IntFraction` | inicheck/checkers.py:128-130 | Hence a fractional number is reported as `Expecting int received float`, since the value attribute holds a float after the failed cast. |
| `Checkers.BoolWords` | inicheck/checkers.py:212-224 | A bool checker accepts exactly the yes and no words of the lowercased text, stores the boolean it read, and fails on anything else, keeping the value. |
| `Checkers.Checker.IsValid` | inicheck/checkers.py:102-132 | `is_valid` equals `Validity` on the checker's state. |
| `Checkers.TypeValidity` | inicheck/checkers.py:111-132 | A type checker always reports errors. A list of other than one element is refused unless lists are allowed. Otherwise the value is valid exactly when it casts, and the cast value is kept. Every refusal carries a message, and a valid value none. |
| `Checkers.StringAlwaysCasts` | inicheck/checkers.py:232-236 | `CheckType` and `CheckString` accept everything except a list refused as a list. |
| `Checkers.PathValidity` | inicheck/checkers.py:257-267 | A path checker tests the directory or the file, reports its own message, and keeps its level and value. |
| `Checkers.Checker.Check` | inicheck/checkers.py:42-58 | `check` equals `CheckOutcome` on the checker's state. |
| `Checkers.CheckNoneIffValid` | inicheck/checkers.py:53-58 | `check()` gives None exactly for a valid value, and the issue otherwise. For a type checker, None means valid. |
| `Checkers.GenericCannotCheck` | inicheck/checkers.py:29-58 | `GenericCheck.is_valid` returns None, which `check()` cannot unpack, and a generic checker has no `cast`. |
| `Checkers.CheckLevel` | inicheck/checkers.py:112 | A checker that reaches a verdict reports errors when it is a type checker or a critical checker, and warnings otherwise. |
| `Checkers.CastGivesScalar` | inicheck/checkers.py:134-138 | A single value stays a single value through construction and cast. |
| `Config.ReadMasterConfig` | inicheck/config.py:9-31 | `_read_master_config` on the parsed file equals `MasterOf`: every section's items made into entries, section by section. |
| `Config.ReadSection` | inicheck/config.py:25-29 | The inner loop makes one `ConfigEntry` per item, in item order. |
| `Config.MasterShape` | inicheck/config.py:24-29 | The master config has one section per section read. Each section has one entry per item, built from that item's name and property strings, in the same order. |
| `Config.NewConfigEntry` | inicheck/config.py:34-53 | `ConfigEntry.__init__` equals `EntryOf`: the properties parsed, then default and options converted, options made a list, and a `client` entry's options uppercased. |
| `Config.ParseInfoLoop` | inicheck/config.py:55-87 | The `parse_info` loop equals `ParseInfo`. |
| `Config.ParseInfoNames` | inicheck/config.py:61-69 | Every property string of an accepted entry has an `=` and names an attribute the entry has. |
| `Config.ParseInfoRejects` | inicheck/config.py:61-69 | The first property string without an `=`, or naming something the entry does not have, makes the entry fail with that error. |
| `Config.ParseInfoKeeps` | inicheck/config.py:86-87 | An attribute that no property string names keeps its initial value. |
| `Config.SetattrOther` | inicheck/config.py:87 | Setting one attribute leaves every other attribute as it was. |
| `Config.ParseInfoOne` | inicheck/config.py:67-87 | A property string sets the attribute it names to its text, or to the list of its words when it is bracketed. |
| `Config.ConvertRules` | inicheck/config.py:89-97 | `convert_type` turns a value reading `none` into None and keeps a value whose class text already names the type. It gives anything else to `cast_variable`. Once a property has set the attribute `convert_type`, the method is shadowed and calling it fails. |
| `Config.TextKeptAsStr` | inicheck/config.py:94-95 | With type `str`, a text default stays exactly as written. |
| `Config.NoneConverts` | inicheck/config.py:90-91 | A `None` default stays `None`. |
| `Config.EmptyListConverts` | inicheck/config.py:94-95 | Empty options stay an empty list under type `str`. |
| `Config.ConvertCasts` | inicheck/config.py:94-95 | A value that is not `none` and whose class text does not name the type is cast. |
| `Config.BareEntry` | inicheck/config.py:34-53 | An entry without property strings has type `str`, no default, no value, an empty description and no options. |
| `Config.ClientOptions` | inicheck/config.py:49-53 | A `client` entry's options are the converted options uppercased, and only text is accepted. Any other entry's options are the converted options as a list. |
| `Config.UpperAllSpec` | inicheck/config.py:53 | Uppercasing a list succeeds exactly when every element is text, and uppercases each one in place. |
| `Tools.CheckConfig` | inicheck/tools.py:5-72 | `check_config` only reads the user config, and its warnings and errors equal `ConfigReport` over the user's sections and items, in order. |
| `Tools.CheckSection` | inicheck/tools.py:40-69 | The item loop of one section equals `ItemsReport`. |
| `Tools.CheckValues` | inicheck/tools.py:49-69 | The value loop of one item equals `ValuesReport`. |
| `Tools.DispatchValue` | inicheck/tools.py:54-71 | The walk over the registered checkers for one value equals `Dispatch`. Each checker whose lowercased name is the item's type is built on the value and asked for its issue, and the walk stops at the first issue. |
| `Tools.UnregisteredWarns` | inicheck/tools.py:41-46 | An item the master section does not list, by its lowercased name, gets exactly one `Not a registered option.` warning, and none of its values is checked. |
| `Tools.NullsSkipped` | inicheck/tools.py:51-52 | Checking the values is checking the values that are not None. |
| `Tools.NoCheckerNoMessage` | inicheck/tools.py:55-71 | The values of an item whose type no registered checker is named after produce no message. |
| `Tools.NoCheckerNoIssue` | inicheck/tools.py:55-71 | The same, for one value. |
| `Tools.IssueLevel` | inicheck/tools.py:61-68 | An issue is filed at the level of the checker registered under the type that reported it. |
| `Tools.ValuesGrowth` | inicheck/tools.py:51-69 | Checking an item's values only adds lines, at most one per value that is not None. When every checker of its type reports errors, the warnings are unchanged. When every checker reports warnings, the errors are unchanged. |
| `Tools.PadRight` | inicheck/tools.py:21 | `"{: <w}".format(s)` keeps `s` and pads it with spaces to at least `w` characters. |
| `Tools.UserConfig.CastAllVariables` | inicheck/tools.py:75-136 | `cast_all_variables` replaces every registered value by its cast, in place, and returns the same object. An exception leaves the items before it cast. The new state and the error equal `CastSections`. |
| `Tools.UserConfig.CastSection` | inicheck/tools.py:103-133 | The item loop of one section equals `CastItems`. |
| `Tools.CastItem` | inicheck/tools.py:104-133 | One item's new value equals `CastItemValue`. |
| `Tools.FindChecker` | inicheck/tools.py:117-125 | The registry scan returns the first checker whose lowercased name is the type. |
| `Tools.FirstMatch` | inicheck/tools.py:117-129 | A checker is found exactly when some registered checker's lowercased name is the type. |
| `Tools.CheckerAlwaysFound` | inicheck/tools.py:109-129 | The `Unknown type_value prescribed` error cannot happen: a type that passed the registry test is lowercase, so some checker's lowercased name equals it. |
| `Tools.CastElementRules` | inicheck/tools.py:119-123 | None, `none` and `None` become None once the checker is built. Anything else becomes the checker's cast, which is a single value. |
| `Tools.CastValuesSpec` | inicheck/tools.py:114-129 | An item's values are cast one by one and in order, with one result per value, and the cast fails exactly when one value fails. |
| `Tools.CastItemShape` | inicheck/tools.py:107-133 | An item the master section does not list keeps its values, and a registered item gets one cast per value. Either way, a single value is stored bare and any other number as a list. |
| `Tools.CastItemErrors` | inicheck/tools.py:107-112 | A registered item whose type is not text, or names no registered checker, stops the pass. |
| `Tools.CastItemsLayout` | inicheck/tools.py:103-133 | Casting a section's items only replaces values: no section or item is added, removed or moved, whether the pass finishes or stops. |
| `Tools.CastKeepsLayout` | inicheck/tools.py:102-135 | Hence the whole pass keeps every section and item where it was. |
| `Tools.SourceRules` | inicheck/tools.py:155-177 | `get_user_config` refuses to run without some master config, then without an existing config file. Master files or modules win over a master config object, and master files are made a list. |
| `Changes.ChangeLog.New` | inicheck/changes.py:9-21 | `ChangeLog(paths, mcfg)` joins the changes of every file and then checks them. The object is returned only when every change is valid, and otherwise the validity error is raised. |
| `Changes.ChangeLog.constructor` | inicheck/changes.py:12 | A new log has no paths and no changes yet. |
| `Changes.ChangeLog.JoinChanges` | inicheck/changes.py:23-38 | `join_changes` equals `Joined`, the files' changes concatenated in path order. |
| `Changes.JoinedAppend` | inicheck/changes.py:34-36 | Joining two lists of paths joins their changes. |
| `Changes.JoinedOne` | inicheck/changes.py:35-36 | A single file contributes its own changes. |
| `Changes.ChangeLog.CheckLogValidity` | inicheck/changes.py:65-124 | `check_log_validity` counts each change's new side slot by slot, as the source does, and its outcome equals `LogError`. |
| `Changes.ValidCount` | inicheck/changes.py:76-106 | For a change that does not remove, four slots are counted exactly when the new side is valid. Valid means: the section is `any` or a master section; the item is `any`, or a master item of that section, or of some section when the section is `any`; and the property is `any` or `default`. |
| `Changes.InvalidsSpec` | inicheck/changes.py:73-110 | The flagged changes are exactly the invalid ones, and a change whose new section is `removed` is never among them. |
| `Changes.LogErrorSpec` | inicheck/changes.py:113-124 | The log is accepted exactly when every change is valid. Otherwise one error lists one line per invalid change, in log order. |
| `Changes.ChangeLog.GetActiveChanges` | inicheck/changes.py:126-184 | `get_active_changes` changes neither the user config nor the log, and equals `ChangesActive`, walking changes, then sections, then items. A log without changes fails with an attribute error. |
| `Changes.ActiveForChange` | inicheck/changes.py:142-182 | One change against every item of the user config equals `SectionsActive`. |
| `Changes.ActiveInSection` | inicheck/changes.py:145-182 | One change against the items of one section equals `ItemsActive`. |
| `Changes.BindRules` | inicheck/changes.py:148-164 | A change applies to item `i` of section `s` exactly when each old slot is `any` or names it. A bound `any` slot takes the section or item on the old side, and also on the new side unless the change removes. Property and value slots are untouched. |
| `Changes.ActiveFiled` | inicheck/changes.py:163-182 | Soundness: what `get_active_changes` returns is filed as `WellFiled` describes. Every potential change has the old property `default` and a new side that is a master item and does not remove. Every required move has such a new side, with an old property other than `default`. Both lists only grow, in order. |
| `Changes.ActiveComplete` | inicheck/changes.py:139-184 | Completeness: for every change of the log and every item of the user config it binds to, the result files what `Filed` demands. A removing new side is required as `[old, "removed"]`. A new side that the master has is required as a move when the old property is not `default`. A `default` change is potential when the current value, as text, equals the old value. |
| `Changes.ActiveSourced` | inicheck/changes.py:139-184 | Provenance, the converse of `ActiveComplete`: every potential and every required entry in the result comes from a change of the log and the user item named by its old slots, which the change matches once its `any` slots are bound. It is exactly what the classification files for that binding: a removal, a move to a master item that does not touch a default, or a `default` change whose old value equals the item's current value as text. |
| `Changes.ItemsComplete` | inicheck/changes.py:145-182 | The item loop of one section files every matching item as `Filed` demands, and keeps everything found before. |
| `Changes.SectionsComplete` | inicheck/changes.py:142-182 | The section loop files every matching item of every section as `Filed` demands, and keeps everything found before. |
| `Changes.FiledGrows` | inicheck/changes.py:163-182 | What is filed stays filed as the two lists grow by appending. |
| `Changes.ChangeLog.ApplyChanges` | inicheck/changes.py:186-248 | `apply_changes` equals `ApplyOutcome` with the source's test for a new section, whether it returns the copy or raises. Because the copy is shallow, every edit inside a section of the original config is also an edit of the user's config, and the final state satisfies `Mirrors`. |
| `Changes.PotentialsSpec` | inicheck/changes.py:203-209 | The potentials pass of `apply_changes` raises KeyError exactly when some potential names a section the user config lacks, naming the first such section. It never adds, drops or reorders sections. On success, every item some potential names holds the text of the last new default written to it, and every other item is as it was. |
| `Changes.ApplyStep` | inicheck/changes.py:211-246 | One required change, made on the copy and mirrored into the user's config, equals `ChangeStep`. |
| `Changes.ApplyRemoval` | inicheck/changes.py:230-231 | A removal deletes the old item, as `ChangeStep` says. |
| `Changes.ApplyMove` | inicheck/changes.py:224-246 | A move or rename creates the new section when the original config lacks it, then moves the item, as `ChangeStep` says. |
| `Changes.MoveItem` | inicheck/changes.py:234-246 | The item is copied to its new place and deleted from its old one. The old section is dropped from the copy when that leaves it empty and the master lacks it. |
| `Changes.MirrorsPut` | inicheck/changes.py:201 | Writing a section into the copy, and into the user's config when it is an original section, keeps the two in step. |
| `Changes.MirrorsDrop` | inicheck/changes.py:243-246 | Dropping an emptied section from the copy leaves the empty one in the user's config. |
| `Changes.RemovalStep` | inicheck/changes.py:230-231 | A removal deletes the old item and changes nothing else, under either test for a new section. |
| `Changes.RenameStep` | inicheck/changes.py:234-246 | A rename between two sections of the original config moves the value to its new section and item and deletes the old item. The old section is dropped exactly when that leaves it empty and the master config lacks it. This holds under either test for a new section. Every other section is unchanged. |
| `Changes.RenameIntoNewSection` | inicheck/changes.py:224-238 | A rename into a section the original config lacks puts the moved item into a freshly emptied section, whatever an earlier change had already moved there. Every other section is unchanged. |
| `Changes.SameSectionRename` | inicheck/changes.py:224-246 | A rename inside one section moves the value to the new item name and removes the old name. The section stays, and every other section is unchanged. |
| `Changes.RenameOntoItself` | inicheck/changes.py:234-246 | Renaming an item onto its own name deletes it, because the value is written before the old name is deleted. The section is dropped only when that empties it and the master config lacks it. |
| `Changes.RenamesIntoNewSectionLoseItems` | inicheck/changes.py:224-238 | Two renames out of section `a` into a section `n` that the user's config lacks: the second re-creates `n` empty, and the first moved item is lost. |
| `Changes.PrepareTargetFixed` | inicheck/changes.py:225-227 | The intended test creates the new section only when the working copy lacks it, so every section already present is kept unchanged. |
| `Changes.FixedRenameKeepsItems` | inicheck/changes.py:225-238 | With the intended test, a rename keeps whatever the target section already holds, apart from the one item it writes. |
| `Changes.IntendedRenameStep` | inicheck/changes.py:224-238 | With the intended test, a rename adds the moved item to whatever the copy already holds in the new section. |
| `Changes.IntendedRenamesKeepItems` | inicheck/changes.py:224-238 | The two renames of `RenamesIntoNewSectionLoseItems`, run with the intended test, leave both items in the new section. |
| `Inicheck.ParseConfigType` | inicheck/inicheck.py:44-84 | An accepted type is one of the seven type names, and the option is a suffix of the text. Without both `<` and `>`, the type is `str` and the option is the whole text. A type outside the list raises with the text. |
| `Inicheck.TypeRoundTrip` | inicheck/inicheck.py:69-81 | A type written as `<t>` in front of an option is read back with that option. |
| `Inicheck.ParseStrSetting` | inicheck/inicheck.py:87-113 | A text without `=` raises. A text with more than one `=` fails the two-name unpacking. An accepted setting has a known type, and its name and option hold no `=`. |
| `Inicheck.SettingNormalised` | inicheck/inicheck.py:103-107 | An accepted setting's name is lowercase and stripped. Its option is lowercase, and it is stripped too when the text carries no `<type>`, in which case the type is `str`. |
| `Inicheck.PlainSetting` | inicheck/inicheck.py:103-107 | `name=opt`, with a plain name and option, is that name with the parsed type of the option. |
| `Inicheck.SettingRoundTrip` | inicheck/inicheck.py:103-107 | A setting written in its plain form, `name=<t>rest`, is read back as written. |
| `Inicheck.Parseable` | inicheck/inicheck.py:133-140 | `parse_lst_options` walks no entries for None, a bare value as a list of one, and a list as it is. |
| `Inicheck.ParseEntry` | inicheck/inicheck.py:143-161 | The body of the entry loop equals `ListedEntry`: the setting is parsed, its tokens are cast, and a one-element list is unwrapped. |
| `Inicheck.CastOptions` | inicheck/inicheck.py:152-157 | The loop `options[i] = value`, which works in place over the token list, equals `CastTokens`. |
| `Inicheck.CastTokensSpec` | inicheck/inicheck.py:152-157 | Each token is cast on its own. The tokens succeed together or the first failure is the outcome, and every result is the cast of the token at its place. |
| `Inicheck.TokensClean` | inicheck/inicheck.py:146-147 | No token holds a bracket, a newline or a blank. |
| `Inicheck.ParseLstOptions` | inicheck/inicheck.py:116-167 | The entry loop equals `LstOptions`, which stores each entry as its parsed name, type and options. |
| `Inicheck.AvailableNames` | inicheck/inicheck.py:162-165 | Every stored entry sits under its own name, and carries a type exactly when types were asked for. |
| `Inicheck.LstOptionsAsWritten` | inicheck/inicheck.py:162-165 | As written, the call succeeds exactly when there is no entry to walk. The first entry that parses raises TypeError, since no `ConfigEntry` takes `available_options`; `ConfigEntry` is read as imported (see Left out). |
| `Inicheck.PairListed` | inicheck/inicheck.py:142-165 | For `name=[a b]` with plain words, the code as written raises TypeError. With the entry stored as intended, `name` maps to the two words, kept as text. |
| `Inicheck.SingleAvailable` | inicheck/inicheck.py:142-165 | A single entry that parses raises as written, and is the whole map as intended. |
| `Inicheck.AddDefaults` | inicheck/inicheck.py:273-290 | `add_defaults` fills the dictionary in place and returns it. The new state and the error equal `Defaults`. |
| `Inicheck.FillSection` | inicheck/inicheck.py:286-289 | The master items of one section, in order, equal `DefaultsItems`. |
| `Inicheck.DefaultsSpec` | inicheck/inicheck.py:285-290 | `add_defaults` adds the master default of every master item missing from a section the user has. It never overwrites an item, never adds a section, and keeps the section order. |
| `Inicheck.DefaultsSectionsSpec` | inicheck/inicheck.py:285-289 | Filling sections only adds defaults. When it finishes, every master item of each section is there. |
| `Inicheck.DefaultsItemsSpec` | inicheck/inicheck.py:286-289 | Filling one section only adds defaults. When it finishes, every master item of the section is there. |
| `Inicheck.DefaultsUnknownSection` | inicheck/inicheck.py:286 | A user section that the master config lacks stops the pass with a KeyError, before any later section. |
| `Inicheck.UpdateConfigPaths` | inicheck/inicheck.py:300-319 | `update_config_paths` rewrites the dictionary in place and returns it. The new state and the error equal `ConfigPaths`. |
| `Inicheck.UpdateSection` | inicheck/inicheck.py:309-318 | The items of one section, in order, equal `PathItems`. |
| `Inicheck.NewPathShape` | inicheck/inicheck.py:312-318 | Only a relative text value of a master `filename` or `directory` item is rewritten. The new path ends with the value as written, starts with the directory of the config file, and is absolute when that directory is. |
| `Inicheck.ApplyItem` | inicheck/inicheck.py:316-318 | Rewriting one item changes that item only, and keeps the shape of the config. |
| `Inicheck.PathItemsSpec` | inicheck/inicheck.py:309-318 | A finished walk over a section's distinct items rewrites each of them and changes nothing else. |
| `Inicheck.PathSectionsSpec` | inicheck/inicheck.py:308-318 | A finished pass over distinct sections rewrites every item of them and changes nothing else. |
| `Inicheck.RewriteFixed` | inicheck/inicheck.py:315-318 | When the config file's directory is absolute, a second pass leaves alone any value the pass produced. |
| `Inicheck.PathsIdempotent` | inicheck/inicheck.py:300-319 | Under an absolute config directory, the pass is idempotent: a second pass over its result changes nothing. |
| `Inicheck.CheckConfigFile` | inicheck/inicheck.py:170-271 | `check_config_file` changes nothing, and its warnings and errors equal `ConfigFileIssues`, as written. |
| `Inicheck.CheckRequired` | inicheck/inicheck.py:191-209 | The scan for required and data sections equals `RequiredErrors`. |
| `Inicheck.RequiredErrorsSpec` | inicheck/inicheck.py:191-209 | `Missing required section.` is reported for `stations` exactly when the master lists it and the user config has neither it nor `gridded`. `Must specify a CSV or MySQL or Gridded section.` follows exactly when no data section the master lists is present. |
| `Inicheck.RequiredScanSpec` | inicheck/inicheck.py:196-205 | The scan over distinct master sections reports `stations` exactly when it is required and missing, and finds a data section exactly when the master and the user config share one. |
| `Inicheck.CheckSection` | inicheck/inicheck.py:212-269 | One user section, walked as the source walks it, equals `SectionIssues`. |
| `Inicheck.CheckItems` | inicheck/inicheck.py:218-269 | The items of one user section, in order, equal `ItemsIssues`. |
| `Inicheck.CheckItem` | inicheck/inicheck.py:219-269 | One item equals `ItemIssues`. |
| `Inicheck.CheckValues` | inicheck/inicheck.py:229-269 | The values of a registered item, in order, equal `ValuesIssues`. |
| `Inicheck.ItemOutcomes` | inicheck/inicheck.py:219-269 | An item the master section does not list draws exactly the `Not a registered option.` warning, with the station-name hint in a `wind` section. A registered `stations` item changes nothing. Any other registered item only appends lines, and adds no warning unless it is a directory. |
| `Inicheck.ValuesGrowth` | inicheck/inicheck.py:234-269 | The values of a registered item only append lines, and add no warning unless the item is a directory. Its None values change nothing. |
| `Inicheck.ValueGrowth` | inicheck/inicheck.py:236-269 | One value only appends lines, and adds a warning only for a missing directory. |
| `Inicheck.TypeGrowth` | inicheck/inicheck.py:241-265 | The type test only appends lines, and adds a warning only for a directory. |
| `Inicheck.PlainValueIssues` | inicheck/inicheck.py:236-269 | For a value of a plain type, a type mismatch is an `Expecting a ...` error. A value outside non-empty options is then an `Invalid option` error. Nothing else is added. |
| `Inicheck.ItemsGrowth` | inicheck/inicheck.py:218-269 | The items of a section only append lines, and leave the loop variable `item` at the last of them. |
| `Inicheck.SectionErrorsFirst` | inicheck/inicheck.py:191-271 | A finished check lists the section errors first, and the user sections only append after them. |
| `Inicheck.UnknownSectionAsWritten` | inicheck/inicheck.py:212-221 | As written, a section the master does not list never passes cleanly. Before any item has been seen it raises UnboundLocalError. With items of its own, it raises on the master lookup. Otherwise it is reported under the name of an item of another section. |
| `Inicheck.UnknownFirstSectionRaises` | inicheck/inicheck.py:212-215 | A user config whose first section the master does not list makes `check_config_file` raise UnboundLocalError instead of reporting the section. |
| `Inicheck.UnknownSectionsReported` | inicheck/inicheck.py:212-215 | In the intended reading, each section the master does not list adds one `Not a valid section.` error, in order, and nothing else. |
| `Inicheck.IntendedUnknownConfig` | inicheck/inicheck.py:191-215 | In the intended reading, a config whose sections the master does not list gets the section errors, then one error per section. |
| `Utilities.RemoveCharsMembers` | inicheck/utilities.py:14-15 | Without a replacement, the result holds exactly the characters of the input that are outside `chars`. |
| `Utilities.RemoveCharsAppend` | inicheck/utilities.py:14-20 | `remove_chars` works character by character, so it distributes over concatenation. |
| `Utilities.RemoveCharsNoop` | inicheck/utilities.py:14-20 | A string with none of the characters is returned unchanged. |
| `Utilities.ReplaceCharsPointwise` | inicheck/utilities.py:16-17 | A one-character replacement keeps the length, and rewrites exactly the listed characters. |
| `Utilities.RemoveCommentCut` | tests/test_utilities.py:25-37 | `remove_comment` keeps a prefix without `#` or `;`, cut exactly at the first of them. |
| `Utilities.RemoveCommentPrefix` | tests/test_utilities.py:25-37 | Text without markers survives in front of whatever the rest leaves. |
| `Utilities.RemoveCommentAt` | tests/test_utilities.py:25-37 | The cut falls at the first marker. |
| `Utilities.RemoveCommentPinned` | tests/test_utilities.py:29-37 | The four inputs of the utilities tests give the expected text. |
| `Utilities.CastVariable` | inicheck/utilities.py:22-60 | The `cast_variable` loop equals `CastOf`: a bare value is wrapped, each element is cast by the first keyword its type holds, and a single result is unwrapped. |
| `Utilities.CastVariableShape` | inicheck/utilities.py:31-60 | A successful cast comes back bare exactly when there was one element. |
| `Utilities.CastEachLength` | inicheck/utilities.py:35-56 | Casting keeps the number of elements. |
| `Utilities.BoolBranch` | inicheck/utilities.py:38-44 | The boolean branch raises exactly on non-text, maps the yes and no words, and otherwise gives the truth of the text. |
| `Utilities.PathsPassThrough` | inicheck/utilities.py:49-50 | `filename` and `directory` values pass through unchanged, whatever they hold. |
| `Utilities.PathPassesThrough` | inicheck/utilities.py:49-50 | One `filename` or `directory` element is kept as it is. |
| `Utilities.StrBranch` | inicheck/utilities.py:51-56 | Under a type that names only `str`, text is lowercased, and only `none` becomes None. Under a type with no keyword, anything but `none` raises. |
| `Values.MkLst` | tests/test_utilities.py:49-52 | `mk_lst` leaves a list as it is and wraps anything else. |
| `Values.Unlist` | tests/test_utilities.py:54-62 | `mk_lst(xs, unlst=True)` unwraps a one-element list and keeps any other list; wrapping again gives the list back. |
| `Values.Truncate` | inicheck/utilities.py:46 | Python's `int()` of a float truncates toward zero. |
| `Paths.DirNameShape` | inicheck/checkers.py:252-255 | The directory of a path is a prefix of it that ends at a `/` boundary. It is empty when the path has no `/`. |
| `Paths.JoinCases` | inicheck/checkers.py:252-255 | An absolute second path wins. A relative one is placed under the first. |
| `Paths.JoinUnderConfigDir` | inicheck/checkers.py:252-255 | A config file under `/a/b` puts its relative paths under `/a/b` and keeps absolute ones. |
| `Paths.JoinBareFileName` | inicheck/inicheck.py:316-317 | Under a config file name without any `/`, relative paths stay as given. |
| `LegacyInput.LegacyParseSections` | inicheck/input.py:23-71 | The legacy `parse_sections` `while` loop equals `LegacySections`. |
| `LegacyInput.LegacyCleanLine` | inicheck/input.py:41-49 | Tabs and newlines are removed, the line is stripped, and the comment is cut. |
| `LegacyInput.LegacySectionLine` | inicheck/input.py:52-66 | One pass of the legacy loop equals one step of the shared line-loop specification. |
| `LegacyInput.CutCommentShape` | inicheck/input.py:45-49 | The comment cut keeps a prefix of the line with no `#` in it. A `;` survives only when the line has a `#`, which takes precedence. A line with neither is kept. |
| `LegacyInput.LegacyLineKinds` | inicheck/input.py:52-66 | A cleaned line fails exactly when it holds `[` and no `]`. It opens a section exactly when it holds `[` and `]` and neither `:` nor `=`. A non-empty line without `[` is content. Everything else is dropped. |
| `LegacyInput.LegacySectionsError` | inicheck/input.py:59-66 | The legacy sections fail exactly when a line fails, and then with the first failure: the open bracket at its line index, or the lookup of the section `None`. |
| `LegacyInput.LegacySectionKeys` | inicheck/input.py:58-60 | The legacy sections are exactly the names of the opening lines. |
| `LegacyInput.LegacySectionContents` | inicheck/input.py:54-66 | A legacy section holds the content lines between its last opening line and the next one. |
| `LegacyInput.LegacyParseItems` | inicheck/input.py:72-100 | The legacy `parse_items` equals `LegacyItems`. |
| `LegacyInput.ColonLine` | inicheck/input.py:87-97 | The dictionary a colon line writes equals `ColonEntry`. |
| `LegacyInput.Entries` | inicheck/input.py:84-97 | A section line writes an entry exactly when it holds a colon. |
| `LegacyInput.LegacyItemsShape` | inicheck/input.py:82-100 | A section appears in the legacy items exactly when one of its lines holds a colon, and then holds what its last colon line writes, because each colon line replaces the section's whole dictionary. Other sections are left out. |
| `LegacyInput.SectionEntry` | inicheck/input.py:84-97 | One section's colon lines leave nothing when none has a colon, and otherwise the entry of the last colon line. |
| `LegacyInput.ColonEntryShape` | inicheck/input.py:87-97 | A colon line's entry names the lowercased text before its first colon. A character list rejoins into the text after the last colon, and a comma list rejoins into the following lines. |
| `LegacyInput.JoinChars` | inicheck/input.py:93 | `"".join(list(s)) == s`. |

## Left out

- Reading files is not modelled: `read_config` (inicheck/iniparse.py:6-24), `_read_config_file` (inicheck/input.py:3-21) and `ChangeLog.read_change_log` (inicheck/changes.py:40-63). The model starts from the lines or the parsed dictionaries those functions return. `Changes.ChangeLog.New` takes the reader as a parameter, a function from a path to its change list.
- `MasterConfig` and `UserConfig` objects are represented by their dictionaries only. The file and module lookups that build them are left out, and so are `get_master_config` (inicheck/inicheck.py:293-298) and `get_user_config` beyond its argument guard. `UpdateConfigPaths` therefore takes the master config as a parameter, where the source can default it.
- `apply_recipes` and the resolution of recipes are not in the source shown. Only the parsing of recipes and triggers is modelled.
- Output and the command line are left out because they only print: `inicheck/output.py`, `inicheck/cli.py`, `config_documentation`, and the `pcfg` and `print` calls.
- `float()`, `int()` of text, `pandas.to_datetime`, `str()` of floats, timestamps and lists, `os.path.isfile` and `os.path.isdir` are foreign. They are parameters, the functions of a `Natives` record, so the contracts hold for any behaviour of them.
- Floats are real numbers. Rounding, infinities and NaN are not modelled.
- `os.path.abspath` normalisation and `expanduser` are not modelled. A rewritten path is the joined text (`Paths.PathJoin` under `Paths.DirName`), without the removal of `.` and `..`.
- The checker registry (`get_checkers` over the checker module) is an explicit sequence of name and kind pairs. Python's class introspection is not modelled.
- `mk_lst` and `remove_comment` are used by the source but not defined in the files shown. They are specified from their tests (`Values.MkLst`, `Utilities.RemoveComment*`).
- `Checkers.Checker.IsItALst`: line 91 of inicheck/checkers.py passes the keyword `unlist` to `mk_lst`, but every other caller and the tests of `mk_lst` spell it `unlst`. `mk_lst` is not part of this model, so the method reads the keyword as `unlst` and unwraps the one-element list. The as-written reading, a TypeError that `is_valid` does not catch, is `Checkers.ListKeywordFinding` (see Findings).
- `Checkers.Checker.constructor` requires that the keywords are usable. The exceptions the Python constructor raises are modelled by `Checkers.Checker.New`, which returns them as errors.
- `Changes.ActiveFiled` states the shape of what is filed. Together, `Changes.ActiveComplete` and `Changes.ActiveSourced` give the contents of both lists: what is filed is exactly what the matching changes and items require. None of these lemmas states how many times an entry occurs or in which order. That is the loop order (change, then section, then item); `Changes.ChangeLog.GetActiveChanges` equals `ChangesActive`, which fixes both.
- Text is folded and stripped in ASCII only. In the Python 3 modules, `str.lower()` and `str.upper()` also fold non-ASCII letters, and `'İ'.lower()` is two characters long. `str.strip()` also removes `\x1c`-`\x1f`, `\x85`, `\xa0` and the other Unicode spaces. The model leaves all of those characters as they are. Every lowercasing and stripping step inherits this, including section and item names, property names, settings and the type names that select a checker. The Python 2 `inicheck/input.py` works on byte strings, where the ASCII rules are exact.
- `Config.ParseInfoLoop` and `Config.ParseInfoRejects` accept only the entry's six attributes and its two methods as property names. `hasattr` also finds the names every Python object inherits, such as `__doc__`, `__module__` and `__class__`. The source sets those, or fails in `setattr` for some of them, where the model reports an unknown property.
- `Inicheck.DefaultsSpec`: "never overwrites an item" is proved for master configs whose entries are named by their own keys (`NamedByKey`). The source tests `v.name` against the user's keys and stores under the key `k`, so an entry named differently from its key can overwrite.
- Equality in the option test (`Inicheck.PyEq`) compares numbers by value across bool, int and float, and treats every other pair of different kinds (text against a number or a timestamp) as unequal, as Python does for these kinds.
- `inicheck.py` has its own copy of `cast_variable` (inicheck/inicheck.py:4-42), identical in behaviour to the one in `utilities.py`; both are modelled by `Utilities.CastVariable`. The free name `cast_variable` in `inicheck/config.py` is read as that function.
- `Inicheck.CheckConfigFile`, `Inicheck.UpdateConfigPaths`, `Inicheck.LstOptionsAsWritten` and `Utilities.CastVariable`: inicheck/inicheck.py imports nothing, and inicheck/utilities.py does not import `pd`. The model reads the unbound names `os`, `pd` and `ConfigEntry` as `os.path`, `pandas` and the entry class they name. It does not model the NameError the text raises as it stands. That NameError arises in `check_config_file` on every filename or directory value (lines 249-260), in `update_config_paths` at line 316, and in `parse_lst_options` at lines 163-165. It also arises in the datetime branch of `cast_variable` (inicheck/utilities.py:37, inicheck/inicheck.py:19). In the datetime check of `check_config_file` (lines 242-245) the bare `except` would swallow it, so every value would be reported "Format not datetime".
- `_remove_chars` of `inicheck/input.py:103-115` is the same function as `remove_chars` in `utilities.py` and is modelled once, by `Utilities.RemoveChars`.
- `inicheck/input.py` is Python 2 code. Its dictionary order is not meaningful there, so the model gives it insertion order. `os.linesep` is taken as `"\n"`.
- The dictionary `available` built by `parse_lst_options` is modelled as insertion-ordered.
- `Changes.ChangeLog.ApplyChanges` models `apply_changes` as written, including the new-section test that reads the original config (see Findings). The step functions `ChangeStep`, `ChangesOutcome` and `ApplyOutcome` take a flag that selects the intended test instead (`Changes.PrepareTargetFixed`). The properties of the intended pass are proved on those functions, not on a second method.
- `Inicheck.CheckConfigFile` models `check_config_file` as written, including the read of `item` before it is assigned (see Findings). The intended reading is `ConfigFileIssuesIntended`, which the Findings lemmas use.
- Aliasing in `apply_changes` is modelled on values. The top-level copy shares its sections with the user config, and the model states the result as that sharing would leave it (`Mirrors`). It does not track object identity.

## Findings

| source | as written | input that shows it | evidently intended | confidence | as-written member | corrected member |
|---|---|---|---|---|---|---|
| inicheck/inicheck.py:162-165 | `parse_lst_options` builds `ConfigEntry(..., available_options=...)`, a keyword the entry classes do not take, so, once `ConfigEntry` is imported, every option string that parses raises TypeError (as the file stands, the unbound name `ConfigEntry` raises NameError first) | `parse_lst_options("a=[1 2]")` | the entry is stored, so `a` maps to the two words | not executed | `Inicheck.LstOptionsAsWritten` (shown by `Inicheck.PairListed`) | `Inicheck.ParseLstOptions` (proved against `LstOptions`; `Inicheck.PairListed`) |
| inicheck/changes.py:225-227 | the test for a missing new section reads the original config, so each rename into a section the user lacks re-creates it empty | renames `a/x -> n/x` then `a/y -> n/y` on a config holding only section `a` | both items end up in section `n` | not executed | `Changes.RenamesIntoNewSectionLoseItems` | `Changes.IntendedRenamesKeepItems` (with `Changes.IntendedRenameStep` and `Changes.FixedRenameKeepsItems`, on `PrepareTargetFixed`) |
| inicheck/inicheck.py:214-215 | the error for a section the master does not list names the variable `item`, which is only assigned in the item loop, so a first unknown section raises UnboundLocalError | a user config whose first section is not in the master | one "Not a valid section." error per unknown section, with the items of an unknown section skipped rather than looked up in the master config, where line 221 raises KeyError | not executed | `Inicheck.UnknownFirstSectionRaises` | `Inicheck.IntendedUnknownConfig` |
| inicheck/checkers.py:91 | `is_it_a_lst` unwraps a one-element list with `mk_lst(self.value, unlist=True)`, while every other caller and the tests of `mk_lst` use the keyword `unlst`; the call sits before the `try` of `is_valid`, so the TypeError reaches `check` and `check_config` | `CheckInt(value=["1"], config=None).is_valid()` | the one-element list is unwrapped to `"1"` and cast, giving a valid verdict | not executed; the signature of `mk_lst` is inferred from its callers and tests | `Checkers.ListKeywordFinding` (on `ValidityAsWritten`) | `Checkers.ListCheckSpec` (with `Checkers.TypeValidity`, on `ListCheck`) |
