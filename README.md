# xds core, modelled in Dafny

xds builds Python classes at run time from minimal YAML blueprints and keeps the classes
and their instances in one namespace. This project models the parts of it that decide
what gets built and what gets found:

- **the field grammar** (`xds/core/field.py`). `field_spec` turns a modifier text such as
  `int=42#req#gt=45` into a keyword-to-value map. It reads the `#`-separated segments one
  by one, then resolves the single type and coerces the default and the `in` allow-list.
  `cmp_value` and `query_operation` dispatch on the operator vocabulary.
- **the schema compiler** (`xds/core/dynamo.py`, class `Dynamo`).
  - `_if_missing_cls` stamps a `kind` into every map.
  - `_from_data` compiles a map into a class with one attribute per key. It compiles
    nested maps first and stores every class in `models` under its kind.
  - `instance` structures input into the class of its kind under the closed-world rule:
    unknown keys are rejected at every level. It then merges a delegate's public
    attributes into the object.
- **the older compiler** (`xds/core/cls_factory.py`, class `ClassFactory`). Attributes are
  keyed by the raw key, and every class starts with a `context` attribute. Flags come
  from `/pattern` substrings, and a text holding a comma becomes a list.
- **the registry** (`xds/core/registry.py`). `_ns_init` registers classes under
  `models/<name>` and instances under `instances/<Class>/<ns>`. `locator` resolves a path
  in three steps: an exact match, then a fallback for each prefix, then a fuzzy match on
  the last segment that is used only when it is unique.
- **the name and query helpers** (`xds/utils/helpers.py` and its copy `refactor/utils.py`).
  `xlate` turns a text into a variable name and a human label, and `xlation_map` maps
  between them. `parse_nested_qs` nests dotted query keys; the two copies walk to an
  intermediate dict in different ways.
- **the date shortcuts** (`xds/utils/dates.py`). `date_modifier` parses a pattern such as
  `-2B`, `3ME` or `1QE`. `dated` moves the base date by days, weeks, months, quarters or
  years. `move_date` then moves it to the start or end of the month, and to a business
  day.

Modules, one per file:

| module | file |
|---|---|
| `Wrappers` | `wrappers.dfy`: Option, Result and the Python exceptions that reach callers |
| `Text` | `text.dfy`: the `str` methods the code uses, with letter case over ASCII |
| `Field` | `field.dfy` |
| `Data` | `data.dfy`: the loaded YAML value, dict access, and kind stamping |
| `Names` | `names.dfy` |
| `Schema` | `schema.dfy`: generated classes and cattrs structuring under `forbid_extra_keys` |
| `Dynamo` | `dynamo.dfy` |
| `ClsFactory` | `cls_factory.dfy` |
| `Registry` | `registry.dfy` |
| `Dates` | `dates.dfy` |
| `DateShortcuts` | `date_examples.dfy`: what each shortcut of the test fixtures does to any date, and the fixtures themselves |

The modelled code comes in two forms:

- **Pure functions and lemmas** model the code that only computes: the grammar, the name
  translation, the date arithmetic and the lookups.
- **Classes with methods** model the code that changes state step by step:
  - `Dynamo.Dynamo`, `ClsFactory.ClassFactory` and `Registry.Registry` hold the
    dictionaries the source mutates.
  - Their methods are proved equal to the pure compile and lookup functions.
  - The loops of `field_spec`, `xlation_map`, `parse_nested_qs`, `move_date` and the
    delegate merge are methods with invariants, proved against the same functions.

## Model

| member | source | states |
|---|---|---|
| Text.Split | xds/utils/helpers.py:136 | `s.split(c)` gives at least one piece |
| Text.SplitLacksSeparator | xds/utils/helpers.py:136 | no piece of a split holds the separator |
| Text.SplitJoin | xds/utils/helpers.py:136 | splitting a joined list gives the list back when no piece holds the separator |
| Text.JoinSplit | xds/utils/helpers.py:136 | joining the pieces of a split with the separator gives the string back |
| Text.SplitAtSeparator | xds/core/cls_factory.py:87-88 | a string holding the separator splits into at least two pieces |
| Text.Lower | xds/utils/helpers.py:49 | `lower()` keeps the length, leaves no upper-case letter, keeps letters letters and leaves every character that was not upper-case as it was |
| Text.LowerIdempotent | xds/utils/helpers.py:49 | lower-casing twice is lower-casing once |
| Text.Upper | xds/utils/dates.py:13 | `upper()` keeps the length, leaves no lower-case letter, keeps letters letters and leaves every character that was not lower-case as it was |
| Text.Title | xds/utils/helpers.py:51 | `title()` keeps the length and every non-letter; a letter of the result is upper-case exactly when it starts a run of letters |
| Text.TitleIdempotent | xds/utils/helpers.py:51 | title-casing twice is title-casing once |
| Text.Strip | xds/core/cls_factory.py:58 | `strip()` never lengthens its input, and what it returns has no white space at either end |
| Text.StripTrims | xds/core/cls_factory.py:58 | what `strip()` returns is a slice of its input, and everything cut off before and after it is white space |
| Text.StripAround | xds/core/field.py:78 | white space around a text with non-blank ends is exactly what `strip()` removes |
| Text.ParseIntText | xds/core/field.py:78 | `int(str(n))` is `n` for every integer |
| Field.TypeMapKeysComplete | xds/core/field.py:24-37 | `_TYPE_MAP` has an entry exactly for its twelve keys; `email` and `href` have none |
| Field.ReadSegment | xds/core/field.py:17-22 | a matched segment is a modifier keyword of its group, alone or followed by `=` and its value |
| Field.Absorb | xds/core/field.py:53-60 | one round of the loop raises exactly when a `_kv` keyword lacks a value; otherwise it skips an unmatched segment or stores the keyword's value |
| Field.ScanKeysAreKeywords | xds/core/field.py:43-60 | every key the loop stores is a modifier keyword |
| Field.ScanErrSticky | xds/core/field.py:57 | once the loop has raised, later segments change nothing |
| Field.ScanFailsIffLacksValue | xds/core/field.py:56-57 | the loop raises exactly when some `_kv` keyword has no value, and the message names the first one |
| Field.ScanKeys | xds/core/field.py:45-60 | the keys of the scanned map are exactly the keywords of the matched segments |
| Field.ScanLastWins | xds/core/field.py:60 | a keyword holds the value of its last segment |
| Field.ScanBoolTrue | xds/core/field.py:58-59 | a boolean keyword holds True, whatever value follows it |
| Field.ScanSkipsUnmatched | xds/core/field.py:51-54 | a segment the pattern does not match leaves the scan as if it were absent |
| Field.ScanErrors | xds/core/field.py:57 | the loop raises only ValueError |
| Field.CoerceInt | xds/core/field.py:78 | `int(text)` gives an int or raises ValueError |
| Field.CoerceIntText | xds/core/field.py:78 | `int()` reads back the decimal text of any integer, with any white space around it |
| Field.CoerceIntUnderscore | xds/core/field.py:78 | `int()` accepts single underscores between digits: `-1_000` is -1000 |
| Field.CoerceIntDoubleUnderscore | xds/core/field.py:78 | two underscores in a row make `int()` raise ValueError |
| Field.CoerceIntEdgeUnderscore | xds/core/field.py:78 | a leading or trailing underscore makes `int()` raise ValueError |
| Field.Coerce | xds/core/field.py:78 | `rtype(text)` raises only ValueError or TypeError |
| Field.CoerceAll | xds/core/field.py:76 | a list comprehension of coercions succeeds exactly when every element does, and then holds each coerced element |
| Field.PresentTypes | xds/core/field.py:62-66 | the types found are exactly the `_TYPE_MAP` keys present in the map |
| Field.DefaultOf | xds/core/field.py:73-78 | a `list*` text is split on commas and coerced element by element; any other text is coerced whole; it fails exactly when a coercion fails |
| Field.AllowList | xds/core/field.py:79-80 | the `in` text becomes its comma-separated pieces coerced to the type; it fails exactly when a piece fails |
| Field.WithDefault | xds/core/field.py:73-78 | adding the default keeps every other entry and adds only `default` |
| Field.WithAllowList | xds/core/field.py:79-80 | coercing the allow-list changes only the `in` entry |
| Field.ResolveTooManyTypes | xds/core/field.py:67-68 | resolution fails with the several-types error exactly when more than one type keyword is present |
| Field.ResolveKeepsEntries | xds/core/field.py:62-81 | a resolved spec has a type, keeps every entry but `in`, and adds only `type` and `default` |
| Field.ReservedNotKeywords | xds/core/field.py:72-78 | `type` and `default` are not modifier keywords |
| Field.FieldSpec | xds/core/field.py:40-81 | the loop over matches followed by resolution returns what `field_spec` returns or raises |
| Field.ParsedJoin | xds/core/field.py:43 | `field_spec` reads its input's `#`-separated segments in order |
| Field.NoTypeIsStr | xds/core/field.py:69-72 | with no type keyword, the type is `str` and there is no default |
| Field.SingleTypeDefault | xds/core/field.py:71-78 | a single type keyword gives the type, and its non-empty text becomes the coerced default; a failing coercion is the result |
| Field.AllowListResolved | xds/core/field.py:79-80 | a non-empty `in` text becomes its allow-list, coerced to the resolved type |
| Field.TwoTypesFail | xds/core/field.py:67-68 | two different type keywords make `field_spec` fail |
| Field.ParsedHasType | xds/core/field.py:72 | whatever `field_spec` returns carries a type |
| Field.ParsedSpecErrors | xds/core/field.py:40-81 | `field_spec` raises only ValueError, AttributeError or TypeError |
| Field.ResolveErrors | xds/core/field.py:62-80 | resolution raises only ValueError, AttributeError or TypeError |
| Field.ParsedSpecKeys | xds/core/field.py:40-81 | the keys of a parsed spec are modifier keywords, `type` and `default` |
| Field.CmpValue | xds/core/field.py:84-97 | an operator is accepted exactly when it is in the table; any other raises ValueError naming it |
| Field.CmpConverse | xds/core/field.py:86-91 | swapping the operands swaps `lt` with `gt` and `le` with `ge`; `eq` and `ne` are symmetric |
| Field.CmpComplement | xds/core/field.py:86-91 | `ne`, `ge` and `le` negate `eq`, `lt` and `gt` |
| Field.RangeAll | xds/core/field.py:107 | `range` holds for an empty collection, and otherwise exactly when every element lies between the two bounds; on a non-empty collection, int bounds raise TypeError, and bounds with fewer than two items raise IndexError unless the first element already lies below the lower bound |
| Field.QueryOperation | xds/core/field.py:100-113 | an unknown operation raises; `has`, `in` and `enum` test membership; `start` and `end` are false on an empty collection and otherwise compare the value with the first or last element; `range` is the bounds test with its errors |
| Field.MaxMinRejected | xds/core/field.py:9 | `max` and `min` are operator keywords of the grammar, yet both dispatchers reject them |
| Data.Get | xds/core/dynamo.py:47 | `d.get(k)` finds a value exactly when the key is present, and the value is that key's |
| Data.Put | xds/core/dynamo.py:57-58 | `d[k] = v` keeps an existing key's position and appends a new key |
| Data.PutGet | xds/core/dynamo.py:57-58 | after `d[k] = v`, `d.get(k)` is `v` and every other key reads as before |
| Data.PutEntries | xds/core/dynamo.py:57-58 | every entry after `d[k] = v` is the new entry or the one that was there |
| Data.KeySet | xds/core/dynamo.py:74 | the key set holds exactly the keys present |
| Data.PutKeySet | xds/core/dynamo.py:57-58 | `d[k] = v` adds `k` to the keys and nothing else |
| Data.PutUnique | xds/core/registry.py:78 | assigning a key keeps every key of a dict distinct |
| Data.PutPairKeys | xds/core/registry.py:73-78 | two assignments to distinct keys add both keys and nothing else |
| Data.PutPairGet | xds/core/registry.py:73-78 | after two assignments to distinct keys, each key reads as assigned |
| Data.PutPairFresh | xds/core/registry.py:73-78 | two assignments of new keys append them in order |
| Data.StampEntries | xds/core/dynamo.py:59-60 | stamping the entries keeps their keys in order |
| Data.StampItems | xds/core/dynamo.py:61-63 | stamping the items keeps their number |
| Data.StampEntriesAt | xds/core/dynamo.py:59-60 | each entry's value is stamped with its own key |
| Data.StampItemsAt | xds/core/dynamo.py:62-63 | each item of a list is stamped with the list's key |
| Data.StampMap | xds/core/dynamo.py:56-60 | a stamped map keeps its keys in order with each value stamped under its own key, and gains `kind` at the end when it had none |
| Data.StampList | xds/core/dynamo.py:61-63 | a stamped list holds its items stamped with the list's key |
| Data.StampKeepsKind | xds/core/dynamo.py:57 | an existing `kind` is kept |
| Data.StampGetFirst | xds/core/dynamo.py:59-60 | a lookup in a stamped map gives the stamped value of the original lookup |
| Data.StampKinded | xds/core/dynamo.py:55-64 | after stamping, every reachable map has a `kind` |
| Data.StampIdempotent | xds/core/dynamo.py:55-64 | stamping twice is stamping once |
| Data.StampKindedIdentity | xds/core/dynamo.py:55-64 | a value already kinded everywhere is unchanged |
| Data.Inputs | xds/core/dynamo.py:50-53 | `_inputs` gives a value kinded everywhere whose root map has a `kind` |
| Names.CollapseWordChars | xds/utils/helpers.py:49 | the substitution leaves only word characters |
| Names.SubstituteWordPrefix | xds/utils/helpers.py:49 | a leading stretch of word characters passes through unchanged |
| Names.CollapseRunTail | xds/utils/helpers.py:49 | the rest of a run of non-word characters produces nothing more |
| Names.SubstituteRun | xds/utils/helpers.py:49 | a maximal run of non-word characters becomes one `_` |
| Names.SubstituteWordOnly | xds/utils/helpers.py:49 | a string of word characters is its own substitution |
| Names.VarOf | xds/utils/helpers.py:49 | the var has the length of the substitution, holds only word characters and has no upper-case letter |
| Names.VarAscii | refactor/utils.py:36 | for ASCII input the var holds only lower-case letters, digits and `_` |
| Names.CollapseAscii | refactor/utils.py:36 | the substitution of ASCII text is ASCII |
| Names.XlateIdempotent | refactor/utils.py:35-42 | translating a var again gives the same var |
| Names.WordKeepsSpaces | xds/utils/helpers.py:51 | a label word holds a space only where its part does |
| Names.LabelWords | xds/utils/helpers.py:50-54 | splitting the label on spaces gives one word per `_`-part of the var, in order |
| Names.XlationMap | xds/utils/helpers.py:58-68 | the loop builds the `human` and `var` dicts value by value, later values overwriting |
| Names.XlationsHuman | xds/utils/helpers.py:65 | `human` maps exactly the vars of the values, each to its own label |
| Names.XlationsVars | refactor/utils.py:53-54 | `var` maps exactly the values and their labels, each to the var of a value it came from |
| Names.XlationsValueVar | xds/utils/helpers.py:66-67 | a value maps to its own var unless a later value's label is that very text |
| Names.FirstValue | xds/utils/helpers.py:140 | the first query value, split on commas when it holds one; an empty list raises IndexError |
| Names.InsertFails | xds/utils/helpers.py:137-140 | storing a value fails exactly when the path runs into a string or a list, or the value fails |
| Names.InsertPlaces | refactor/utils.py:117-122 | after a store, the value sits at the end of the dotted path |
| Names.InsertKeepsOthers | xds/utils/helpers.py:137-140 | a store leaves every path that parts from its own untouched |
| Names.WalkersAgree | refactor/utils.py:118-121 | the `setdefault` walk and the test-then-index walk succeed on the same inputs with the same result |
| Names.ParseNestedQs | xds/utils/helpers.py:133-141 | the loop stores the query entries one by one, as the nesting function does |
| Names.NestedQsErrSticky | xds/utils/helpers.py:135-140 | once a store has raised, later entries change nothing |
| Names.NestedQsWalkersAgree | refactor/utils.py:113-123 | both copies of `parse_nested_qs` accept the same queries and build the same dict |
| Names.FlatQuery | xds/utils/helpers.py:133-141 | every undotted key with values lands at the top level as its first value |
| Names.FlatQueryKeys | xds/utils/helpers.py:133-141 | with undotted keys the result holds no key that is not in the query |
| Names.FlatStep | xds/utils/helpers.py:136-141 | one undotted key with values is set to its first value and nothing else changes |
| Schema.TypeOf | xds/core/dynamo.py:92 | `type(value)` of a loaded scalar, map or list |
| Schema.ClassName | xds/core/dynamo.py:116 | `make_class` accepts exactly a text name, and raises TypeError otherwise |
| Schema.ExtraKeys | xds/core/dynamo.py:37-39 | the extra keys are exactly those naming no attribute |
| Schema.CheckNode | xds/core/dynamo.py:172 | structuring a map fails only with the unknown keys, and names at least one |
| Schema.CheckFields | xds/core/dynamo.py:172 | the nested values fail only with unknown keys |
| Schema.CheckValue | xds/core/dynamo.py:172 | a value fails only with unknown keys |
| Schema.CheckItems | xds/core/dynamo.py:172 | the items of a list of maps fail only with unknown keys |
| Schema.CheckFieldsIff | xds/core/dynamo.py:37-39 | the nested values pass exactly when each conforms to its field |
| Schema.CheckValueIff | xds/core/dynamo.py:37-39 | a value passes exactly when it conforms to its field, including maps given to a field typed by a cross-referenced class |
| Schema.CheckItemsIff | xds/core/dynamo.py:37-39 | the items pass exactly when each map item conforms to the item class |
| Schema.CheckNodeIff | xds/core/dynamo.py:37-39 | the converter accepts a map exactly when no key at any level, nested or cross-referenced classes included, is unknown to its class |
| Schema.MissingField | xds/core/dynamo.py:172 | the missing field is the first one with no default and no value; none is missing exactly when every such field is given |
| Schema.InitialAttrs | xds/core/dynamo.py:172 | each attribute takes the input's value where there is one, else its field's default, which it then has |
| Schema.Structure | xds/core/dynamo.py:172 | structuring succeeds only on conforming input and then sets every attribute; non-conforming input fails with the unknown keys; a conforming input can fail only on the first missing field, and with none missing it gives the input's values and the defaults |
| Schema.Obj.constructor | xds/core/dynamo.py:172 | a built object holds its kind and attributes |
| Dynamo.Qualifier | xds/core/dynamo.py:76 | the qualifier is the key at the root and `root.key` below it |
| Dynamo.XrefOf | xds/core/dynamo.py:107 | an xref is a non-empty text stored under `xref` |
| Dynamo.Updated | xds/core/dynamo.py:104-105 | `meta.update(modifier)` keeps the base keys, adds the modifier keys, and lets the modifiers win |
| Dynamo.ClassOf | xds/core/dynamo.py:167-171 | the class is found exactly for a text kind that was compiled; a map or list kind raises TypeError as unhashable; any other kind fails the assertion naming the kind |
| Dynamo.KindOf | xds/core/dynamo.py:167-168 | the kind looked up is the `kind` the input gives, when it gives a text one |
| Dynamo.InstanceUnhashableKind | xds/core/dynamo.py:168 | an input whose kind is a map or a list makes `instance` raise TypeError |
| Dynamo.Dynamo.constructor | xds/core/dynamo.py:41 | a new compiler holds no classes |
| Dynamo.Dynamo.FromData | xds/core/dynamo.py:66-138 | the recursive compile returns and stores what the compile function gives |
| Dynamo.Dynamo.FieldFor | xds/core/dynamo.py:75-112 | one attribute is built as the compile function says |
| Dynamo.Dynamo.TypeOf_ | xds/core/dynamo.py:80-92 | the attribute type is computed, and nested classes compiled, as the compile function says |
| Dynamo.Dynamo.D2C | xds/core/dynamo.py:45-48 | `d2c` compiles the stamped input under its kind, `DynamicClass` by default |
| Dynamo.Dynamo.Instance | xds/core/dynamo.py:165-184 | `instance` succeeds exactly when the instance function does; the object holds its attributes and is of the class its text `kind` names |
| Dynamo.Dynamo.MergeDelegate | xds/core/dynamo.py:177-183 | the loop over the delegate's attributes fails or copies exactly as the merge function says |
| Dynamo.MergedErrSticky | xds/core/dynamo.py:179-181 | once the merge has raised, later delegate attributes change nothing |
| Dynamo.VarsFrom | xds/core/dynamo.py:94 | the vars of the keys are exactly what `xlate` makes of them |
| Dynamo.VarsFromStep | xds/core/dynamo.py:74 | the vars from one entry on are its var plus the vars of the rest |
| Dynamo.CompileFieldsStep | xds/core/dynamo.py:74-112 | one round of the attribute loop stores the attribute under its var, or stops at its error |
| Dynamo.CompileFieldsKeys | xds/core/dynamo.py:112 | the loop adds one attribute per var and no other |
| Dynamo.CompileNodeOk | xds/core/dynamo.py:114-136 | a compile succeeds exactly when its attributes do and the kind is text, and then stores the class |
| Dynamo.CompiledClassStored | xds/core/dynamo.py:136 | a compiled class is named by the kind and stored under it, replacing an earlier class |
| Dynamo.CompiledClassFields | xds/core/dynamo.py:112-115 | a compiled class has one attribute per var of its keys, plus `nsid` and `uid` |
| Dynamo.CompiledClassIds | xds/core/dynamo.py:114-115 | `nsid` and `uid` keep their fixed definitions even over a same-named key, and come last when no key claims them |
| Dynamo.NodeErrors | xds/core/dynamo.py:66-138 | on kinded input a compile raises only IndexError, TypeError, or the ValueError or AttributeError of a modifier text |
| Dynamo.FieldsErrors | xds/core/dynamo.py:74-112 | the same holds for the attribute loop |
| Dynamo.FieldsErrorsAt | xds/core/dynamo.py:74-112 | the same holds for one round of the loop |
| Dynamo.FieldErrors | xds/core/dynamo.py:75-112 | the same holds for one attribute |
| Dynamo.TypeErrors | xds/core/dynamo.py:80-92 | the same holds for one attribute type |
| Dynamo.D2CErrors | xds/core/dynamo.py:45-48 | `d2c` never fails on a missing `kind` |
| Dynamo.UnkindedFails | xds/core/dynamo.py:81 | a nested map without a kind raises KeyError |
| Dynamo.NodeKeepsModels | xds/core/dynamo.py:136 | a compile never removes a stored class, even when it fails |
| Dynamo.FieldsKeepModels | xds/core/dynamo.py:74-112 | the attribute loop never removes a stored class |
| Dynamo.FieldKeepsModels | xds/core/dynamo.py:75-112 | compiling one attribute never removes a stored class |
| Dynamo.TypeKeepsModels | xds/core/dynamo.py:80-92 | typing one attribute never removes a stored class |
| Dynamo.TypeShapes | xds/core/dynamo.py:80-92 | a map compiles to its own class, a list of maps to a list of the first item's class, an empty list raises, any other list is typed by its first item, and a scalar by itself |
| Dynamo.CompileFieldOk | xds/core/dynamo.py:94-112 | an attribute compiles exactly when its type and modifiers do, and is built from both |
| Dynamo.BaseNamesNotModifiers | xds/core/dynamo.py:95-102 | no modifier is named like a base metadata entry other than `key` |
| Dynamo.BaseMetaEntries | xds/core/dynamo.py:95-102 | the base metadata holds exactly the qualifier, var, alias, key and both types, with their values |
| Dynamo.FieldWithMeta | xds/core/dynamo.py:95-105 | the qualifier, var, alias and both types in the metadata are never overridden; `key` is, by a `key` modifier |
| Dynamo.FieldMeta | xds/core/dynamo.py:94-111 | an attribute's metadata holds its qualifier, var, label, value type and key, and every modifier of a string value |
| Dynamo.FieldTyping | xds/core/dynamo.py:103-110 | an `xref` string refers to the class stored under the full xref text and has no default; any other string defaults to its `default` modifier; other values default to None |
| Dynamo.InstanceUnknownKind | xds/core/dynamo.py:168-171 | an input whose kind names no compiled class fails the factory assertion |
| Dynamo.InstanceClosedWorld | xds/core/dynamo.py:172 | a built instance came from input that conforms to its class at every level, cross-referenced classes included |
| Dynamo.FirstClash | xds/core/dynamo.py:178 | the first delegate attribute the class already has, or none |
| Dynamo.MergedFails | xds/core/dynamo.py:177-181 | the merge fails exactly when some delegate attribute is also a class attribute, and names the first |
| Dynamo.FirstClashPrefix | xds/core/dynamo.py:177-178 | the first clash of a list is the first clash of its prefix or its last element |
| Dynamo.MergedCopies | xds/core/dynamo.py:182-183 | a successful merge copies every public delegate attribute, keeps every other attribute and adds nothing else |
| ClsFactory.FldFlags | xds/core/cls_factory.py:55-77 | a non-string has no flags; a string always gets `testing`, the title-cased key |
| ClsFactory.FlagsOfSpec | xds/core/cls_factory.py:71-75 | a flag is set exactly when the pattern of some row naming it occurs, and takes the value of the last such row |
| ClsFactory.FlagRows | xds/core/cls_factory.py:59-70 | only the four type rows share a flag name, and every other row sets True |
| ClsFactory.FldFlagsOfString | xds/core/cls_factory.py:58-76 | each flag but `type` is True exactly when its pattern occurs in the stripped, lower-cased text; `type` is the last type pattern found; nothing else is set |
| ClsFactory.CommaSplit | xds/core/cls_factory.py:87-88 | a text holding a comma becomes the list of its pieces, at least two; anything else is kept |
| ClsFactory.MetaOf | xds/core/cls_factory.py:101-105 | the metadata holds the title-cased key and lower-cased qualifier, updated with the flags |
| ClsFactory.ClassFactory.constructor | xds/core/cls_factory.py:31 | a new factory holds no classes |
| ClsFactory.ClassFactory.FromData | xds/core/cls_factory.py:79-111 | the recursive compile returns and stores what the compile function gives |
| ClsFactory.ClassFactory.FieldFor | xds/core/cls_factory.py:83-107 | one attribute is built as the compile function says |
| ClsFactory.ClassFactory.TypeOf_ | xds/core/cls_factory.py:87-99 | the attribute type is computed, and nested classes compiled, as the compile function says |
| ClsFactory.ClassFactory.D2C | xds/core/cls_factory.py:34-37 | `d2c` compiles the stamped input under its kind |
| ClsFactory.ClassFactory.Instance | xds/core/cls_factory.py:139-145 | `instance` succeeds exactly when the instance function does; the object holds its attributes and is of the class its text `kind` names |
| ClsFactory.InstanceUnhashableKind | xds/core/cls_factory.py:142 | an input whose kind is a map or a list makes `instance` raise TypeError |
| ClsFactory.CompileFieldsStep | xds/core/cls_factory.py:82-107 | one round of the loop stores the attribute under its raw key, or stops at its error |
| ClsFactory.CompileNodeOk | xds/core/cls_factory.py:109-111 | a compile succeeds exactly when its attributes do and the kind is text, and then stores the class |
| ClsFactory.KeysFrom | xds/core/cls_factory.py:82 | the keys from one entry on are exactly the keys of those entries |
| ClsFactory.KeysFromStep | xds/core/cls_factory.py:82 | the keys from one entry on are its key plus the keys of the rest |
| ClsFactory.CompileFieldsKeys | xds/core/cls_factory.py:107 | the loop adds one attribute per raw key and no other |
| ClsFactory.CompileFieldsDefaults | xds/core/cls_factory.py:106 | the loop keeps the first attribute first and gives every attribute the default None |
| ClsFactory.CompiledClass | xds/core/cls_factory.py:80-110 | a compiled class is stored under its kind, has `context` first and one attribute per key, each defaulting to None |
| ClsFactory.FieldShape | xds/core/cls_factory.py:101-106 | an attribute defaults to None, and its metadata holds the title-cased key and lower-cased qualifier plus the flags, which override neither |
| ClsFactory.FlagsNotBase | xds/core/cls_factory.py:59-76 | no flag is named `annotations` or `qualifier` |
| ClsFactory.FieldTyping | xds/core/cls_factory.py:87-99 | a text with a comma is a list of strings, any other text a string; an empty list raises; a list of scalars is typed by its first item |
| ClsFactory.NodeErrors | xds/core/cls_factory.py:79-111 | on kinded input a compile raises only an IndexError or a TypeError |
| ClsFactory.FieldsErrors | xds/core/cls_factory.py:82-107 | the same holds for the attribute loop |
| ClsFactory.FieldsErrorsAt | xds/core/cls_factory.py:82-107 | the same holds for one round of the loop |
| ClsFactory.TypeErrors | xds/core/cls_factory.py:89-99 | the same holds for one attribute type |
| ClsFactory.D2CErrors | xds/core/cls_factory.py:34-37 | `d2c` never fails on a missing `kind` |
| ClsFactory.InstanceUnknownKind | xds/core/cls_factory.py:142-143 | an input whose kind names no compiled class fails the factory assertion |
| ClsFactory.InstanceClosedWorld | xds/core/cls_factory.py:144 | a built instance came from input that conforms to its class at every level, cross-referenced classes included |
| Registry.ModelObj.constructor | xds/core/registry.py:72-79 | a class as registered, whose `nsid` is not yet written |
| Registry.NsText | xds/core/registry.py:75 | `obj.ns` exists exactly when the instance has that attribute; otherwise AttributeError |
| Registry.EndingWith | xds/core/registry.py:99 | the fuzzy candidates are exactly the registered paths ending with the last segment, without repeats |
| Registry.ModelOf | xds/core/registry.py:105-108 | a miss fails, listing the registered class names |
| Registry.ModelPathNeverRaises | xds/core/registry.py:88-91 | a `models/` path never makes the lookup raise |
| Registry.Registry.constructor | xds/core/registry.py:15-17 | a new registry is empty, so every path in it is registered once |
| Registry.Registry.RegisterModel | xds/core/registry.py:71-73 | a class is stored under its lower-cased name and path, which is written onto it; instances are unchanged, and every path stays registered once |
| Registry.Registry.RegisterInstance | xds/core/registry.py:74-79 | an instance is stored under `<class>/<ns>`, lower-cased, and its path written onto it; without `ns` nothing changes and AttributeError is raised; every path stays registered once |
| Registry.LocateExact | xds/core/registry.py:83-85 | an exact hit on the lower-cased path wins over every fallback |
| Registry.LocateModels | xds/core/registry.py:87-91 | the `models/` fallback looks the next segment up as written, not lower-cased, and a miss is final |
| Registry.LocateOther | xds/core/registry.py:103 | outside the two prefixes, a miss on the exact path gives None |
| Registry.LocateRaises | xds/core/registry.py:93-94 | the lookup raises exactly for an `instances/` path of fewer than three segments, with IndexError |
| Registry.LocateInstances | xds/core/registry.py:93-96 | the `instances/` fallback looks up `<second>/<third>` |
| Registry.EndingWithOne | xds/core/registry.py:99-100 | with distinct paths, exactly one candidate is found exactly when one path alone ends with the segment |
| Registry.LocateLast | xds/core/registry.py:93-103 | when both lookups miss an `instances/` path, the result is the entry of the one path ending in its last segment, or None |
| Registry.PickOnlyEnding | xds/core/registry.py:99-102 | in a registry of distinct paths, taking the only path that ends in a segment finds an entry exactly when one path so ends, and that path's entry |
| Registry.LocateFuzzy | xds/core/registry.py:97-103 | when both lookups miss, the result is the one path ending in the last segment, and None when there are none or several |
| Registry.LowerAppend | xds/core/registry.py:72 | lower-casing distributes over concatenation |
| Registry.RegisteredModelFound | xds/core/registry.py:105-108 | a registered class is found by `model` under its name written in any case |
| Registry.RegisteredInstanceFound | xds/core/registry.py:110-111 | a registered instance is found at its path written in any case |
| Registry.RegistrationKeepsOthers | xds/core/registry.py:78 | a registration leaves every other path naming what it named |
| Dates.DaysIn | xds/utils/dates.py:53-55 | a month has 28 to 31 days, and 29 exactly for February of a leap year |
| Dates.Weekday | xds/utils/dates.py:57 | `weekday()` lies between 0 and 6 |
| Dates.MonthLength | xds/utils/dates.py:53-55 | each month starts where the previous one ends, and December ends the year |
| Dates.NextDayOrdinal | xds/utils/dates.py:32 | the next day is valid and one ordinal on |
| Dates.PrevDayOrdinal | xds/utils/dates.py:32 | the previous day is valid and one ordinal back |
| Dates.AddDaysOrdinal | xds/utils/dates.py:32 | adding `n` days gives a valid date `n` ordinals on |
| Dates.WeekdayShift | xds/utils/dates.py:58 | adding `n` days moves the weekday by `n` modulo 7 |
| Dates.OrdinalInjective | xds/utils/dates.py:32 | distinct valid dates have distinct ordinals |
| Dates.AddDaysExact | xds/utils/dates.py:32 | adding `n` days gives the one valid date `n` ordinals on |
| Dates.AddMonths | xds/utils/dates.py:36 | adding months moves year and month together, and clamps the day to the target month |
| Dates.QuarterEnd | xds/utils/dates.py:37-42 | the quarter end is a valid date |
| Dates.QuarterEndSpec | xds/utils/dates.py:37-42 | the quarter end lies in the quarter `3n` months on, on its last day |
| Dates.Dated | xds/utils/dates.py:27-44 | `dated` gives a valid date exactly for the units T, D, W, M, Q and Y |
| Dates.DatedSpec | xds/utils/dates.py:29-44 | T keeps the date, D moves by days, M by clamped months, Q to a quarter's last day, and Y to December 31 of the same year |
| Dates.DatedWeeks | xds/utils/dates.py:33-34 | W moves by whole weeks and keeps the weekday |
| Dates.WeekendStep | xds/utils/dates.py:57-58 | each round of the business-day loop leaves fewer weekend days to step over |
| Dates.ToWeekday | xds/utils/dates.py:56-58 | the business-day loop ends on a weekday, and a weekday stays put |
| Dates.ToWeekdayStep | xds/utils/dates.py:57-58 | one weekend step moves the weekday by the sign |
| Dates.SaturdayForward | xds/utils/dates.py:56-58 | forwards, Saturday gives the Monday after |
| Dates.SundayForward | xds/utils/dates.py:56-58 | forwards, Sunday gives the Monday after |
| Dates.SaturdayBackward | xds/utils/dates.py:56-58 | backwards, Saturday gives the Friday before |
| Dates.SundayBackward | xds/utils/dates.py:56-58 | backwards, Sunday gives the Friday before |
| Dates.Moved | xds/utils/dates.py:47-59 | a date that `move_date` returns is valid |
| Dates.MonthEnd | xds/utils/dates.py:53-55 | the day before the first of next month is a valid date |
| Dates.EndOfMonth | xds/utils/dates.py:53-55 | the day before the first of next month is the last day of this month |
| Dates.MovedSpec | xds/utils/dates.py:47-59 | E with S fails; S gives the first day and E the last day of the month; B then steps to a weekday; with none of them the date is kept |
| Dates.SkipWeekend | xds/utils/dates.py:56-58 | the loop steps by the sign to the first weekday |
| Dates.MoveDate | xds/utils/dates.py:47-59 | `move_date`, step by step, gives what the move function gives |
| Dates.Run | xds/utils/dates.py:7 | a starred group's run stays inside the pattern |
| Dates.RunSpan | xds/utils/dates.py:7 | the run covers only characters of its class and stops at the first other one |
| Dates.RunEnds | xds/utils/dates.py:7 | a run ends at the first character outside its class |
| Dates.ParseLettersOnly | xds/utils/dates.py:7 | with neither sign nor digits, the leading group also takes the unit letter |
| Dates.ParseSignedOrCounted | xds/utils/dates.py:16 | with a sign or digits, each group takes its own piece |
| Dates.ParseShape | xds/utils/dates.py:13-20 | the unit is the trailing letter, else the leading letter, else D; the count is the digits, 0 without any, negated by `-` |
| Dates.DateModifierOutcome | xds/utils/dates.py:10-59 | a shortcut fails exactly when it names both E and S or its unit is one `dated` does not know (a leading letter group ending in B with no unit letter after it); otherwise it gives a valid date. With such a unit the error is `move_date`'s on a raw S, E or B in the pattern, else the one `strftime` raises |
| DateShortcuts.BareBusinessDay | xds/utils/dates.py:56-57 | `B` leaves no date and `move_date` raises AttributeError on `weekday` |
| DateShortcuts.TodayBusinessDay | xds/utils/dates.py:7-19 | the leading group keeps its last letter, so `TB` fails the same way |
| DateShortcuts.LowerBusinessDay | xds/utils/dates.py:13-24 | `b` is upper-cased only for the match, so `move_date` passes None on and `strftime` raises AttributeError |
| Text.NatToStringValue | xds/utils/dates.py:24 | the decimal digits of `n` read back as `n` |
| Dates.Pad2 | xds/utils/dates.py:24 | a month or day prints as two digits that read back as itself |
| Dates.FormatReadsBack | xds/utils/dates.py:24 | for a four-digit year the text is `YYYY-MM-DD`, and each field reads back as the date's own |
| DateShortcuts.ShortcutToday | xds/utils/dates.py:29-30 | `T` gives the base date |
| DateShortcuts.ShortcutNextDay | xds/utils/dates.py:31-32 | `1` gives the next day |
| DateShortcuts.ShortcutPriorDay | xds/utils/dates.py:31-32 | `-1` gives the previous day |
| DateShortcuts.ShortcutPriorTwoBusinessDays | xds/utils/dates.py:56-58 | `-2B` goes two days back, then back to a weekday |
| DateShortcuts.ShortcutMonthStart | xds/utils/dates.py:50-51 | `S` gives the first of the month |
| DateShortcuts.ShortcutMonthEnd | xds/utils/dates.py:52-55 | `ME` gives the last day of the month |
| DateShortcuts.ShortcutNextMonth | xds/utils/dates.py:35-36 | `1M` gives the same day next month, clamped |
| DateShortcuts.ShortcutMonthEndThreeMonths | xds/utils/dates.py:35-36 | `3ME` gives the last day of the month three months on |
| DateShortcuts.ShortcutQuarterEnd | xds/utils/dates.py:37-42 | `QE` gives the last day of the current quarter |
| DateShortcuts.ShortcutFirstQuarterAfter | xds/utils/dates.py:37-42 | `1QE` gives the last day of the next quarter |
| DateShortcuts.ShortcutTwoQuartersAfter | xds/utils/dates.py:37-42 | `2QE` gives the last day of the quarter after next |
| DateShortcuts.ShortcutYearEnd | xds/utils/dates.py:43-44 | `YE` gives December 31 of the same year |
| DateShortcuts.TodayFromNov10 | tests/test_utils.py:17 | `T` from 2024-11-10 gives 2024-11-10 |
| DateShortcuts.NextDayFromNov10 | tests/test_utils.py:18 | `1` from 2024-11-10 gives 2024-11-11 |
| DateShortcuts.PriorDayFromNov10 | tests/test_utils.py:19 | `-1` from 2024-11-10 gives 2024-11-09 |
| DateShortcuts.PriorTwoBusinessDaysFromNov10 | tests/test_utils.py:20 | `-2B` from 2024-11-10 gives 2024-11-08 |
| DateShortcuts.MonthStartFromNov10 | tests/test_utils.py:21 | `S` from 2024-11-10 gives 2024-11-01 |
| DateShortcuts.MonthEndFromNov10 | tests/test_utils.py:22 | `ME` from 2024-11-10 gives 2024-11-30 |
| DateShortcuts.NextMonthFromNov10 | tests/test_utils.py:23 | `1M` from 2024-11-10 gives 2024-12-10 |
| DateShortcuts.MonthEndThreeMonthsFromNov10 | tests/test_utils.py:24 | `3ME` from 2024-11-10 gives 2025-02-28 |
| DateShortcuts.QuarterEndFromNov10 | tests/test_utils.py:25 | `QE` from 2024-11-10 gives 2024-12-31 |
| DateShortcuts.FirstQuarterAfterFromNov10 | tests/test_utils.py:26 | `1QE` from 2024-11-10 gives 2025-03-31 |
| DateShortcuts.TwoQuartersAfterFromNov10 | tests/test_utils.py:27 | `2QE` from 2024-11-10 gives 2025-06-30 |
| DateShortcuts.YearEndFromNov10 | tests/test_utils.py:28 | `YE` from 2024-11-10 gives 2024-12-31 |
| DateShortcuts.TodayFromFeb29 | tests/test_utils.py:31 | `T` from 2024-02-29 gives 2024-02-29 |
| DateShortcuts.NextDayFromFeb29 | tests/test_utils.py:32 | `1` from 2024-02-29 gives 2024-03-01 |
| DateShortcuts.PriorDayFromFeb29 | tests/test_utils.py:33 | `-1` from 2024-02-29 gives 2024-02-28 |
| DateShortcuts.PriorTwoBusinessDaysFromFeb29 | tests/test_utils.py:34 | `-2B` from 2024-02-29 gives 2024-02-27 |
| DateShortcuts.MonthStartFromFeb29 | tests/test_utils.py:35 | `S` from 2024-02-29 gives 2024-02-01 |
| DateShortcuts.MonthEndFromFeb29 | tests/test_utils.py:36 | `ME` from 2024-02-29 gives 2024-02-29 |
| DateShortcuts.NextMonthFromFeb29 | tests/test_utils.py:37 | `1M` from 2024-02-29 gives 2024-03-29 |
| DateShortcuts.MonthEndThreeMonthsFromFeb29 | tests/test_utils.py:38 | `3ME` from 2024-02-29 gives 2024-05-31 |
| DateShortcuts.QuarterEndFromFeb29 | tests/test_utils.py:39 | `QE` from 2024-02-29 gives 2024-03-31 |
| DateShortcuts.FirstQuarterAfterFromFeb29 | tests/test_utils.py:40 | `1QE` from 2024-02-29 gives 2024-06-30 |
| DateShortcuts.TwoQuartersAfterFromFeb29 | tests/test_utils.py:41 | `2QE` from 2024-02-29 gives 2024-09-30 |
| DateShortcuts.YearEndFromFeb29 | tests/test_utils.py:42 | `YE` from 2024-02-29 gives 2024-12-31 |

## Where the code and its description differ

The model follows the code in each case below.

- **Several type keywords.** `field_spec` calls `.keys()` on a list at
  xds/core/field.py:68. So several type keywords raise AttributeError, not the ValueError
  the message was meant for. The model raises AttributeError (`Field.ResolveTooManyTypes`).
- **xref lookup.** The reference is looked up in `models` under the full `xref` text
  (xds/core/dynamo.py:108). It is not looked up under a bare class name. It refers to None
  until a class of that exact name is compiled.
- **`locator` can raise.** It raises IndexError for an `instances/` path with fewer than
  three segments (xds/core/registry.py:94); it does not always return None.
- **Leading `B`.** When the leading letter group of a date shortcut ends in `B` and no
  unit letter follows (`B`, `TB`, `DB`, `BE`, ...), `dated` falls through and returns None.
  `move_date` then raises on a raw `S`, `E` or `B` in the pattern: AttributeError for
  `replace` or `weekday`, TypeError for the `relativedelta` addition. Otherwise, as for
  `b`, `strftime` on None raises AttributeError. The model gives each of these errors.
- **Unreachable error branch.** The "Invalid date shortcut format" branch of
  xds/utils/dates.py:14-15 cannot be taken. Every group of the pattern is starred, so
  `re.match` always matches, possibly the empty prefix.
- **Registry truthiness.** The truthiness tests of `locator` never reject a registered
  entry, because no class or instance is falsy. The model treats every hit as found.

## Left out

- In-place mutation and aliasing. `_if_missing_cls` is modelled as a function on values
  (`Data.Stamp`). The model does not capture that the caller's dict is mutated or shared.
- Float values are kept as their text. `float(text)` is neither parsed nor rounded.
- Coercing a default or allow-list to `date`, `time`, `dt`, `kw` or a `List[...]` alias is
  modelled as the TypeError those callables raise on a string. Their other behaviour is
  not modelled.
- The string, tuple, set and list structure hooks registered by `_cls_converter` are left
  out: the date parsing and comma splitting of strings during `instance`. They are live
  only in `ClassFactory`; in `Dynamo` the converter they are registered on is replaced at
  once by a plain `forbid_extra_keys` converter (xds/core/dynamo.py:36-39).
- Schema.Structure, Schema.InitialAttrs: cattrs' conversion of a value to a field's plain
  type (`int('abc')` raising on an int field, `str(5)` on a str field) is not modelled. An
  attribute keeps the loaded value, and a conforming input fails only on a missing field.
- `_cls_converter` itself is left out, and so are cattrs' grouping of several errors and
  the order in which it reports them. The model reports the unknown keys first, then the
  first missing field.
- Nested values, list items that are maps, and maps given to a field typed by a
  cross-referenced class are checked under the closed-world rule but are not structured
  into nested objects. An attribute holds the loaded value.
- Data.Yaml: map keys are modelled as text only. A non-text YAML key makes `xlate(key)`
  raise TypeError in `re.sub` (xds/core/dynamo.py:94) and `key.title()` raise
  AttributeError (xds/core/cls_factory.py:102); these errors are not modelled.
- Schema.CheckValue: a scalar or a list given to a field typed by a nested or
  cross-referenced class is not rejected, because how cattrs fails there depends on
  the structure hooks, which are left out.
- Field.CmpValue, Field.QueryOperation: operands are integers and lists of integers.
  Comparisons of text or other values, and the TypeError Python raises when ordering
  values of mixed types, are not modelled.
- Field.CoerceInt: the non-ASCII decimal digits that `int()` also accepts are not
  modelled. Underscores between digits and Unicode white space are.
- File, YAML, JSON and URL loading are left out. This covers `input_dict`, `parse_content`,
  `io_stream`, `io_path`, `read_yaml`, `read_json` and `urlparse`/`parse_qs`. The model
  starts from the loaded value or the parsed query. `input_dict`'s guard against several
  sources fires only when all three of `file`, `content` and `url` are given; it is not
  modelled.
- The query given to `parse_nested_qs` is a list of key/values pairs in the order
  `parse_qs` produced; how `parse_qs` decodes a URL is not modelled.
- `\w`, `lower`, `upper` and `title` are modelled for ASCII letters. Every character beyond
  ASCII counts as a word character and is left uncased. `strip()` uses Python's full set
  of white-space characters.
- `attr.make_class` is modelled only as far as it needs a text name. Its check that
  attribute names are identifiers, and the generated class object, are not modelled.
- The delegate built by `cls.proxy(**kwargs)` is given as its list of attributes. The
  names the class answers to (`hasattr(cls, name)`) are given as a set, because they
  depend on attrs internals.
- `cls2py` with `_get_subfields` and `_extract_field_info`, the Jinja template, `SingletonMeta`, the `_info` printout, `_proxy_getattr`
  and `_proxy_setattr` are left out.
- `Registry.__attrs_post_init__`, `_env_init`, `_model_init`, `instance` and `_inst_file`
  are left out, since they read files. `_ns_init` and the lookups are modelled on what
  those would register.
- `f'{obj.ns}'` is modelled for the scalar values an attribute can hold. Other values get
  a placeholder text.
- `date.today()` and `strptime` are left out: the base date is a parameter.
- Years are not limited to 1..9999, so `date`'s OverflowError at the ends of that range is
  not modelled.
- `Dates.FormatReadsBack`: stated only for four-digit years, where `strftime` needs no
  padding of the year.
- `\d` is modelled as the ASCII digits.
- The `[SE]` group of the date pattern is only logged in the source, and the model does
  not keep it. `E`, `S` and `B` are looked for in the raw pattern, as the code does.
- `ic()` and `log.info` calls are left out, since they only log.
- The `field_spec` fixtures of tests/test_utils.py:45-96 are not restated one by one as
  concrete lemmas. The general lemmas of `Field` state the behaviour they check.
- `df_pytypes`, `is_pivot`, `flat`, `pprint_obj`, `icf` and the logger and boot modules
  are not part of this model.
