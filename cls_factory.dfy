/**
 * The older schema compiler of xds/core/cls_factory.py. It shares kind stamping, the
 * closed-world rule and the class lookup with the newer one, but keys attributes by the
 * raw key, adds a `context` attribute first, gives every attribute the default None,
 * reads flags off `/pattern` substrings instead of the modifier grammar, and turns a
 * string holding a comma into a list of strings before typing it.
 */
module ClsFactory {
  import opened Wrappers
  import opened Text
  import opened Data
  import Field
  import opened Schema
  import Dynamo

  type Classes = map<string, Schema>

  /** The `context` attribute every class starts with: a dict defaulting to None. */
  const ContextField: FieldDef := FieldDef(Prim(Field.DictT), DefaultTo(Field.Null), map[])

  // ---------------------------------------------------------------------------------
  // _fld_flags

  /** The flag table: a `/pattern` substring, the flag it sets and the value it sets. */
  const FlagTable: seq<(string, string, MetaVal)> := [
    ("/req", "required", Flag(true)),
    ("/int", "type", Text("int")),
    ("/float", "type", Text("float")),
    ("/bool", "type", Text("bool")),
    ("/date", "type", Text("date")),
    ("/unique", "unique", Flag(true)),
    ("/key", "key", Flag(true)),
    ("/default", "default", Flag(true)),
    ("/ro", "ro", Flag(true)),
    ("/hide", "hidden", Flag(true))
  ]

  /** The flags of the rows of `table` whose pattern occurs in `v`, a later row winning. */
  function FlagsOf(v: string, table: seq<(string, string, MetaVal)>): (r: map<string, MetaVal>)
    decreases |table|
  {
    if table == [] then map[]
    else
      var acc := FlagsOf(v, table[..|table| - 1]);
      var (pattern, flag, value) := table[|table| - 1];
      if Occurs(pattern, v) then acc[flag := value] else acc
  }

  /** `_fld_flags(key, value)`. */
  function FldFlags(key: string, value: Yaml): (r: map<string, MetaVal>)
    ensures !value.Str? ==> r == map[]
    ensures value.Str? ==> "testing" in r && r["testing"] == Text(Title(key))
  {
    if !value.Str? then map[]
    else FlagsOf(Lower(Strip(value.s)), FlagTable)["testing" := Text(Title(key))]
  }

  /**
   * A flag is set exactly when the pattern of some row naming it occurs, and then holds
   * the value of the last such row.
   */
  lemma {:induction false} FlagsOfSpec(v: string, table: seq<(string, string, MetaVal)>, flag: string)
    ensures flag in FlagsOf(v, table) <==> exists j :: 0 <= j < |table| && table[j].1 == flag && Occurs(table[j].0, v)
    ensures flag in FlagsOf(v, table) ==> exists j :: (0 <= j < |table| && table[j].1 == flag && Occurs(table[j].0, v) &&
      FlagsOf(v, table)[flag] == table[j].2 &&
      forall j' :: j < j' < |table| && table[j'].1 == flag ==> !Occurs(table[j'].0, v))
    decreases |table|
  {
    if table != [] {
      var init := table[..|table| - 1];
      FlagsOfSpec(v, init, flag);
      assert forall j :: 0 <= j < |init| ==> init[j] == table[j];
    }
  }

  /** The rows that name a flag other than `type`: one row each. */
  lemma FlagRows()
    ensures forall j :: 0 <= j < |FlagTable| ==> (FlagTable[j].1 == "type" <==> 1 <= j <= 4)
    ensures forall j :: 0 <= j < |FlagTable| && FlagTable[j].1 != "type" ==> FlagTable[j].2 == Flag(true)
    ensures forall j, j' :: 0 <= j < j' < |FlagTable| && FlagTable[j].1 == FlagTable[j'].1 ==> 1 <= j < j' <= 4
  {
  }

  /**
   * Flag matching on a string: every flag but `type` is True exactly when its pattern
   * occurs in the stripped, lower-cased value; `type` is the type word of the last
   * matching pattern of `/int`, `/float`, `/bool`, `/date`; `testing` is always the
   * title-cased key; nothing else is set.
   */
  lemma FldFlagsOfString(key: string, s: string)
    ensures var r := FldFlags(key, Str(s));
      var v := Lower(Strip(s));
      (forall j :: 0 <= j < |FlagTable| && FlagTable[j].1 != "type" ==>
        (FlagTable[j].1 in r <==> Occurs(FlagTable[j].0, v)) &&
        (FlagTable[j].1 in r ==> r[FlagTable[j].1] == Flag(true))) &&
      ("type" in r <==> exists j :: 1 <= j <= 4 && Occurs(FlagTable[j].0, v)) &&
      ("type" in r ==> exists j :: (1 <= j <= 4 && Occurs(FlagTable[j].0, v) && r["type"] == FlagTable[j].2 &&
        forall j' :: j < j' <= 4 ==> !Occurs(FlagTable[j'].0, v))) &&
      (forall k :: k in r ==> k == "testing" || exists j :: 0 <= j < |FlagTable| && FlagTable[j].1 == k)
  {
    var v := Lower(Strip(s));
    FlagRows();
    forall j | 0 <= j < |FlagTable| && FlagTable[j].1 != "type"
      ensures FlagTable[j].1 in FlagsOf(v, FlagTable) <==> Occurs(FlagTable[j].0, v)
      ensures FlagTable[j].1 in FlagsOf(v, FlagTable) ==> FlagsOf(v, FlagTable)[FlagTable[j].1] == Flag(true)
    {
      FlagsOfSpec(v, FlagTable, FlagTable[j].1);
    }
    FlagsOfSpec(v, FlagTable, "type");
    forall k | k in FldFlags(key, Str(s)) && k != "testing"
      ensures exists j :: 0 <= j < |FlagTable| && FlagTable[j].1 == k
    {
      FlagsOfSpec(v, FlagTable, k);
    }
  }

  // ---------------------------------------------------------------------------------
  // _from_data, as functions of the input and the classes table

  /** A string holding a comma becomes the list of its comma-separated pieces. */
  function CommaSplit(val: Yaml): (r: Yaml)
    ensures val.Str? && ',' in val.s ==> (r.List? && |r.items| >= 2 &&
      (forall n :: 0 <= n < |r.items| ==> r.items[n].Str? && ',' !in r.items[n].s) &&
      Join(seq(|r.items|, n requires 0 <= n < |r.items| => r.items[n].s), [',']) == val.s)
    ensures !(val.Str? && ',' in val.s) ==> r == val
  {
    if val.Str? && ',' in val.s then
      var parts := Split(val.s, ',');
      SplitAtSeparator(val.s, ',');
      SplitLacksSeparator(val.s, ',');
      JoinSplit(val.s, ',');
      var r := List(seq(|parts|, n requires 0 <= n < |parts| => Str(parts[n])));
      assert seq(|r.items|, n requires 0 <= n < |r.items| => r.items[n].s) == parts;
      r
    else val
  }

  /** `_from_data(name, data, root)`. */
  function CompileNode(kind: Yaml, node: Yaml, root: string, classes: Classes): Dynamo.Step<Schema>
    requires node.Map?
    decreases node, 1
  {
    var s := CompileFields(node, 0, root, classes, [("context", ContextField)]);
    if s.r.Err? then Dynamo.Step(Err(s.r.error), s.models)
    else match ClassName(kind)
      case Err(e) => Dynamo.Step(Err(e), s.models)
      case Ok(name) =>
        var schema := Schema(name, s.r.value);
        Dynamo.Step(Ok(schema), s.models[name := schema])
  }

  /** The attributes of `node` from entry `i` on, added to `acc` under their keys. */
  function CompileFields(node: Yaml, i: nat, root: string, classes: Classes, acc: seq<(string, FieldDef)>): Dynamo.Step<seq<(string, FieldDef)>>
    requires node.Map? && i <= |node.entries|
    decreases node, 0, |node.entries| - i
  {
    if i == |node.entries| then Dynamo.Step(Ok(acc), classes)
    else
      var (key, val) := node.entries[i];
      var f := CompileField(key, val, root, classes);
      if f.r.Err? then Dynamo.Step(Err(f.r.error), f.models)
      else CompileFields(node, i + 1, root, f.models, Put(acc, key, f.r.value))
  }

  /** The type of the attribute for `val`, once a string holding a comma is split. */
  function TypeFor(val: Yaml, qualifier: string, classes: Classes): Dynamo.Step<FieldType>
    decreases val, 2
  {
    var value := CommaSplit(val);
    match value
    case Map(es) =>
      var kind := Get(es, "kind");
      if kind.None? then Dynamo.Step(Err(KeyError("kind")), classes)
      else
        var s := CompileNode(kind.value, value, qualifier, classes);
        Dynamo.Step(if s.r.Ok? then Ok(Nested(s.r.value)) else Err(s.r.error), s.models)
    case List(xs) =>
      if xs != [] && xs[0].Map? then
        var kind := Get(xs[0].entries, "kind");
        if kind.None? then Dynamo.Step(Err(KeyError("kind")), classes)
        else
          var s := CompileNode(kind.value, xs[0], qualifier, classes);
          Dynamo.Step(if s.r.Ok? then Ok(NestedList(s.r.value)) else Err(s.r.error), s.models)
      else if xs == [] then Dynamo.Step(Err(IndexError("list index out of range")), classes)
      else Dynamo.Step(Ok(PrimList(TypeOf(xs[0]))), classes)
    case _ => Dynamo.Step(Ok(Prim(TypeOf(value))), classes)
  }

  /** The metadata: the title-cased key and lower-cased qualifier, updated with the flags. */
  function MetaOf(key: string, qualifier: string, flags: map<string, MetaVal>): (m: map<string, MetaVal>)
    ensures m.Keys == {"annotations", "qualifier"} + flags.Keys
    ensures forall k :: k in flags ==> m[k] == flags[k]
    ensures "annotations" !in flags ==> m["annotations"] == Text(Title(key))
    ensures "qualifier" !in flags ==> m["qualifier"] == Text(Lower(qualifier))
  {
    map k | k in {"annotations", "qualifier"} + flags.Keys ::
      if k in flags then flags[k] else if k == "annotations" then Text(Title(key)) else Text(Lower(qualifier))
  }

  /** The attribute for `key: val`. */
  function CompileField(key: string, val: Yaml, root: string, classes: Classes): Dynamo.Step<FieldDef>
    decreases val, 3
  {
    var qualifier := Dynamo.Qualifier(root, key);
    var flags := FldFlags(key, val);
    var t := TypeFor(val, qualifier, classes);
    if t.r.Err? then Dynamo.Step(Err(t.r.error), t.models)
    else Dynamo.Step(Ok(FieldDef(t.r.value, DefaultTo(Field.Null), MetaOf(key, qualifier, flags))), t.models)
  }

  /** `d2c`: the stamped input compiled under its own kind, `DynamicClass` by default. */
  function D2CStep(data: seq<(string, Yaml)>, classes: Classes): Dynamo.Step<Schema> {
    var stamped := Stamp(DynamicClass, Map(data));
    StampMap(DynamicClass, data);
    CompileNode(Get(stamped.entries, "kind").GetOr(Str(DynamicClass)), stamped, "", classes)
  }

  /** `instance(...)`: the stamped input structured into the class of its kind. */
  function InstanceOf(classes: Classes, data: seq<(string, Yaml)>): Result<map<string, AttrVal>> {
    var stamped := Stamp(DynamicClass, Map(data));
    StampMap(DynamicClass, data);
    var kind := Get(stamped.entries, "kind").GetOr(Str(DynamicClass));
    var schema :- Dynamo.ClassOf(classes, kind);
    Structure(schema, stamped.entries)
  }

  // ---------------------------------------------------------------------------------
  // The factory object

  class ClassFactory {
    /** The compiled classes, by name. */
    var classes: Classes

    constructor()
      ensures classes == map[]
    {
      classes := map[];
    }

    /** `_from_data(name, data, root)`: compiles the class and stores it in `classes`. */
    method FromData(kind: Yaml, node: Yaml, root: string) returns (r: Result<Schema>)
      requires node.Map?
      modifies this
      ensures Dynamo.Step(r, classes) == CompileNode(kind, node, root, old(classes))
      decreases node, 1
    {
      var attributes: seq<(string, FieldDef)> := [("context", ContextField)];
      var es := node.entries;
      for i := 0 to |es|
        invariant CompileFields(node, 0, root, old(classes), [("context", ContextField)]) ==
          CompileFields(node, i, root, classes, attributes)
      {
        var (key, val) := es[i];
        ghost var before := classes;
        var f := FieldFor(key, val, root);
        if f.Err? {
          assert CompileFields(node, i, root, before, attributes) == Dynamo.Step(Err(f.error), classes);
          r := Err(f.error);
          return;
        }
        attributes := Put(attributes, key, f.value);
      }
      var name := ClassName(kind);
      if name.Err? {
        r := Err(name.error);
        return;
      }
      var schema := Schema(name.value, attributes);
      classes := classes[name.value := schema];
      r := Ok(schema);
    }

    /** The attribute for `key: val`, compiling the nested class first where there is one. */
    method FieldFor(key: string, val: Yaml, root: string) returns (r: Result<FieldDef>)
      modifies this
      ensures Dynamo.Step(r, classes) == CompileField(key, val, root, old(classes))
      decreases val, 3
    {
      var qualifier := Dynamo.Qualifier(root, key);
      var flags := FldFlags(key, val);
      var t := TypeOf_(val, qualifier);
      if t.Err? {
        r := Err(t.error);
        return;
      }
      r := Ok(FieldDef(t.value, DefaultTo(Field.Null), MetaOf(key, qualifier, flags)));
    }

    /**
     * `kws['type']` for `val`, split first when it is a string holding a comma: a nested
     * map or a list of maps is compiled on the spot.
     */
    method TypeOf_(val: Yaml, qualifier: string) returns (r: Result<FieldType>)
      modifies this
      ensures Dynamo.Step(r, classes) == TypeFor(val, qualifier, old(classes))
      decreases val, 2
    {
      var value := CommaSplit(val);
      match value
      case Map(es) =>
        var kind := Get(es, "kind");
        if kind.None? {
          r := Err(KeyError("kind"));
          return;
        }
        var s := FromData(kind.value, value, qualifier);
        r := if s.Ok? then Ok(Nested(s.value)) else Err(s.error);
      case List(xs) =>
        if xs != [] && xs[0].Map? {
          var kind := Get(xs[0].entries, "kind");
          if kind.None? {
            r := Err(KeyError("kind"));
            return;
          }
          var s := FromData(kind.value, xs[0], qualifier);
          r := if s.Ok? then Ok(NestedList(s.value)) else Err(s.error);
        } else if xs == [] {
          r := Err(IndexError("list index out of range"));
        } else {
          r := Ok(PrimList(TypeOf(xs[0])));
        }
      case _ =>
        r := Ok(Prim(TypeOf(value)));
    }

    /** `d2c(...)`: stamps the input and compiles it under its kind. */
    method D2C(data: seq<(string, Yaml)>) returns (r: Result<Schema>)
      modifies this
      ensures Dynamo.Step(r, classes) == D2CStep(data, old(classes))
    {
      var stamped := Stamp(DynamicClass, Map(data));
      StampMap(DynamicClass, data);
      var kind := Get(stamped.entries, "kind").GetOr(Str(DynamicClass));
      r := FromData(kind, stamped, "");
    }

    /** `instance(...)`: builds the object of the input's class. */
    method Instance(data: seq<(string, Yaml)>) returns (r: Result<Obj>)
      ensures r.Ok? <==> InstanceOf(classes, data).Ok?
      ensures r.Ok? ==> fresh(r.value) && r.value.attrs == InstanceOf(classes, data).value
      ensures r.Err? ==> r.error == InstanceOf(classes, data).error
      ensures r.Ok? ==>
        Dynamo.KindOf(data).Str? && Dynamo.KindOf(data).s in classes &&
        r.value.kind == classes[Dynamo.KindOf(data).s].name
    {
      var stamped := Stamp(DynamicClass, Map(data));
      StampMap(DynamicClass, data);
      var kind := Get(stamped.entries, "kind").GetOr(Str(DynamicClass));
      var cls := Dynamo.ClassOf(classes, kind);
      if cls.Err? {
        r := Err(cls.error);
        return;
      }
      var structured := Structure(cls.value, stamped.entries);
      if structured.Err? {
        r := Err(structured.error);
        return;
      }
      var obj := new Obj(cls.value.name, structured.value);
      r := Ok(obj);
    }
  }

  // ---------------------------------------------------------------------------------
  // What a compile produces

  /** One step of the attribute loop. */
  lemma CompileFieldsStep(node: Yaml, i: nat, root: string, classes: Classes, acc: seq<(string, FieldDef)>)
    requires node.Map? && i < |node.entries|
    ensures var f := CompileField(node.entries[i].0, node.entries[i].1, root, classes);
      CompileFields(node, i, root, classes, acc) ==
        if f.r.Err? then Dynamo.Step(Err(f.r.error), f.models)
        else CompileFields(node, i + 1, root, f.models, Put(acc, node.entries[i].0, f.r.value))
  {
  }

  /** A compile succeeds when its attributes do and the kind is text, and then stores the class. */
  lemma CompileNodeOk(kind: Yaml, node: Yaml, root: string, classes: Classes)
    requires node.Map?
    ensures var s := CompileNode(kind, node, root, classes);
      var f := CompileFields(node, 0, root, classes, [("context", ContextField)]);
      (s.r.Ok? <==> f.r.Ok? && kind.Str?) &&
      (s.r.Ok? ==> s.r.value == Schema(kind.s, f.r.value) && s.models == f.models[kind.s := s.r.value])
  {
  }

  /** The keys of `node` from entry `i` on. */
  function KeysFrom(node: Yaml, i: nat): (ks: set<string>)
    requires node.Map? && i <= |node.entries|
    ensures forall k :: k in ks <==> exists n :: i <= n < |node.entries| && node.entries[n].0 == k
  {
    set n | i <= n < |node.entries| :: node.entries[n].0
  }

  lemma KeysFromStep(node: Yaml, i: nat)
    requires node.Map? && i < |node.entries|
    ensures KeysFrom(node, i) == {node.entries[i].0} + KeysFrom(node, i + 1)
  {
  }

  /** A defaultless attribute never arises: every attribute defaults to None. */
  predicate AllDefaultNone(fields: seq<(string, FieldDef)>) {
    forall n :: 0 <= n < |fields| ==> fields[n].1.default == DefaultTo(Field.Null)
  }

  /** The attribute loop adds one attribute per raw key and no other. */
  lemma {:induction false} CompileFieldsKeys(node: Yaml, i: nat, root: string, classes: Classes, acc: seq<(string, FieldDef)>)
    requires node.Map? && i <= |node.entries|
    ensures var s := CompileFields(node, i, root, classes, acc);
      s.r.Ok? ==> KeySet(s.r.value) == KeySet(acc) + KeysFrom(node, i)
    decreases |node.entries| - i
  {
    if i < |node.entries| {
      var key := node.entries[i].0;
      var f := CompileField(key, node.entries[i].1, root, classes);
      CompileFieldsStep(node, i, root, classes, acc);
      if f.r.Ok? {
        PutKeySet(acc, key, f.r.value);
        CompileFieldsKeys(node, i + 1, root, f.models, Put(acc, key, f.r.value));
        KeysFromStep(node, i);
      }
    }
  }

  /**
   * The attribute loop keeps the first attribute in first place and gives every attribute
   * the default None.
   */
  lemma {:induction false} CompileFieldsDefaults(node: Yaml, i: nat, root: string, classes: Classes, acc: seq<(string, FieldDef)>)
    requires node.Map? && i <= |node.entries|
    ensures var s := CompileFields(node, i, root, classes, acc);
      s.r.Ok? ==> (|s.r.value| >= |acc| && (acc != [] ==> s.r.value[0].0 == acc[0].0) &&
        (AllDefaultNone(acc) ==> AllDefaultNone(s.r.value)))
    decreases |node.entries| - i
  {
    if i < |node.entries| {
      var key := node.entries[i].0;
      var f := CompileField(key, node.entries[i].1, root, classes);
      CompileFieldsStep(node, i, root, classes, acc);
      if f.r.Ok? {
        FieldShape(key, node.entries[i].1, root, classes);
        PutEntries(acc, key, f.r.value);
        CompileFieldsDefaults(node, i + 1, root, f.models, Put(acc, key, f.r.value));
      }
    }
  }

  /**
   * A compiled class is named by the kind and stored in `classes` under that name,
   * replacing any earlier class there; it has `context` first and then one attribute per
   * key of the input, keyed by the raw key, every one defaulting to None.
   */
  lemma CompiledClass(kind: Yaml, node: Yaml, root: string, classes: Classes)
    requires node.Map?
    ensures var s := CompileNode(kind, node, root, classes);
      s.r.Ok? ==> (kind.Str? && s.r.value.name == kind.s && kind.s in s.models && s.models[kind.s] == s.r.value &&
        FieldNames(s.r.value) == {"context"} + KeySet(node.entries) &&
        s.r.value.fields[0].0 == "context" &&
        AllDefaultNone(s.r.value.fields))
  {
    var start := [("context", ContextField)];
    CompileNodeOk(kind, node, root, classes);
    CompileFieldsKeys(node, 0, root, classes, start);
    CompileFieldsDefaults(node, 0, root, classes, start);
    assert KeySet(start) == {"context"} by {
      assert start[0].0 == "context";
      assert HasKey(start, "context");
      forall k | k in KeySet(start)
        ensures k == "context"
      {
        var n :| 0 <= n < |start| && start[n].0 == k;
      }
    }
    assert KeysFrom(node, 0) == KeySet(node.entries);
  }

  /**
   * The attribute for `key: val`: default None, metadata holding the title-cased key as
   * `annotations` and the lower-cased qualifier, plus the flags, which never override
   * either.
   */
  lemma FieldShape(key: string, val: Yaml, root: string, classes: Classes)
    ensures var f := CompileField(key, val, root, classes);
      f.r.Ok? ==> (f.r.value.default == DefaultTo(Field.Null) &&
        f.r.value.ftype == TypeFor(val, Dynamo.Qualifier(root, key), classes).r.value &&
        f.r.value.meta.Keys == {"annotations", "qualifier"} + FldFlags(key, val).Keys &&
        f.r.value.meta["annotations"] == Text(Title(key)) &&
        f.r.value.meta["qualifier"] == Text(Lower(Dynamo.Qualifier(root, key))) &&
        forall k :: k in FldFlags(key, val) ==> f.r.value.meta[k] == FldFlags(key, val)[k])
  {
    FlagsNotBase(key, val);
  }

  /** No flag is named `annotations` or `qualifier`. */
  lemma FlagsNotBase(key: string, val: Yaml)
    ensures "annotations" !in FldFlags(key, val) && "qualifier" !in FldFlags(key, val)
  {
    if val.Str? {
      FldFlagsOfString(key, val.s);
      assert forall j :: 0 <= j < |FlagTable| ==> FlagTable[j].1 != "annotations" && FlagTable[j].1 != "qualifier";
    }
  }

  /**
   * Typing: a string holding a comma is a list of strings, any other string a string; an
   * empty list fails on its first item; a list of scalars is typed by its first item.
   */
  lemma FieldTyping(key: string, val: Yaml, root: string, classes: Classes)
    ensures val.Str? && ',' in val.s ==>
      TypeFor(val, Dynamo.Qualifier(root, key), classes) == Dynamo.Step(Ok(PrimList(Field.StrT)), classes)
    ensures val.Str? && ',' !in val.s ==>
      TypeFor(val, Dynamo.Qualifier(root, key), classes) == Dynamo.Step(Ok(Prim(Field.StrT)), classes)
    ensures val == List([]) ==>
      TypeFor(val, Dynamo.Qualifier(root, key), classes) == Dynamo.Step(Err(IndexError("list index out of range")), classes)
    ensures val.List? && val.items != [] && !val.items[0].Map? ==>
      TypeFor(val, Dynamo.Qualifier(root, key), classes) == Dynamo.Step(Ok(PrimList(TypeOf(val.items[0]))), classes)
    ensures val.Str? || val.Int? || val.Bool? ==> CompileField(key, val, root, classes).r.Ok?
  {
  }

  // ---------------------------------------------------------------------------------
  // Error kinds

  /** The errors a compile can raise once every map carries a kind. */
  predicate KindedCompileError(e: Error) {
    e.IndexError? || e.TypeError?
  }

  lemma {:induction false} NodeErrors(kind: Yaml, node: Yaml, root: string, classes: Classes)
    requires node.Map? && Kinded(node)
    ensures CompileNode(kind, node, root, classes).r.Err? ==> KindedCompileError(CompileNode(kind, node, root, classes).r.error)
    decreases node, 1
  {
    FieldsErrors(node, 0, root, classes, [("context", ContextField)]);
  }

  lemma {:induction false} FieldsErrors(node: Yaml, i: nat, root: string, classes: Classes, acc: seq<(string, FieldDef)>)
    requires node.Map? && i <= |node.entries| && Kinded(node)
    ensures CompileFields(node, i, root, classes, acc).r.Err? ==> KindedCompileError(CompileFields(node, i, root, classes, acc).r.error)
    decreases node, 0, |node.entries| - i, 1
  {
    if i < |node.entries| {
      FieldsErrorsAt(node, i, root, classes, acc);
    }
  }

  lemma {:induction false} FieldsErrorsAt(node: Yaml, i: nat, root: string, classes: Classes, acc: seq<(string, FieldDef)>)
    requires node.Map? && i < |node.entries| && Kinded(node)
    ensures CompileFields(node, i, root, classes, acc).r.Err? ==> KindedCompileError(CompileFields(node, i, root, classes, acc).r.error)
    decreases node, 0, |node.entries| - i, 0
  {
    var key := node.entries[i].0;
    var val := node.entries[i].1;
    assert Kinded(val) && val < node;
    TypeErrors(val, Dynamo.Qualifier(root, key), classes);
    CompileFieldsStep(node, i, root, classes, acc);
    var f := CompileField(key, val, root, classes);
    if f.r.Ok? {
      FieldsErrors(node, i + 1, root, f.models, Put(acc, key, f.r.value));
    }
  }

  lemma {:induction false} TypeErrors(val: Yaml, qualifier: string, classes: Classes)
    requires Kinded(val)
    ensures TypeFor(val, qualifier, classes).r.Err? ==> KindedCompileError(TypeFor(val, qualifier, classes).r.error)
    decreases val, 2
  {
    match val
    case Map(es) =>
      NodeErrors(Get(es, "kind").value, val, qualifier, classes);
    case List(xs) =>
      if xs != [] && xs[0].Map? {
        assert Kinded(xs[0]);
        NodeErrors(Get(xs[0].entries, "kind").value, xs[0], qualifier, classes);
      }
    case _ =>
  }

  /**
   * `d2c` of the older factory can fail only on an empty list or a kind that is not
   * text: the stamping gives every map a kind and flags never fail.
   */
  lemma D2CErrors(data: seq<(string, Yaml)>, classes: Classes)
    ensures D2CStep(data, classes).r.Err? ==> KindedCompileError(D2CStep(data, classes).r.error)
  {
    StampKinded(DynamicClass, Map(data));
    StampMap(DynamicClass, data);
    var stamped := Stamp(DynamicClass, Map(data));
    NodeErrors(Get(stamped.entries, "kind").GetOr(Str(DynamicClass)), stamped, "", classes);
  }

  // ---------------------------------------------------------------------------------
  // What instance builds

  /** An input whose kind names no compiled class fails the factory assertion. */
  lemma InstanceUnknownKind(classes: Classes, data: seq<(string, Yaml)>)
    requires Get(data, "kind").Some? && Get(data, "kind").value.Str? && Get(data, "kind").value.s !in classes
    ensures InstanceOf(classes, data) ==
      Err(AssertionError("Class " + Get(data, "kind").value.s + " not found. Factory not initialized"))
  {
    StampKeepsKind(DynamicClass, data);
  }

  /** A map or list kind cannot be looked up at all. */
  lemma InstanceUnhashableKind(classes: Classes, data: seq<(string, Yaml)>)
    requires Dynamo.KindOf(data).Map? || Dynamo.KindOf(data).List?
    ensures InstanceOf(classes, data) == Err(TypeError("unhashable type: '" + TypeName(Dynamo.KindOf(data)) + "'"))
  {
  }

  /**
   * The closed-world rule: an instance is built only from input that conforms to its
   * class at every level, and input that does not is rejected for its extra keys.
   */
  lemma InstanceClosedWorld(classes: Classes, data: seq<(string, Yaml)>)
    ensures var stamped := Stamp(DynamicClass, Map(data));
      var kind := Get(stamped.entries, "kind").GetOr(Str(DynamicClass));
      InstanceOf(classes, data).Ok? ==>
        kind.Str? && kind.s in classes && stamped.Map? && Conforms(classes[kind.s], stamped)
    ensures var stamped := Stamp(DynamicClass, Map(data));
      var kind := Get(stamped.entries, "kind").GetOr(Str(DynamicClass));
      kind.Str? && kind.s in classes && stamped.Map? && !Conforms(classes[kind.s], stamped) ==>
        InstanceOf(classes, data).Err? && InstanceOf(classes, data).error.ForbiddenExtraKeys?
  {
    StampMap(DynamicClass, data);
    var stamped := Stamp(DynamicClass, Map(data));
    var kind := Get(stamped.entries, "kind").GetOr(Str(DynamicClass));
    if kind.Str? && kind.s in classes {
      assert Dynamo.ClassOf(classes, kind) == Ok(classes[kind.s]);
      var attrs := Structure(classes[kind.s], stamped.entries);
      if attrs.Err? {
        assert InstanceOf(classes, data) == Err(attrs.error);
      }
    }
  }
}
