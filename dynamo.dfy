/**
 * The schema compiler of xds/core/dynamo.py: `_from_data` compiles a kind-stamped map into
 * a class, one attribute per key, compiling nested maps first and storing every class it
 * makes in `models` under its kind; `instance` builds an object of a compiled class under
 * the closed-world rule and merges a delegate's public attributes into it.
 */
module Dynamo {
  import opened Wrappers
  import opened Text
  import opened Data
  import Field
  import Names
  import opened Schema

  type Models = map<string, Schema>

  /**
   * A compile result together with the models table after it. A failing compile keeps
   * whatever its nested compiles stored before the failure.
   */
  datatype Step<T> = Step(r: Result<T>, models: Models)

  /** The attribute `_from_data` adds to every class: `nsid`, a string defaulting to None. */
  const NsidField: FieldDef := FieldDef(Prim(Field.StrT), DefaultTo(Field.Null), map[])

  /** The attribute `_from_data` adds last: `uid`, a string defaulting to `'fta'`. */
  const UidField: FieldDef := FieldDef(Prim(Field.StrT), DefaultTo(Field.Atom(Field.AStr("fta"))), map[])

  /** `f'{root}.{key}' if root else key`. */
  function Qualifier(root: string, key: string): (q: string)
    ensures root == "" ==> q == key
    ensures root != "" ==> StartsWith(q, root + ".") && EndsWith(q, key)
  {
    if root == "" then key else root + "." + key
  }

  /** `modifier.get('xref')` when it is truthy. */
  function XrefOf(m: Field.Spec): (x: Option<string>)
    ensures x.Some? ==> "xref" in m && m["xref"] == Field.Atom(Field.AStr(x.value)) && x.value != ""
  {
    if "xref" in m && m["xref"].Atom? && m["xref"].a.AStr? && m["xref"].a.s != "" then Some(m["xref"].a.s)
    else None
  }

  /** `modifier.get('default', None)`. */
  function DefaultIn(m: Field.Spec): Field.SpecValue {
    if "default" in m then m["default"] else Field.Null
  }

  /** The metadata before the modifiers are merged in. */
  function BaseMeta(key: string, qualifier: string, value: Yaml, otype: FieldType): map<string, MetaVal> {
    var (v, eng) := Names.Xlate(key);
    map[
      "qualifier" := Text(Lower(qualifier)),
      "var" := Text(v),
      "alias" := Text(eng),
      "key" := Text(key),
      "vtype" := TypeVal(TypeOf(value)),
      "otype" := FieldTypeVal(otype)
    ]
  }

  /** `meta.update(modifier)`: the modifiers' entries win over the base entries. */
  function Updated(meta: map<string, MetaVal>, m: Field.Spec): (r: map<string, MetaVal>)
    ensures r.Keys == meta.Keys + m.Keys
    ensures forall k :: k in m ==> r[k] == Modifier(m[k])
    ensures forall k :: k in meta && k !in m ==> r[k] == meta[k]
  {
    map k | k in meta.Keys + m.Keys :: if k in m then Modifier(m[k]) else meta[k]
  }

  // ---------------------------------------------------------------------------------
  // _from_data, as functions of the input and the models table

  /** `_from_data(kind, node, root)`. */
  function CompileNode(kind: Yaml, node: Yaml, root: string, models: Models): Step<Schema>
    requires node.Map?
    decreases node, 1
  {
    var s := CompileFields(node, 0, root, models, []);
    if s.r.Err? then Step(Err(s.r.error), s.models)
    else match ClassName(kind)
      case Err(e) => Step(Err(e), s.models)
      case Ok(name) =>
        var schema := Schema(name, Put(Put(s.r.value, "nsid", NsidField), "uid", UidField));
        Step(Ok(schema), s.models[name := schema])
  }

  /** The attributes of `node` from entry `i` on, added to `acc` under their var names. */
  function CompileFields(node: Yaml, i: nat, root: string, models: Models, acc: seq<(string, FieldDef)>): Step<seq<(string, FieldDef)>>
    requires node.Map? && i <= |node.entries|
    decreases node, 0, |node.entries| - i
  {
    if i == |node.entries| then Step(Ok(acc), models)
    else
      var (key, val) := node.entries[i];
      var f := CompileField(key, val, root, models);
      if f.r.Err? then Step(Err(f.r.error), f.models)
      else CompileFields(node, i + 1, root, f.models, Put(acc, Names.VarOf(key), f.r.value))
  }

  /** The type of the attribute for `val`, compiling a nested class where there is one. */
  function TypeFor(val: Yaml, qualifier: string, models: Models): Step<FieldType>
    decreases val, 2
  {
    match val
    case Map(es) =>
      var kind := Get(es, "kind");
      if kind.None? then Step(Err(KeyError("kind")), models)
      else
        var s := CompileNode(kind.value, val, qualifier, models);
        Step(if s.r.Ok? then Ok(Nested(s.r.value)) else Err(s.r.error), s.models)
    case List(xs) =>
      if xs == [] then Step(Err(IndexError("list index out of range")), models)
      else if xs[0].Map? then
        var kind := Get(xs[0].entries, "kind");
        if kind.None? then Step(Err(KeyError("kind")), models)
        else
          var s := CompileNode(kind.value, xs[0], qualifier, models);
          Step(if s.r.Ok? then Ok(NestedList(s.r.value)) else Err(s.r.error), s.models)
      else Step(Ok(PrimList(TypeOf(xs[0]))), models)
    case _ => Step(Ok(Prim(TypeOf(val))), models)
  }

  /** The attribute for `key: val`: its type, its default and its metadata. */
  function CompileField(key: string, val: Yaml, root: string, models: Models): Step<FieldDef>
    decreases val, 3
  {
    var qualifier := Qualifier(root, key);
    var t := TypeFor(val, qualifier, models);
    if t.r.Err? then Step(Err(t.r.error), t.models)
    else
      var modifier := if val.Str? then Field.ParsedSpec(val.s) else Ok(map[]);
      if modifier.Err? then Step(Err(modifier.error), t.models)
      else Step(Ok(FieldWith(key, qualifier, val, t.r.value, modifier.value, t.models)), t.models)
  }

  /**
   * The attribute once its type `t` and its modifiers `m` are known: an `xref` makes it a
   * reference to whatever `models` holds under that name, with no default; otherwise it
   * keeps `t` and defaults to the modifiers' `default`, or None.
   */
  function FieldWith(key: string, qualifier: string, val: Yaml, t: FieldType, m: Field.Spec, models: Models): FieldDef {
    var meta := Updated(BaseMeta(key, qualifier, val, t), m);
    match XrefOf(m)
    case Some(x) => FieldDef(XRef(if x in models then Some(models[x]) else None), Mandatory, meta)
    case None => FieldDef(t, DefaultTo(DefaultIn(m)), meta)
  }

  /** `d2c`: the stamped input compiled under its own kind, `DynamicClass` by default. */
  function D2CStep(data: seq<(string, Yaml)>, models: Models): Step<Schema> {
    var stamped := Stamp(DynamicClass, Map(data));
    StampMap(DynamicClass, data);
    CompileNode(Get(stamped.entries, "kind").GetOr(Str(DynamicClass)), stamped, "", models)
  }

  // ---------------------------------------------------------------------------------
  // instance

  /** `f'{kind}'` for the kinds a loaded value can hold. */
  function Show(y: Yaml): string {
    match y
    case Str(s) => s
    case Int(i) => if i < 0 then "-" + NatToString(-i) else NatToString(i)
    case Bool(b) => if b then "True" else "False"
    case Map(_) => "{...}"
    case List(_) => "[...]"
  }

  /** `data.get('kind', DynamicClass)` on the stamped input: the kind `instance` looks up. */
  function KindOf(data: seq<(string, Yaml)>): (k: Yaml)
    ensures HasKey(data, "kind") && Get(data, "kind").value.Str? ==> k == Get(data, "kind").value
  {
    var stamped := Stamp(DynamicClass, Map(data));
    StampMap(DynamicClass, data);
    assert HasKey(data, "kind") && Get(data, "kind").value.Str? ==>
      Get(stamped.entries, "kind") == Get(data, "kind") by {
      if HasKey(data, "kind") {
        StampKeepsKind(DynamicClass, data);
      }
    }
    Get(stamped.entries, "kind").GetOr(Str(DynamicClass))
  }

  /**
   * `self.models.get(kind)` and the assertion after it: only a text kind can name a
   * compiled class, and a map or list kind cannot even be looked up, being unhashable.
   */
  function ClassOf(models: Models, kind: Yaml): (r: Result<Schema>)
    ensures r.Ok? <==> kind.Str? && kind.s in models
    ensures r.Ok? ==> r.value == models[kind.s]
    ensures (kind.Map? || kind.List?) ==> r == Err(TypeError("unhashable type: '" + TypeName(kind) + "'"))
    ensures r.Err? && (kind.Str? || kind.Int? || kind.Bool?) ==>
      r.error == AssertionError("Class " + Show(kind) + " not found. Factory not initialized")
  {
    if kind.Map? || kind.List? then Err(TypeError("unhashable type: '" + TypeName(kind) + "'"))
    else if kind.Str? && kind.s in models then Ok(models[kind.s])
    else Err(AssertionError("Class " + Show(kind) + " not found. Factory not initialized"))
  }

  /**
   * The delegate merge: each attribute of the delegate, in order, is rejected if the
   * class already has an attribute of that name, and copied onto the object otherwise
   * unless its name starts with `_`.
   */
  function Merged(attrs: map<string, AttrVal>, delegate: seq<(string, Yaml)>, classAttrs: set<string>): Result<map<string, AttrVal>>
    decreases |delegate|
  {
    if delegate == [] then Ok(attrs)
    else
      var acc :- Merged(attrs, delegate[..|delegate| - 1], classAttrs);
      var (name, value) := delegate[|delegate| - 1];
      if name in classAttrs then Err(ValueError(name + " is not allowed to used in implementation"))
      else if StartsWith(name, "_") then Ok(acc)
      else Ok(acc[name := Delegated(value)])
  }

  /**
   * `instance(...)`: the stamped input's class is looked up and the input structured into
   * it; when the class has a proxy, the delegate built from it is stored as `_internal`
   * and merged in. `delegate` holds the delegate's attributes when the class has a proxy,
   * and `classAttrs` the names the class itself answers to.
   */
  function InstanceOf(models: Models, data: seq<(string, Yaml)>, delegate: Option<seq<(string, Yaml)>>, classAttrs: set<string>): Result<map<string, AttrVal>> {
    var stamped := Stamp(DynamicClass, Map(data));
    StampMap(DynamicClass, data);
    var kind := Get(stamped.entries, "kind").GetOr(Str(DynamicClass));
    var schema :- ClassOf(models, kind);
    var attrs :- Structure(schema, stamped.entries);
    match delegate
    case None => Ok(attrs)
    case Some(vars) => Merged(attrs["_internal" := Internal(vars)], vars, classAttrs)
  }

  // ---------------------------------------------------------------------------------
  // The factory object

  class Dynamo {
    /** The compiled classes, by kind. */
    var models: Models

    constructor()
      ensures models == map[]
    {
      models := map[];
    }

    /** `_from_data(kind, node, root)`: compiles the class and stores it in `models`. */
    method FromData(kind: Yaml, node: Yaml, root: string) returns (r: Result<Schema>)
      requires node.Map?
      modifies this
      ensures Step(r, models) == CompileNode(kind, node, root, old(models))
      decreases node, 1
    {
      var attributes: seq<(string, FieldDef)> := [];
      var es := node.entries;
      for i := 0 to |es|
        invariant CompileFields(node, 0, root, old(models), []) == CompileFields(node, i, root, models, attributes)
      {
        var (key, val) := es[i];
        ghost var before := models;
        var f := FieldFor(key, val, root);
        if f.Err? {
          assert CompileFields(node, i, root, before, attributes) == Step(Err(f.error), models);
          r := Err(f.error);
          return;
        }
        attributes := Put(attributes, Names.VarOf(key), f.value);
      }
      var name := ClassName(kind);
      if name.Err? {
        r := Err(name.error);
        return;
      }
      attributes := Put(attributes, "nsid", NsidField);
      attributes := Put(attributes, "uid", UidField);
      var schema := Schema(name.value, attributes);
      models := models[name.value := schema];
      r := Ok(schema);
    }

    /** The attribute for `key: val`, compiling the nested class first where there is one. */
    method FieldFor(key: string, val: Yaml, root: string) returns (r: Result<FieldDef>)
      modifies this
      ensures Step(r, models) == CompileField(key, val, root, old(models))
      decreases val, 3
    {
      var qualifier := Qualifier(root, key);
      var t := TypeOf_(val, qualifier);
      if t.Err? {
        r := Err(t.error);
        return;
      }
      var modifier: Result<Field.Spec> := Ok(map[]);
      if val.Str? {
        modifier := Field.FieldSpec(val.s);
      }
      if modifier.Err? {
        r := Err(modifier.error);
        return;
      }
      r := Ok(FieldWith(key, qualifier, val, t.value, modifier.value, models));
    }

    /** `kws['type']` for `val`: a nested map or a list of maps is compiled on the spot. */
    method TypeOf_(val: Yaml, qualifier: string) returns (r: Result<FieldType>)
      modifies this
      ensures Step(r, models) == TypeFor(val, qualifier, old(models))
      decreases val, 2
    {
      match val
      case Map(es) =>
        var kind := Get(es, "kind");
        if kind.None? {
          r := Err(KeyError("kind"));
          return;
        }
        var s := FromData(kind.value, val, qualifier);
        r := if s.Ok? then Ok(Nested(s.value)) else Err(s.error);
      case List(xs) =>
        if xs == [] {
          r := Err(IndexError("list index out of range"));
        } else if xs[0].Map? {
          var kind := Get(xs[0].entries, "kind");
          if kind.None? {
            r := Err(KeyError("kind"));
            return;
          }
          var s := FromData(kind.value, xs[0], qualifier);
          r := if s.Ok? then Ok(NestedList(s.value)) else Err(s.error);
        } else {
          r := Ok(PrimList(TypeOf(xs[0])));
        }
      case _ =>
        r := Ok(Prim(TypeOf(val)));
    }

    /** `d2c(...)`: stamps the input and compiles it under its kind. */
    method D2C(data: seq<(string, Yaml)>) returns (r: Result<Schema>)
      modifies this
      ensures Step(r, models) == D2CStep(data, old(models))
    {
      var stamped := Stamp(DynamicClass, Map(data));
      StampMap(DynamicClass, data);
      var kind := Get(stamped.entries, "kind").GetOr(Str(DynamicClass));
      r := FromData(kind, stamped, "");
    }

    /**
     * `instance(...)`: builds the object; with a delegate, stores it as `_internal` and
     * copies its public attributes, rejecting any the class already has.
     */
    method Instance(data: seq<(string, Yaml)>, delegate: Option<seq<(string, Yaml)>>, classAttrs: set<string>) returns (r: Result<Obj>)
      requires "info" in classAttrs
      requires delegate.Some? <==> "proxy" in classAttrs
      ensures r.Ok? <==> InstanceOf(models, data, delegate, classAttrs).Ok?
      ensures r.Ok? ==> fresh(r.value) && r.value.attrs == InstanceOf(models, data, delegate, classAttrs).value
      ensures r.Err? ==> r.error == InstanceOf(models, data, delegate, classAttrs).error
      ensures r.Ok? ==> KindOf(data).Str? && KindOf(data).s in models && r.value.kind == models[KindOf(data).s].name
    {
      var stamped := Stamp(DynamicClass, Map(data));
      StampMap(DynamicClass, data);
      var kind := Get(stamped.entries, "kind").GetOr(Str(DynamicClass));
      var cls := ClassOf(models, kind);
      if cls.Err? {
        r := Err(cls.error);
        return;
      }
      var structured := Structure(cls.value, stamped.entries);
      if structured.Err? {
        r := Err(structured.error);
        return;
      }
      var obj := new Obj(cls.value.name, structured.value);
      if delegate.Some? {
        obj.attrs := obj.attrs["_internal" := Internal(delegate.value)];
        var failure := MergeDelegate(obj, delegate.value, classAttrs);
        if failure.Some? {
          r := Err(failure.value);
          return;
        }
      }
      r := Ok(obj);
    }

    /** The loop over the delegate's attributes, setting each public one on `obj`. */
    static method MergeDelegate(obj: Obj, vars: seq<(string, Yaml)>, classAttrs: set<string>) returns (failure: Option<Error>)
      modifies obj
      ensures var merged := Merged(old(obj.attrs), vars, classAttrs);
        (failure.Some? <==> merged.Err?) &&
        (failure.Some? ==> failure.value == merged.error) &&
        (failure.None? ==> obj.attrs == merged.value)
    {
      ghost var start := obj.attrs;
      for i := 0 to |vars|
        invariant Merged(start, vars[..i], classAttrs) == Ok(obj.attrs)
      {
        assert vars[..i + 1][..i] == vars[..i];
        var (name, value) := vars[i];
        if name in classAttrs {
          failure := Some(ValueError(name + " is not allowed to used in implementation"));
          MergedErrSticky(start, vars, i + 1, classAttrs);
          return;
        }
        if !StartsWith(name, "_") {
          obj.attrs := obj.attrs[name := Delegated(value)];
        }
      }
      assert vars[..|vars|] == vars;
      failure := None;
    }
  }

  lemma {:induction false} MergedErrSticky(attrs: map<string, AttrVal>, delegate: seq<(string, Yaml)>, i: nat, classAttrs: set<string>)
    requires i <= |delegate| && Merged(attrs, delegate[..i], classAttrs).Err?
    ensures Merged(attrs, delegate, classAttrs) == Merged(attrs, delegate[..i], classAttrs)
    decreases |delegate| - i
  {
    if i < |delegate| {
      assert delegate[..i + 1][..i] == delegate[..i];
      MergedErrSticky(attrs, delegate, i + 1, classAttrs);
    } else {
      assert delegate[..i] == delegate;
    }
  }

  // ---------------------------------------------------------------------------------
  // What a compile produces

  /** The vars of the keys of `node` from entry `i` on. */
  function VarsFrom(node: Yaml, i: nat): (vs: set<string>)
    requires node.Map? && i <= |node.entries|
    ensures forall v :: v in vs <==> exists n :: i <= n < |node.entries| && Names.VarOf(node.entries[n].0) == v
  {
    set n | i <= n < |node.entries| :: Names.VarOf(node.entries[n].0)
  }

  lemma VarsFromStep(node: Yaml, i: nat)
    requires node.Map? && i < |node.entries|
    ensures VarsFrom(node, i) == {Names.VarOf(node.entries[i].0)} + VarsFrom(node, i + 1)
  {
  }

  /** One step of the attribute loop. */
  lemma CompileFieldsStep(node: Yaml, i: nat, root: string, models: Models, acc: seq<(string, FieldDef)>)
    requires node.Map? && i < |node.entries|
    ensures var f := CompileField(node.entries[i].0, node.entries[i].1, root, models);
      CompileFields(node, i, root, models, acc) ==
        if f.r.Err? then Step(Err(f.r.error), f.models)
        else CompileFields(node, i + 1, root, f.models, Put(acc, Names.VarOf(node.entries[i].0), f.r.value))
  {
  }

  lemma {:induction false} CompileFieldsKeys(node: Yaml, i: nat, root: string, models: Models, acc: seq<(string, FieldDef)>)
    requires node.Map? && i <= |node.entries|
    ensures var s := CompileFields(node, i, root, models, acc);
      s.r.Ok? ==> KeySet(s.r.value) == KeySet(acc) + VarsFrom(node, i)
    decreases |node.entries| - i
  {
    if i < |node.entries| {
      var key := node.entries[i].0;
      var f := CompileField(key, node.entries[i].1, root, models);
      CompileFieldsStep(node, i, root, models, acc);
      if f.r.Ok? {
        PutKeySet(acc, Names.VarOf(key), f.r.value);
        CompileFieldsKeys(node, i + 1, root, f.models, Put(acc, Names.VarOf(key), f.r.value));
        VarsFromStep(node, i);
      }
    }
  }

  /** A compile succeeds when its attributes do and the kind is text, and then stores the class. */
  lemma CompileNodeOk(kind: Yaml, node: Yaml, root: string, models: Models)
    requires node.Map?
    ensures var s := CompileNode(kind, node, root, models);
      var f := CompileFields(node, 0, root, models, []);
      s.r.Ok? <==> f.r.Ok? && kind.Str?
    ensures var s := CompileNode(kind, node, root, models);
      var f := CompileFields(node, 0, root, models, []);
      s.r.Ok? ==> (s.r.value == Schema(kind.s, Put(Put(f.r.value, "nsid", NsidField), "uid", UidField)) &&
        s.models == f.models[kind.s := s.r.value])
  {
  }

  /**
   * A compiled class is named by the kind and stored in `models` under that name,
   * replacing any earlier class there.
   */
  lemma CompiledClassStored(kind: Yaml, node: Yaml, root: string, models: Models)
    requires node.Map?
    ensures var s := CompileNode(kind, node, root, models);
      s.r.Ok? ==> (kind.Str? && s.r.value.name == kind.s && kind.s in s.models && s.models[kind.s] == s.r.value)
  {
    CompileNodeOk(kind, node, root, models);
  }

  /**
   * A compiled class has one attribute per var of the input's keys (keys sharing a var
   * share the attribute) plus `nsid` and `uid`.
   */
  lemma CompiledClassFields(kind: Yaml, node: Yaml, root: string, models: Models)
    requires node.Map?
    ensures var s := CompileNode(kind, node, root, models);
      s.r.Ok? ==> FieldNames(s.r.value) == VarsFrom(node, 0) + {"nsid", "uid"}
  {
    CompileNodeOk(kind, node, root, models);
    var f := CompileFields(node, 0, root, models, []);
    if f.r.Ok? {
      CompileFieldsKeys(node, 0, root, models, []);
      assert KeySet<FieldDef>([]) == {};
      PutPairKeys(f.r.value, "nsid", NsidField, "uid", UidField);
    }
  }

  /**
   * `nsid` and `uid` take their fixed definitions even over a same-named key, and come
   * last, in that order, when no key claims their names.
   */
  lemma CompiledClassIds(kind: Yaml, node: Yaml, root: string, models: Models)
    requires node.Map?
    ensures var s := CompileNode(kind, node, root, models);
      s.r.Ok? ==> (Get(s.r.value.fields, "nsid") == Some(NsidField) && Get(s.r.value.fields, "uid") == Some(UidField))
    ensures var s := CompileNode(kind, node, root, models);
      s.r.Ok? && "nsid" !in VarsFrom(node, 0) && "uid" !in VarsFrom(node, 0) ==>
        s.r.value.fields == CompileFields(node, 0, root, models, []).r.value + [("nsid", NsidField), ("uid", UidField)]
  {
    CompileNodeOk(kind, node, root, models);
    var f := CompileFields(node, 0, root, models, []);
    if f.r.Ok? {
      PutPairGet(f.r.value, "nsid", NsidField, "uid", UidField);
      if "nsid" !in VarsFrom(node, 0) && "uid" !in VarsFrom(node, 0) {
        CompileFieldsKeys(node, 0, root, models, []);
        assert KeySet<FieldDef>([]) == {};
        PutPairFresh(f.r.value, "nsid", NsidField, "uid", UidField);
      }
    }
  }

  /** The errors a compile can raise once every map carries a kind. */
  predicate KindedCompileError(e: Error) {
    e.IndexError? || e.TypeError? || e.ValueError? || e.AttributeError?
  }

  lemma {:induction false} NodeErrors(kind: Yaml, node: Yaml, root: string, models: Models)
    requires node.Map? && Kinded(node)
    ensures CompileNode(kind, node, root, models).r.Err? ==> KindedCompileError(CompileNode(kind, node, root, models).r.error)
    decreases node, 1
  {
    FieldsErrors(node, 0, root, models, []);
  }

  lemma {:induction false} FieldsErrors(node: Yaml, i: nat, root: string, models: Models, acc: seq<(string, FieldDef)>)
    requires node.Map? && i <= |node.entries| && Kinded(node)
    ensures CompileFields(node, i, root, models, acc).r.Err? ==> KindedCompileError(CompileFields(node, i, root, models, acc).r.error)
    decreases node, 0, |node.entries| - i, 1
  {
    if i < |node.entries| {
      FieldsErrorsAt(node, i, root, models, acc);
    }
  }

  lemma {:induction false} FieldsErrorsAt(node: Yaml, i: nat, root: string, models: Models, acc: seq<(string, FieldDef)>)
    requires node.Map? && i < |node.entries| && Kinded(node)
    ensures CompileFields(node, i, root, models, acc).r.Err? ==> KindedCompileError(CompileFields(node, i, root, models, acc).r.error)
    decreases node, 0, |node.entries| - i, 0
  {
    var key := node.entries[i].0;
    var val := node.entries[i].1;
    assert Kinded(val) && val < node;
    FieldErrors(key, val, root, models);
    CompileFieldsStep(node, i, root, models, acc);
    var f := CompileField(key, val, root, models);
    if f.r.Ok? {
      FieldsErrors(node, i + 1, root, f.models, Put(acc, Names.VarOf(key), f.r.value));
    }
  }

  lemma {:induction false} FieldErrors(key: string, val: Yaml, root: string, models: Models)
    requires Kinded(val)
    ensures CompileField(key, val, root, models).r.Err? ==> KindedCompileError(CompileField(key, val, root, models).r.error)
    decreases val, 3
  {
    TypeErrors(val, Qualifier(root, key), models);
    if val.Str? {
      Field.ParsedSpecErrors(val.s);
    }
  }

  lemma {:induction false} TypeErrors(val: Yaml, qualifier: string, models: Models)
    requires Kinded(val)
    ensures TypeFor(val, qualifier, models).r.Err? ==> KindedCompileError(TypeFor(val, qualifier, models).r.error)
    decreases val, 2
  {
    match val
    case Map(es) =>
      NodeErrors(Get(es, "kind").value, val, qualifier, models);
    case List(xs) =>
      if xs != [] && xs[0].Map? {
        assert Kinded(xs[0]);
        NodeErrors(Get(xs[0].entries, "kind").value, xs[0], qualifier, models);
      }
    case _ =>
  }

  /**
   * `d2c` never fails on a missing `kind`: the stamping gives every map one, so what can
   * still fail is an empty list, a kind that is not text, or a modifier string.
   */
  lemma D2CErrors(data: seq<(string, Yaml)>, models: Models)
    ensures D2CStep(data, models).r.Err? ==> KindedCompileError(D2CStep(data, models).r.error)
  {
    StampKinded(DynamicClass, Map(data));
    StampMap(DynamicClass, data);
    var stamped := Stamp(DynamicClass, Map(data));
    NodeErrors(Get(stamped.entries, "kind").GetOr(Str(DynamicClass)), stamped, "", models);
  }

  /** A map without a kind cannot be compiled as a nested class. */
  lemma UnkindedFails(key: string, es: seq<(string, Yaml)>, root: string, models: Models)
    requires !HasKey(es, "kind")
    ensures CompileField(key, Map(es), root, models) == Step(Err(KeyError("kind")), models)
  {
  }

  lemma {:induction false} NodeKeepsModels(kind: Yaml, node: Yaml, root: string, models: Models)
    requires node.Map?
    ensures models.Keys <= CompileNode(kind, node, root, models).models.Keys
    decreases node, 1
  {
    FieldsKeepModels(node, 0, root, models, []);
  }

  lemma {:induction false} FieldsKeepModels(node: Yaml, i: nat, root: string, models: Models, acc: seq<(string, FieldDef)>)
    requires node.Map? && i <= |node.entries|
    ensures models.Keys <= CompileFields(node, i, root, models, acc).models.Keys
    decreases node, 0, |node.entries| - i
  {
    if i < |node.entries| {
      var key := node.entries[i].0;
      FieldKeepsModels(key, node.entries[i].1, root, models);
      CompileFieldsStep(node, i, root, models, acc);
      var f := CompileField(key, node.entries[i].1, root, models);
      if f.r.Ok? {
        FieldsKeepModels(node, i + 1, root, f.models, Put(acc, Names.VarOf(key), f.r.value));
      }
    }
  }

  lemma {:induction false} FieldKeepsModels(key: string, val: Yaml, root: string, models: Models)
    ensures models.Keys <= CompileField(key, val, root, models).models.Keys
    decreases val, 3
  {
    TypeKeepsModels(val, Qualifier(root, key), models);
  }

  /**
   * Compiling only adds to `models` or replaces entries: a class once stored stays
   * reachable under its name, whatever fails later.
   */
  lemma {:induction false} TypeKeepsModels(val: Yaml, qualifier: string, models: Models)
    ensures models.Keys <= TypeFor(val, qualifier, models).models.Keys
    decreases val, 2
  {
    match val
    case Map(es) =>
      if HasKey(es, "kind") {
        NodeKeepsModels(Get(es, "kind").value, val, qualifier, models);
      }
    case List(xs) =>
      if xs != [] && xs[0].Map? && HasKey(xs[0].entries, "kind") {
        NodeKeepsModels(Get(xs[0].entries, "kind").value, xs[0], qualifier, models);
      }
    case _ =>
  }

  /**
   * The type of an attribute: a map compiles to its own class, stored under its kind; a
   * list whose first item is a map to a list of that item's class; an empty list fails on
   * its first item; any other list is typed by its first item.
   */
  lemma TypeShapes(val: Yaml, qualifier: string, models: Models)
    ensures val.Map? && TypeFor(val, qualifier, models).r.Ok? ==>
      var t := TypeFor(val, qualifier, models);
      t.r.value.Nested? && Get(val.entries, "kind") == Some(Str(t.r.value.schema.name)) &&
      t.r.value.schema.name in t.models && t.models[t.r.value.schema.name] == t.r.value.schema
    ensures val.List? && val.items != [] && val.items[0].Map? && TypeFor(val, qualifier, models).r.Ok? ==>
      var t := TypeFor(val, qualifier, models);
      t.r.value.NestedList? && Get(val.items[0].entries, "kind") == Some(Str(t.r.value.schema.name)) &&
      t.r.value.schema.name in t.models && t.models[t.r.value.schema.name] == t.r.value.schema
    ensures val == List([]) ==> TypeFor(val, qualifier, models) == Step(Err(IndexError("list index out of range")), models)
    ensures val.List? && val.items != [] && !val.items[0].Map? ==>
      TypeFor(val, qualifier, models) == Step(Ok(PrimList(TypeOf(val.items[0]))), models)
    ensures !val.Map? && !val.List? ==> TypeFor(val, qualifier, models) == Step(Ok(Prim(TypeOf(val))), models)
  {
    match val
    case Map(es) =>
      if HasKey(es, "kind") {
        CompiledClassStored(Get(es, "kind").value, val, qualifier, models);
      }
    case List(xs) =>
      if xs != [] && xs[0].Map? && HasKey(xs[0].entries, "kind") {
        CompiledClassStored(Get(xs[0].entries, "kind").value, xs[0], qualifier, models);
      }
    case _ =>
  }

  /** An attribute compiles when its type and its modifiers do, and is then built from both. */
  lemma CompileFieldOk(key: string, val: Yaml, root: string, models: Models)
    ensures var f := CompileField(key, val, root, models);
      var t := TypeFor(val, Qualifier(root, key), models);
      var modifier := if val.Str? then Field.ParsedSpec(val.s) else Ok(map[]);
      (f.r.Ok? <==> t.r.Ok? && modifier.Ok?) &&
      (f.r.Ok? ==> f.r.value == FieldWith(key, Qualifier(root, key), val, t.r.value, modifier.value, t.models))
  {
  }

  /** No modifier shares a name with a base metadata entry other than `key`. */
  lemma BaseNamesNotModifiers(m: Field.Spec)
    requires forall k :: k in m ==> Field.CategoryOf(k).Some? || k == "type" || k == "default"
    ensures "qualifier" !in m && "var" !in m && "alias" !in m && "vtype" !in m && "otype" !in m
  {
    assert Field.CategoryOf("qualifier").None? && Field.CategoryOf("var").None? && Field.CategoryOf("alias").None?;
    assert Field.CategoryOf("vtype").None? && Field.CategoryOf("otype").None?;
  }

  /**
   * The metadata built for an attribute: the lower-cased qualifier, the var and label of
   * the key, the loaded value's type and the declared type are never overridden by a
   * modifier, since no modifier is named like them; the key is, by a `key` modifier.
   */
  lemma FieldWithMeta(key: string, qualifier: string, val: Yaml, t: FieldType, m: Field.Spec, models: Models)
    requires forall k :: k in m ==> Field.CategoryOf(k).Some? || k == "type" || k == "default"
    ensures var meta := FieldWith(key, qualifier, val, t, m, models).meta;
      meta.Keys == {"qualifier", "var", "alias", "key", "vtype", "otype"} + m.Keys &&
      meta["qualifier"] == Text(Lower(qualifier)) &&
      meta["var"] == Text(Names.VarOf(key)) &&
      meta["alias"] == Text(Names.LabelOf(Names.VarOf(key))) &&
      meta["vtype"] == TypeVal(TypeOf(val)) &&
      meta["otype"] == FieldTypeVal(t) &&
      meta["key"] == (if "key" in m then Modifier(m["key"]) else Text(key)) &&
      forall k :: k in m ==> meta[k] == Modifier(m[k])
  {
    BaseNamesNotModifiers(m);
    BaseMetaEntries(key, qualifier, val, t);
    assert FieldWith(key, qualifier, val, t, m, models).meta == Updated(BaseMeta(key, qualifier, val, t), m);
  }

  lemma BaseMetaEntries(key: string, qualifier: string, val: Yaml, t: FieldType)
    ensures var base := BaseMeta(key, qualifier, val, t);
      base.Keys == {"qualifier", "var", "alias", "key", "vtype", "otype"} &&
      base["qualifier"] == Text(Lower(qualifier)) &&
      base["var"] == Text(Names.VarOf(key)) &&
      base["alias"] == Text(Names.LabelOf(Names.VarOf(key))) &&
      base["key"] == Text(key) &&
      base["vtype"] == TypeVal(TypeOf(val)) &&
      base["otype"] == FieldTypeVal(t)
  {
  }

  /**
   * The metadata of an attribute: the lower-cased qualifier, the var and label of its key,
   * the type of its value, and its key, unless a `key` modifier replaced that; every
   * modifier of a string value is there too, a type among them.
   */
  lemma FieldMeta(key: string, val: Yaml, root: string, models: Models)
    ensures var f := CompileField(key, val, root, models);
      f.r.Ok? ==> (
        var meta := f.r.value.meta;
        meta.Keys >= {"qualifier", "var", "alias", "key", "vtype", "otype"} &&
        meta["qualifier"] == Text(Lower(Qualifier(root, key))) &&
        meta["var"] == Text(Names.VarOf(key)) &&
        meta["alias"] == Text(Names.LabelOf(Names.VarOf(key))) &&
        meta["vtype"] == TypeVal(TypeOf(val)) &&
        (!val.Str? ==> meta.Keys == {"qualifier", "var", "alias", "key", "vtype", "otype"} && meta["key"] == Text(key)) &&
        (val.Str? ==>
          var m := Field.ParsedSpec(val.s).value;
          (forall k :: k in m ==> meta[k] == Modifier(m[k])) &&
          ("key" !in m ==> meta["key"] == Text(key)) &&
          "type" in meta))
  {
    CompileFieldOk(key, val, root, models);
    var f := CompileField(key, val, root, models);
    if f.r.Ok? {
      var t := TypeFor(val, Qualifier(root, key), models);
      var m: Field.Spec := if val.Str? then Field.ParsedSpec(val.s).value else map[];
      if val.Str? {
        Field.ParsedSpecKeys(val.s);
        Field.ParsedHasType(val.s);
      }
      FieldWithMeta(key, Qualifier(root, key), val, t.r.value, m, t.models);
    }
  }

  /**
   * The type and default of an attribute: a string with an `xref` refers to whatever class
   * `models` holds under the full xref text (None before it is compiled) and has no default;
   * any other string is a `str` defaulting to its `default` modifier or None; any other
   * value defaults to None.
   */
  lemma FieldTyping(key: string, val: Yaml, root: string, models: Models)
    ensures var f := CompileField(key, val, root, models);
      f.r.Ok? && !val.Str? ==> (f.r.value.default == DefaultTo(Field.Null) &&
        f.r.value.ftype == TypeFor(val, Qualifier(root, key), models).r.value)
    ensures var f := CompileField(key, val, root, models);
      f.r.Ok? && val.Str? ==>
        var m := Field.ParsedSpec(val.s).value;
        match XrefOf(m)
        case Some(x) =>
          f.r.value.ftype == XRef(if x in models then Some(models[x]) else None) && f.r.value.default.Mandatory?
        case None =>
          f.r.value.ftype == Prim(Field.StrT) &&
          f.r.value.default == DefaultTo(if "default" in m then m["default"] else Field.Null)
    ensures val.Str? ==> (CompileField(key, val, root, models).r.Ok? <==> Field.ParsedSpec(val.s).Ok?)
  {
  }

  // ---------------------------------------------------------------------------------
  // What instance builds

  /** An input whose kind names no compiled class fails the factory assertion. */
  lemma InstanceUnknownKind(models: Models, data: seq<(string, Yaml)>, delegate: Option<seq<(string, Yaml)>>, classAttrs: set<string>)
    requires Get(data, "kind").Some? && Get(data, "kind").value.Str? && Get(data, "kind").value.s !in models
    ensures InstanceOf(models, data, delegate, classAttrs) ==
      Err(AssertionError("Class " + Get(data, "kind").value.s + " not found. Factory not initialized"))
  {
    StampKeepsKind(DynamicClass, data);
  }

  /** A map or list kind cannot be looked up at all. */
  lemma InstanceUnhashableKind(models: Models, data: seq<(string, Yaml)>, delegate: Option<seq<(string, Yaml)>>, classAttrs: set<string>)
    requires KindOf(data).Map? || KindOf(data).List?
    ensures InstanceOf(models, data, delegate, classAttrs) == Err(TypeError("unhashable type: '" + TypeName(KindOf(data)) + "'"))
  {
  }

  /** A built instance came from input that conforms to its class at every level. */
  lemma InstanceClosedWorld(models: Models, data: seq<(string, Yaml)>, delegate: Option<seq<(string, Yaml)>>, classAttrs: set<string>)
    ensures var stamped := Stamp(DynamicClass, Map(data));
      var kind := Get(stamped.entries, "kind").GetOr(Str(DynamicClass));
      InstanceOf(models, data, delegate, classAttrs).Ok? ==>
        kind.Str? && kind.s in models && stamped.Map? && Conforms(models[kind.s], stamped)
    ensures var stamped := Stamp(DynamicClass, Map(data));
      var kind := Get(stamped.entries, "kind").GetOr(Str(DynamicClass));
      kind.Str? && kind.s in models && stamped.Map? && !Conforms(models[kind.s], stamped) ==>
        InstanceOf(models, data, delegate, classAttrs).Err? &&
        InstanceOf(models, data, delegate, classAttrs).error.ForbiddenExtraKeys?
  {
    StampMap(DynamicClass, data);
    var stamped := Stamp(DynamicClass, Map(data));
    var kind := Get(stamped.entries, "kind").GetOr(Str(DynamicClass));
    if kind.Str? && kind.s in models {
      assert ClassOf(models, kind) == Ok(models[kind.s]);
      var attrs := Structure(models[kind.s], stamped.entries);
      if attrs.Err? {
        assert InstanceOf(models, data, delegate, classAttrs) == Err(attrs.error);
      }
    }
  }

  /** The first attribute of `delegate` the class already has, if any. */
  function FirstClash(delegate: seq<(string, Yaml)>, classAttrs: set<string>): (r: Option<nat>)
    ensures r.Some? ==> (r.value < |delegate| && delegate[r.value].0 in classAttrs &&
      forall n :: 0 <= n < r.value ==> delegate[n].0 !in classAttrs)
    ensures r.None? ==> forall n :: 0 <= n < |delegate| ==> delegate[n].0 !in classAttrs
  {
    if delegate == [] then None
    else if delegate[0].0 in classAttrs then Some(0)
    else
      var r := FirstClash(delegate[1..], classAttrs);
      assert forall n :: 0 <= n < |delegate| - 1 ==> delegate[1..][n] == delegate[n + 1];
      if r.Some? then Some(r.value + 1) else None
  }

  /**
   * The merge fails exactly when some delegate attribute, private or not, is also an
   * attribute of the class, and then names the first such.
   */
  lemma {:induction false} MergedFails(attrs: map<string, AttrVal>, delegate: seq<(string, Yaml)>, classAttrs: set<string>)
    ensures Merged(attrs, delegate, classAttrs).Err? <==> FirstClash(delegate, classAttrs).Some?
    ensures FirstClash(delegate, classAttrs).Some? ==>
      Merged(attrs, delegate, classAttrs).error ==
        ValueError(delegate[FirstClash(delegate, classAttrs).value].0 + " is not allowed to used in implementation")
    decreases |delegate|
  {
    if delegate != [] {
      var init := delegate[..|delegate| - 1];
      MergedFails(attrs, init, classAttrs);
      FirstClashPrefix(delegate, classAttrs);
    }
  }

  lemma {:induction false} FirstClashPrefix(delegate: seq<(string, Yaml)>, classAttrs: set<string>)
    requires delegate != []
    ensures var init := delegate[..|delegate| - 1];
      FirstClash(delegate, classAttrs) ==
        if FirstClash(init, classAttrs).Some? then FirstClash(init, classAttrs)
        else if delegate[|delegate| - 1].0 in classAttrs then Some(|delegate| - 1)
        else None
  {
    var init := delegate[..|delegate| - 1];
    assert forall n :: 0 <= n < |init| ==> init[n] == delegate[n];
  }

  /**
   * A merge that succeeds copies every public delegate attribute, keeps every other
   * attribute of the object, and adds nothing else.
   */
  lemma {:induction false} MergedCopies(attrs: map<string, AttrVal>, delegate: seq<(string, Yaml)>, classAttrs: set<string>)
    requires UniqueKeys(delegate)
    requires Merged(attrs, delegate, classAttrs).Ok?
    ensures var r := Merged(attrs, delegate, classAttrs).value;
      (forall n :: 0 <= n < |delegate| && !StartsWith(delegate[n].0, "_") ==>
        delegate[n].0 in r && r[delegate[n].0] == Delegated(delegate[n].1)) &&
      (forall k :: k in attrs && !(exists n :: 0 <= n < |delegate| && delegate[n].0 == k && !StartsWith(k, "_")) ==>
        k in r && r[k] == attrs[k]) &&
      (forall k :: k in r ==> k in attrs || exists n :: 0 <= n < |delegate| && delegate[n].0 == k && !StartsWith(k, "_"))
    decreases |delegate|
  {
    if delegate != [] {
      var init := delegate[..|delegate| - 1];
      assert forall n :: 0 <= n < |init| ==> init[n] == delegate[n];
      MergedCopies(attrs, init, classAttrs);
    }
  }
}
