/**
 * What the two schema compilers produce in place of a generated attrs class, and the part
 * of cattrs' `structure` that `instance` relies on: a converter built with
 * `forbid_extra_keys=True` rejects any key that names no field, at every nesting level.
 */
module Schema {
  import opened Wrappers
  import opened Data
  import Field

  /** `type(value)` of a loaded value. */
  function TypeOf(y: Yaml): (t: Field.PyType)
    ensures t in {Field.StrT, Field.IntT, Field.BoolT, Field.DictT, Field.PlainListT}
  {
    match y
    case Str(_) => Field.StrT
    case Int(_) => Field.IntT
    case Bool(_) => Field.BoolT
    case Map(_) => Field.DictT
    case List(_) => Field.PlainListT
  }

  /** The Python name of `type(value)`, as error messages print it. */
  function TypeName(y: Yaml): string {
    match y
    case Str(_) => "str"
    case Int(_) => "int"
    case Bool(_) => "bool"
    case Map(_) => "dict"
    case List(_) => "list"
  }

  /** The declared type of a field. */
  datatype FieldType =
    | Prim(t: Field.PyType)       // `type(value)`
    | Nested(schema: Schema)      // a class compiled from a nested map
    | NestedList(schema: Schema)  // `List[cls]` for a list whose first item is a map
    | PrimList(elem: Field.PyType) // `List[type(value[0])]`
    | XRef(target: Option<Schema>) // `models.get(xref)`: None when that name was never compiled

  /** A field's default: none at all, or a value (`None` is `DefaultTo(Null)`). */
  datatype Default = Mandatory | DefaultTo(v: Field.SpecValue)

  /** A metadata value. */
  datatype MetaVal =
    | Text(s: string)
    | Flag(b: bool)
    | TypeVal(t: Field.PyType)
    | FieldTypeVal(ft: FieldType)
    | Modifier(v: Field.SpecValue)

  datatype FieldDef = FieldDef(ftype: FieldType, default: Default, meta: map<string, MetaVal>)

  /** A generated class: its name and its attributes in definition order. */
  datatype Schema = Schema(name: string, fields: seq<(string, FieldDef)>)

  /** `attr.make_class(name, ...)`, which needs the name to be a string. */
  function ClassName(kind: Yaml): (r: Result<string>)
    ensures r.Ok? <==> kind.Str?
    ensures r.Ok? ==> r.value == kind.s
    ensures r.Err? ==> r.error.TypeError?
  {
    if kind.Str? then Ok(kind.s)
    else Err(TypeError("type.__new__() argument 1 must be str, not " + TypeName(kind)))
  }

  /** The names of the attributes of `s`. */
  function FieldNames(s: Schema): set<string> {
    KeySet(s.fields)
  }

  /** The keys of `es` that name no attribute of `s`. */
  function ExtraKeys(s: Schema, es: seq<(string, Yaml)>): (ks: set<string>)
    ensures forall k :: k in ks <==> HasKey(es, k) && k !in FieldNames(s)
  {
    set n | 0 <= n < |es| && es[n].0 !in FieldNames(s) :: es[n].0
  }

  // ---------------------------------------------------------------------------------
  // The closed-world check, as the converter performs it: this level's unknown keys
  // first, then each nested map in key order.

  /** `structure(node, s)` as far as unknown keys go. */
  function CheckNode(s: Schema, node: Yaml): (r: Result<()>)
    requires node.Map?
    ensures r.Err? ==> r.error.ForbiddenExtraKeys? && r.error.keys != {}
    decreases node, 1
  {
    var extra := ExtraKeys(s, node.entries);
    if extra != {} then Err(ForbiddenExtraKeys(extra)) else CheckFields(s, node, 0)
  }

  /** The nested values of `node` from index `i` on. */
  function CheckFields(s: Schema, node: Yaml, i: nat): (r: Result<()>)
    requires node.Map? && i <= |node.entries|
    ensures r.Err? ==> r.error.ForbiddenExtraKeys? && r.error.keys != {}
    decreases node, 0, |node.entries| - i
  {
    if i == |node.entries| then Ok(())
    else
      var (k, v) := node.entries[i];
      var here :- CheckValue(Get(s.fields, k), v);
      CheckFields(s, node, i + 1)
  }

  /** One value against the field it fills. */
  function CheckValue(f: Option<FieldDef>, v: Yaml): (r: Result<()>)
    ensures r.Err? ==> r.error.ForbiddenExtraKeys? && r.error.keys != {}
    decreases v, 2
  {
    if f.None? then Ok(())
    else match f.value.ftype
      case Nested(ns) => if v.Map? then CheckNode(ns, v) else Ok(())
      case NestedList(ns) => if v.List? then CheckItems(ns, v, 0) else Ok(())
      case XRef(Some(ns)) => if v.Map? then CheckNode(ns, v) else Ok(())
      case _ => Ok(())
  }

  /** The map items of the list `node` from index `j` on. */
  function CheckItems(s: Schema, node: Yaml, j: nat): (r: Result<()>)
    requires node.List? && j <= |node.items|
    ensures r.Err? ==> r.error.ForbiddenExtraKeys? && r.error.keys != {}
    decreases node, 0, |node.items| - j
  {
    if j == |node.items| then Ok(())
    else
      var x := node.items[j];
      var here :- if x.Map? then CheckNode(s, x) else Ok(());
      CheckItems(s, node, j + 1)
  }

  /**
   * The closed-world rule stated outright: no key of the map is unknown to its schema, and
   * every nested map (directly, as an item of a list of maps, or as the value of a field
   * typed by a cross-referenced class) conforms to its own.
   */
  predicate Conforms(s: Schema, node: Yaml)
    requires node.Map?
    decreases node, 1
  {
    forall n :: 0 <= n < |node.entries| ==>
      node.entries[n].0 in FieldNames(s) && ValueConforms(Get(s.fields, node.entries[n].0), node.entries[n].1)
  }

  predicate ValueConforms(f: Option<FieldDef>, v: Yaml)
    decreases v, 2
  {
    f.Some? ==>
      match f.value.ftype
      case Nested(ns) => v.Map? ==> Conforms(ns, v)
      case NestedList(ns) => v.List? ==> forall j :: 0 <= j < |v.items| ==> (v.items[j].Map? ==> Conforms(ns, v.items[j]))
      case XRef(Some(ns)) => v.Map? ==> Conforms(ns, v)
      case _ => true
  }

  lemma {:induction false} CheckFieldsIff(s: Schema, node: Yaml, i: nat)
    requires node.Map? && i <= |node.entries|
    ensures CheckFields(s, node, i).Ok? <==>
      forall n :: i <= n < |node.entries| ==> ValueConforms(Get(s.fields, node.entries[n].0), node.entries[n].1)
    decreases node, 0, |node.entries| - i
  {
    if i < |node.entries| {
      var (k, v) := node.entries[i];
      CheckValueIff(Get(s.fields, k), v);
      CheckFieldsIff(s, node, i + 1);
    }
  }

  lemma {:induction false} CheckValueIff(f: Option<FieldDef>, v: Yaml)
    ensures CheckValue(f, v).Ok? <==> ValueConforms(f, v)
    decreases v, 2
  {
    if f.Some? {
      match f.value.ftype
      case Nested(ns) =>
        if v.Map? {
          CheckNodeIff(ns, v);
        }
      case NestedList(ns) =>
        if v.List? {
          CheckItemsIff(ns, v, 0);
        }
      case XRef(Some(ns)) =>
        if v.Map? {
          CheckNodeIff(ns, v);
        }
      case _ =>
    }
  }

  lemma {:induction false} CheckItemsIff(s: Schema, node: Yaml, j: nat)
    requires node.List? && j <= |node.items|
    ensures CheckItems(s, node, j).Ok? <==>
      forall n :: j <= n < |node.items| ==> (node.items[n].Map? ==> Conforms(s, node.items[n]))
    decreases node, 0, |node.items| - j
  {
    if j < |node.items| {
      var x := node.items[j];
      if x.Map? {
        CheckNodeIff(s, x);
      }
      CheckItemsIff(s, node, j + 1);
    }
  }

  /** The converter accepts a map exactly when it conforms to the schema. */
  lemma {:induction false} CheckNodeIff(s: Schema, node: Yaml)
    requires node.Map?
    ensures CheckNode(s, node).Ok? <==> Conforms(s, node)
    decreases node, 1
  {
    CheckFieldsIff(s, node, 0);
  }

  // ---------------------------------------------------------------------------------
  // The built instance

  /** An attribute value of a built instance. */
  datatype AttrVal =
    | Given(y: Yaml)                       // taken from the input
    | Defaulted(v: Field.SpecValue)        // the field's default
    | Delegated(y: Yaml)                   // copied from the delegate object
    | Internal(attrs: seq<(string, Yaml)>) // the delegate object itself, as `_internal`

  /** The first field, in order, that has no default and no value in `es`. */
  function MissingField(fields: seq<(string, FieldDef)>, es: seq<(string, Yaml)>): (r: Option<string>)
    ensures r.Some? ==> !HasKey(es, r.value) && exists n :: (0 <= n < |fields| && fields[n].0 == r.value &&
      fields[n].1.default.Mandatory? &&
      forall m :: 0 <= m < n ==> !(fields[m].1.default.Mandatory? && !HasKey(es, fields[m].0)))
    ensures r.None? ==> forall n :: 0 <= n < |fields| && fields[n].1.default.Mandatory? ==> HasKey(es, fields[n].0)
  {
    if fields == [] then None
    else if fields[0].1.default.Mandatory? && !HasKey(es, fields[0].0) then Some(fields[0].0)
    else
      var r := MissingField(fields[1..], es);
      assert forall n :: 0 <= n < |fields| - 1 ==> fields[1..][n] == fields[n + 1];
      r
  }

  /** The attribute values: the input's value where there is one, else the default. */
  function InitialAttrs(s: Schema, es: seq<(string, Yaml)>): (m: map<string, AttrVal>)
    requires MissingField(s.fields, es).None?
    ensures m.Keys == FieldNames(s)
    ensures forall k :: k in m && HasKey(es, k) ==> m[k] == Given(Get(es, k).value)
    ensures forall k :: k in m && !HasKey(es, k) ==>
      Get(s.fields, k).Some? && Get(s.fields, k).value.default.DefaultTo? &&
      m[k] == Defaulted(Get(s.fields, k).value.default.v)
  {
    map k | k in FieldNames(s) ::
      if HasKey(es, k) then Given(Get(es, k).value)
      else
        var f := Get(s.fields, k).value;
        match f.default
        case DefaultTo(v) => Defaulted(v)
        // MissingField found no mandatory field without a value, so k has a default
        case Mandatory => assert false; Given(Int(0))
  }

  /**
   * `converter.structure(es, cls)`: unknown keys are rejected at every level, then a field
   * without a default that the input does not give is missing; otherwise each field takes
   * the input's value or its default.
   */
  function Structure(s: Schema, es: seq<(string, Yaml)>): (r: Result<map<string, AttrVal>>)
    ensures r.Ok? ==> Conforms(s, Map(es))
    ensures r.Ok? ==> r.value.Keys == FieldNames(s)
    ensures !Conforms(s, Map(es)) ==> r.Err? && r.error.ForbiddenExtraKeys?
    ensures Conforms(s, Map(es)) && r.Err? ==> r.error.KeyError? && MissingField(s.fields, es) == Some(r.error.key)
    ensures Conforms(s, Map(es)) && MissingField(s.fields, es).None? ==> r == Ok(InitialAttrs(s, es))
  {
    CheckNodeIff(s, Map(es));
    var _ :- CheckNode(s, Map(es));
    var missing := MissingField(s.fields, es);
    if missing.Some? then Err(KeyError(missing.value))
    else Ok(InitialAttrs(s, es))
  }

  /** A built object: the kind it was built from and its attributes. */
  class Obj {
    const kind: string
    var attrs: map<string, AttrVal>

    constructor(kind: string, attrs: map<string, AttrVal>)
      ensures this.kind == kind && this.attrs == attrs
    {
      this.kind := kind;
      this.attrs := attrs;
    }
  }
}
