/**
 * The namespace registry of xds/core/registry.py: compiled classes and built instances
 * are registered under paths `models/<name>` and `instances/<Class>/<ns>`, and `locator`
 * resolves a path by an exact match, then a per-prefix fallback, then a fuzzy match on
 * the last segment that is accepted only when it is unique.
 */
module Registry {
  import opened Wrappers
  import opened Text
  import opened Data
  import Field
  import opened Schema
  import Dynamo

  /** A compiled class as registered: the class and the `nsid` attribute written onto it. */
  class ModelObj {
    const schema: Schema
    var nsid: Option<string>

    constructor(schema: Schema)
      ensures this.schema == schema && nsid == None
    {
      this.schema := schema;
      nsid := None;
    }
  }

  /** What a namespace path names. Neither a class nor an instance is ever falsy. */
  datatype Entry = EModel(model: ModelObj) | EInstance(obj: Obj)

  /** `f'{value}'` for a coerced scalar. */
  function AtomText(a: Field.Atom): string {
    match a
    case AStr(s) => s
    case AInt(i) => Dynamo.Show(Int(i))
    case ABool(b) => Dynamo.Show(Bool(b))
    case AFloat(t) => t
  }

  /** `f'{value}'` for a default. */
  function SpecText(v: Field.SpecValue): string {
    match v
    case Null => "None"
    case Atom(a) => AtomText(a)
    case Atoms(_) => "[...]"
    case Type(_) => "<class>"
  }

  /** `f'{value}'` for an attribute value. */
  function AttrText(v: AttrVal): string {
    match v
    case Given(y) => Dynamo.Show(y)
    case Delegated(y) => Dynamo.Show(y)
    case Defaulted(d) => SpecText(d)
    case Internal(_) => "<object>"
  }

  /** `obj.ns` as text; an instance without that attribute raises AttributeError. */
  function NsText(o: Obj): (r: Result<string>)
    reads o
    ensures r.Ok? <==> "ns" in o.attrs
    ensures r.Err? ==> r.error.AttributeError?
  {
    if "ns" in o.attrs then Ok(AttrText(o.attrs["ns"]))
    else Err(AttributeError("'" + o.kind + "' object has no attribute 'ns'"))
  }

  /** The path of a registered class: `models/` and its lower-cased name. */
  function ModelPath(name: string): string {
    "models/" + Lower(name)
  }

  /** The key of a registered instance: `<Class>/<ns>`, lower-cased. */
  function InstanceKey(kind: string, ns: string): string {
    Lower(kind + "/" + ns)
  }

  /** The keys of `ns` that end with `last`, in registration order. */
  function EndingWith(ns: seq<(string, Entry)>, last: string): (found: seq<string>)
    ensures forall x :: x in found <==> HasKey(ns, x) && EndsWith(x, last)
    ensures UniqueKeys(ns) ==> forall i, j :: 0 <= i < j < |found| ==> found[i] != found[j]
  {
    if ns == [] then []
    else
      var rest := EndingWith(ns[1..], last);
      assert forall n :: 0 <= n < |ns| - 1 ==> ns[1..][n] == ns[n + 1];
      assert forall x :: HasKey(ns, x) <==> x == ns[0].0 || HasKey(ns[1..], x);
      if EndsWith(ns[0].0, last) then [ns[0].0] + rest else rest
  }

  /** `locator(nskey)`, as a function of the three tables. */
  function Locate(ns: seq<(string, Entry)>, models: map<string, ModelObj>, instances: map<string, Obj>, nskey: string): Result<Option<Entry>> {
    var exact := Get(ns, Lower(nskey));
    if exact.Some? then Ok(exact)
    else
      var parts := Split(nskey, '/');
      var fromModels: Option<Entry> :=
        if StartsWith(nskey, "models/") && |parts| >= 2 && parts[1] in models then Some(EModel(models[parts[1]])) else None;
      if fromModels.Some? then Ok(fromModels)
      else if !StartsWith(nskey, "instances/") then Ok(None)
      else LocateInstance(ns, instances, parts)
  }

  /**
   * The `instances/` fallback on the segments of the path: `<second>/<third>` in
   * `instances`, else the one registered path ending in the last segment.
   */
  function LocateInstance(ns: seq<(string, Entry)>, instances: map<string, Obj>, parts: seq<string>): Result<Option<Entry>>
    requires |parts| >= 1
  {
    if |parts| < 3 then Err(IndexError("list index out of range"))
    else
      var key := parts[1] + "/" + parts[2];
      if key in instances then Ok(Some(EInstance(instances[key])))
      else
        var found := EndingWith(ns, "/" + parts[|parts| - 1]);
        if |found| == 1 then Ok(Get(ns, found[0])) else Ok(None)
  }

  /**
   * `model(clstr)`: the class at `models/<clstr>`; a miss fails listing the names of the
   * registered classes.
   */
  function ModelOf(ns: seq<(string, Entry)>, models: map<string, ModelObj>, instances: map<string, Obj>, clstr: string): (r: Result<Entry>)
    ensures r.Err? ==> r.error == ModelNotRegistered(clstr, models.Keys)
  {
    var found := Locate(ns, models, instances, "models/" + clstr);
    ModelPathNeverRaises(ns, models, instances, clstr);
    if found.Err? || found.value.None? then Err(ModelNotRegistered(clstr, models.Keys))
    else Ok(found.value.value)
  }

  /** Only an `instances/` path can make the lookup raise, so a `models/` path never does. */
  lemma ModelPathNeverRaises(ns: seq<(string, Entry)>, models: map<string, ModelObj>, instances: map<string, Obj>, clstr: string)
    ensures Locate(ns, models, instances, "models/" + clstr).Ok?
  {
    LocateRaises(ns, models, instances, "models/" + clstr);
  }

  // ---------------------------------------------------------------------------------
  // The registry object

  class Registry {
    /** Every registered object, by path, in registration order. */
    var ns: seq<(string, Entry)>
    /** The registered classes, by lower-cased name. */
    var models: map<string, ModelObj>
    /** The registered instances, by `<class>/<ns>`, lower-cased. */
    var instances: map<string, Obj>

    /** Every path is registered once: `ns` is a dict. */
    predicate Valid()
      reads this
    {
      UniqueKeys(ns)
    }

    constructor()
      ensures Valid()
      ensures ns == [] && models == map[] && instances == map[]
    {
      ns := [];
      models := map[];
      instances := map[];
    }

    /** `_ns_init('models', cls)`: registers the class and writes its path onto it. */
    method RegisterModel(m: ModelObj)
      requires Valid()
      modifies this, m
      ensures Valid()
      ensures models == old(models)[Lower(m.schema.name) := m]
      ensures ns == Put(old(ns), ModelPath(m.schema.name), EModel(m))
      ensures instances == old(instances)
      ensures m.nsid == Some(ModelPath(m.schema.name))
    {
      var oid := Lower(m.schema.name);
      models := models[oid := m];
      var nsId := "models/" + oid;
      PutUnique(ns, nsId, EModel(m));
      ns := Put(ns, nsId, EModel(m));
      m.nsid := Some(nsId);
    }

    /**
     * `_ns_init('instances', obj)`: registers the instance under its class and `ns`
     * attribute and writes its path onto it as `nsid`; an instance without `ns` raises
     * before anything is registered.
     */
    method RegisterInstance(o: Obj) returns (r: Result<string>)
      requires Valid()
      modifies this, o
      ensures Valid()
      ensures r.Ok? <==> old(NsText(o)).Ok?
      ensures r.Err? ==> (r.error == old(NsText(o)).error &&
        ns == old(ns) && models == old(models) && instances == old(instances) && o.attrs == old(o.attrs))
      ensures r.Ok? ==> (r.value == "instances/" + InstanceKey(o.kind, old(NsText(o)).value) &&
        instances == old(instances)[InstanceKey(o.kind, old(NsText(o)).value) := o] &&
        ns == Put(old(ns), r.value, EInstance(o)) &&
        models == old(models) &&
        o.attrs == old(o.attrs)["nsid" := Given(Str(r.value))])
    {
      var text := NsText(o);
      if text.Err? {
        r := Err(text.error);
        return;
      }
      var oid := Lower(o.kind + "/" + text.value);
      instances := instances[oid := o];
      var nsId := "instances/" + oid;
      PutUnique(ns, nsId, EInstance(o));
      ns := Put(ns, nsId, EInstance(o));
      o.attrs := o.attrs["nsid" := Given(Str(nsId))];
      r := Ok(nsId);
    }

    /** `locator(nskey)`. */
    function Locator(nskey: string): Result<Option<Entry>>
      reads this
    {
      Locate(ns, models, instances, nskey)
    }

    /** `model(clstr)`. */
    function Model(clstr: string): Result<Entry>
      reads this
    {
      ModelOf(ns, models, instances, clstr)
    }

    /** `obj(objkey)`: the lookup itself. */
    function ObjAt(objkey: string): Result<Option<Entry>>
      reads this
    {
      Locate(ns, models, instances, objkey)
    }
  }

  // ---------------------------------------------------------------------------------
  // What the lookup finds

  /** An exact hit on the lower-cased path wins over every fallback. */
  lemma LocateExact(ns: seq<(string, Entry)>, models: map<string, ModelObj>, instances: map<string, Obj>, nskey: string)
    requires HasKey(ns, Lower(nskey))
    ensures Locate(ns, models, instances, nskey) == Ok(Get(ns, Lower(nskey)))
    ensures Get(ns, Lower(nskey)).Some?
  {
  }

  /**
   * The `models/` fallback looks the segment after `models/` up in `models` exactly as
   * written, not lower-cased, and a miss there is final.
   */
  lemma LocateModels(ns: seq<(string, Entry)>, models: map<string, ModelObj>, instances: map<string, Obj>, rest: string)
    requires !HasKey(ns, Lower("models/" + rest))
    ensures var seg := Split(rest, '/')[0];
      Locate(ns, models, instances, "models/" + rest) == Ok(if seg in models then Some(EModel(models[seg])) else None)
  {
    SplitCons("models", '/', rest);
    assert "models/" + rest == "models" + ['/'] + rest;
    assert StartsWith("models/" + rest, "models/");
    assert !StartsWith("models/" + rest, "instances/") by {
      assert ("models/" + rest)[0] == 'm';
    }
  }

  /** Outside the two prefixes a miss on the exact path is final. */
  lemma LocateOther(ns: seq<(string, Entry)>, models: map<string, ModelObj>, instances: map<string, Obj>, nskey: string)
    requires !HasKey(ns, Lower(nskey))
    requires !StartsWith(nskey, "models/") && !StartsWith(nskey, "instances/")
    ensures Locate(ns, models, instances, nskey) == Ok(None)
  {
  }

  /** The lookup raises only for an `instances/` path of fewer than three segments. */
  lemma LocateRaises(ns: seq<(string, Entry)>, models: map<string, ModelObj>, instances: map<string, Obj>, nskey: string)
    ensures Locate(ns, models, instances, nskey).Err? <==>
      !HasKey(ns, Lower(nskey)) && StartsWith(nskey, "instances/") && |Split(nskey, '/')| < 3
    ensures Locate(ns, models, instances, nskey).Err? ==>
      Locate(ns, models, instances, nskey).error == IndexError("list index out of range")
  {
    if StartsWith(nskey, "instances/") {
      assert !StartsWith(nskey, "models/") by {
        assert nskey[0] == 'i';
      }
    }
  }

  /** The `instances/` fallback looks up `<second>/<third>` segment in `instances`. */
  lemma LocateInstances(ns: seq<(string, Entry)>, models: map<string, ModelObj>, instances: map<string, Obj>, nskey: string)
    requires !HasKey(ns, Lower(nskey)) && StartsWith(nskey, "instances/")
    requires |Split(nskey, '/')| >= 3
    requires Split(nskey, '/')[1] + "/" + Split(nskey, '/')[2] in instances
    ensures Locate(ns, models, instances, nskey) ==
      Ok(Some(EInstance(instances[Split(nskey, '/')[1] + "/" + Split(nskey, '/')[2]])))
  {
    assert !StartsWith(nskey, "models/") by {
      assert nskey[0] == 'i';
    }
  }

  /** `p` is the one registered path that ends with `last`. */
  ghost predicate OnlyEnding(ns: seq<(string, Entry)>, last: string, p: string) {
    HasKey(ns, p) && EndsWith(p, last) && forall q :: HasKey(ns, q) && EndsWith(q, last) ==> q == p
  }

  /** With distinct paths, the filter keeps exactly one path when one path alone ends with `last`. */
  lemma EndingWithOne(ns: seq<(string, Entry)>, last: string)
    requires UniqueKeys(ns)
    ensures |EndingWith(ns, last)| == 1 <==> exists p :: OnlyEnding(ns, last, p)
    ensures forall p :: OnlyEnding(ns, last, p) ==> EndingWith(ns, last) == [p]
  {
    var found := EndingWith(ns, last);
    if |found| == 1 {
      assert found[0] in found;
      assert OnlyEnding(ns, last, found[0]) by {
        forall q | HasKey(ns, q) && EndsWith(q, last)
          ensures q == found[0]
        {
          assert q in found;
        }
      }
    } else if |found| >= 2 {
      assert found[0] in found && found[1] in found;
    }
  }

  /**
   * The fuzzy match: when both lookups of an `instances/` path miss, the result is the
   * one registered path ending in `/<last segment>`, and nothing when there are none or
   * several.
   */
  lemma LocateFuzzy(ns: seq<(string, Entry)>, models: map<string, ModelObj>, instances: map<string, Obj>, nskey: string)
    requires UniqueKeys(ns)
    requires !HasKey(ns, Lower(nskey)) && StartsWith(nskey, "instances/")
    requires |Split(nskey, '/')| >= 3
    requires Split(nskey, '/')[1] + "/" + Split(nskey, '/')[2] !in instances
    ensures var last := "/" + Split(nskey, '/')[|Split(nskey, '/')| - 1];
      Locate(ns, models, instances, nskey).Ok? &&
      (Locate(ns, models, instances, nskey).value.Some? <==> exists p :: OnlyEnding(ns, last, p))
    ensures var last := "/" + Split(nskey, '/')[|Split(nskey, '/')| - 1];
      forall p :: OnlyEnding(ns, last, p) ==> Locate(ns, models, instances, nskey) == Ok(Get(ns, p))
  {
    LocateLast(ns, models, instances, nskey);
    PickOnlyEnding(ns, "/" + Split(nskey, '/')[|Split(nskey, '/')| - 1]);
  }

  /** The fuzzy pick: a path when exactly one registered path ends with `last`, else none. */
  lemma PickOnlyEnding(ns: seq<(string, Entry)>, last: string)
    requires UniqueKeys(ns)
    ensures var found := EndingWith(ns, last);
      var picked := if |found| == 1 then Get(ns, found[0]) else None;
      (picked.Some? <==> exists p :: OnlyEnding(ns, last, p)) &&
      forall p :: OnlyEnding(ns, last, p) ==> picked == Get(ns, p)
  {
    var found := EndingWith(ns, last);
    EndingWithOne(ns, last);
    if |found| == 1 {
      assert found[0] in found;
    }
  }

  /** When both lookups of an `instances/` path miss, only the filter on its last segment is left. */
  lemma LocateLast(ns: seq<(string, Entry)>, models: map<string, ModelObj>, instances: map<string, Obj>, nskey: string)
    requires !HasKey(ns, Lower(nskey)) && StartsWith(nskey, "instances/")
    requires |Split(nskey, '/')| >= 3
    requires Split(nskey, '/')[1] + "/" + Split(nskey, '/')[2] !in instances
    ensures var found := EndingWith(ns, "/" + Split(nskey, '/')[|Split(nskey, '/')| - 1]);
      Locate(ns, models, instances, nskey) == if |found| == 1 then Ok(Get(ns, found[0])) else Ok(None)
  {
    assert !StartsWith(nskey, "models/") by {
      assert nskey[0] == 'i';
    }
    assert Locate(ns, models, instances, nskey) == LocateInstance(ns, instances, Split(nskey, '/'));
  }

  // ---------------------------------------------------------------------------------
  // Registration then lookup

  lemma {:induction false} LowerAppend(a: string, b: string)
    ensures Lower(a + b) == Lower(a) + Lower(b)
  {
    assert forall i :: 0 <= i < |a + b| ==> Lower(a + b)[i] == (Lower(a) + Lower(b))[i];
  }

  /**
   * A registered class is found by `model` under its name written in any case, since the
   * exact lookup lower-cases the path.
   */
  lemma RegisteredModelFound(ns: seq<(string, Entry)>, models: map<string, ModelObj>, instances: map<string, Obj>, m: ModelObj, clstr: string)
    requires Lower(clstr) == Lower(m.schema.name)
    ensures var ns' := Put(ns, ModelPath(m.schema.name), EModel(m));
      var models' := models[Lower(m.schema.name) := m];
      Locate(ns', models', instances, "models/" + clstr) == Ok(Some(EModel(m))) &&
      ModelOf(ns', models', instances, clstr) == Ok(EModel(m))
  {
    var ns' := Put(ns, ModelPath(m.schema.name), EModel(m));
    LowerAppend("models/", clstr);
    assert Lower("models/") == "models/";
    PutGet(ns, ModelPath(m.schema.name), EModel(m));
    assert HasKey(ns', Lower("models/" + clstr));
  }

  /**
   * A registered instance is found at `instances/<Class>/<ns>`, in any case, through the
   * exact lookup.
   */
  lemma RegisteredInstanceFound(ns: seq<(string, Entry)>, models: map<string, ModelObj>, instances: map<string, Obj>, o: Obj, text: string, path: string)
    requires Lower(path) == "instances/" + InstanceKey(o.kind, text)
    ensures var ns' := Put(ns, "instances/" + InstanceKey(o.kind, text), EInstance(o));
      var instances' := instances[InstanceKey(o.kind, text) := o];
      Locate(ns', models, instances', path) == Ok(Some(EInstance(o)))
  {
    PutGet(ns, "instances/" + InstanceKey(o.kind, text), EInstance(o));
  }

  /** A registration leaves every other path naming what it named. */
  lemma RegistrationKeepsOthers(ns: seq<(string, Entry)>, path: string, e: Entry, other: string)
    requires other != path
    ensures Get(Put(ns, path, e), other) == Get(ns, other)
  {
    PutGet(ns, path, e);
  }
}
