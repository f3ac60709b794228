/**
 * The nested value a YAML or JSON loader hands to the schema compilers, and
 * `_if_missing_cls`, which both xds/core/dynamo.py and xds/core/cls_factory.py use to
 * stamp a `kind` into every map.
 */
module Data {
  import opened Wrappers

  /** A loaded value: a map keeps its insertion order, as a Python dict does. */
  datatype Yaml =
    | Str(s: string)
    | Int(i: int)
    | Bool(b: bool)
    | Map(entries: seq<(string, Yaml)>)
    | List(items: seq<Yaml>)

  /** The name of the root class when the input names none. */
  const DynamicClass: string := "DynamicClass"

  /** `k in d` for a dict given as its ordered entries. */
  predicate HasKey<V>(es: seq<(string, V)>, k: string) {
    exists n :: 0 <= n < |es| && es[n].0 == k
  }

  /** `d.get(k)`: the value of the first entry with key `k`. */
  function Get<V>(es: seq<(string, V)>, k: string): (r: Option<V>)
    ensures r.Some? <==> HasKey(es, k)
    ensures r.Some? ==> exists n :: 0 <= n < |es| && es[n] == (k, r.value)
  {
    if es == [] then None
    else if es[0].0 == k then Some(es[0].1)
    else
      var r := Get(es[1..], k);
      assert forall n :: 0 <= n < |es| - 1 ==> es[1..][n] == es[n + 1];
      r
  }

  /** The keys of a dict, in order. */
  function Keys<V>(es: seq<(string, V)>): (ks: seq<string>)
    ensures |ks| == |es| && forall n :: 0 <= n < |es| ==> ks[n] == es[n].0
  {
    seq(|es|, n requires 0 <= n < |es| => es[n].0)
  }

  /** No key occurs twice, as in any Python dict. */
  predicate UniqueKeys<V>(es: seq<(string, V)>) {
    forall i, j :: 0 <= i < j < |es| ==> es[i].0 != es[j].0
  }

  /**
   * `d[k] = v`: an existing key keeps its position and takes the new value; a new key
   * goes to the end.
   */
  function Put<V>(es: seq<(string, V)>, k: string, v: V): (r: seq<(string, V)>)
    ensures HasKey(es, k) ==> |r| == |es|
    ensures !HasKey(es, k) ==> r == es + [(k, v)]
    ensures forall n :: 0 <= n < |es| ==> r[n].0 == es[n].0
    ensures forall n :: 0 <= n < |es| && es[n].0 != k ==> r[n] == es[n]
  {
    if es == [] then [(k, v)]
    else if es[0].0 == k then [(k, v)] + es[1..]
    else
      var rest := Put(es[1..], k, v);
      assert forall n :: 0 <= n < |es| - 1 ==> es[1..][n] == es[n + 1];
      assert HasKey(es, k) <==> HasKey(es[1..], k) by {
        if HasKey(es, k) {
          var n :| 0 <= n < |es| && es[n].0 == k;
          assert es[1..][n - 1].0 == k;
        }
        if HasKey(es[1..], k) {
          var n :| 0 <= n < |es[1..]| && es[1..][n].0 == k;
          assert es[n + 1].0 == k;
        }
      }
      assert es == [es[0]] + es[1..];
      [es[0]] + rest
  }

  /** After `d[k] = v`, `d.get(k)` is `v` and every other key reads as before. */
  lemma {:induction false} PutGet<V>(es: seq<(string, V)>, k: string, v: V)
    ensures Get(Put(es, k, v), k) == Some(v)
    ensures forall j :: j != k ==> Get(Put(es, k, v), j) == Get(es, j)
  {
    if es != [] && es[0].0 != k {
      var r := Put(es, k, v);
      var tail := Put(es[1..], k, v);
      PutGet(es[1..], k, v);
      assert r == [es[0]] + tail;
      assert r[1..] == tail;
      assert Get(r, k) == Get(tail, k);
      forall j | j != k
        ensures Get(r, j) == Get(es, j)
      {
        if j != es[0].0 {
          assert Get(r, j) == Get(tail, j);
        }
      }
    }
  }

  /** Every entry after `d[k] = v` is the new one or the entry that was there. */
  lemma {:induction false} PutEntries<V>(es: seq<(string, V)>, k: string, v: V)
    ensures forall n :: 0 <= n < |Put(es, k, v)| ==> Put(es, k, v)[n] == (k, v) || (n < |es| && Put(es, k, v)[n] == es[n])
  {
    if es != [] && es[0].0 != k {
      PutEntries(es[1..], k, v);
      assert Put(es, k, v)[1..] == Put(es[1..], k, v);
    }
  }

  /** `d[k] = v` keeps the keys distinct. */
  lemma PutUnique<V>(es: seq<(string, V)>, k: string, v: V)
    requires UniqueKeys(es)
    ensures UniqueKeys(Put(es, k, v))
  {
    var r := Put(es, k, v);
    forall i, j | 0 <= i < j < |r|
      ensures r[i].0 != r[j].0
    {
      if j < |es| {
        assert r[i].0 == es[i].0 && r[j].0 == es[j].0;
      } else {
        assert !HasKey(es, k) && r[j].0 == k;
        assert r[i].0 == es[i].0;
      }
    }
  }

  /** The keys of a dict, as a set. */
  function KeySet<V>(es: seq<(string, V)>): (ks: set<string>)
    ensures forall k :: k in ks <==> HasKey(es, k)
  {
    set n | 0 <= n < |es| :: es[n].0
  }

  /** `d[k] = v` adds `k` to the keys and no other. */
  lemma PutKeySet<V>(es: seq<(string, V)>, k: string, v: V)
    ensures KeySet(Put(es, k, v)) == KeySet(es) + {k}
  {
    var r := Put(es, k, v);
    forall j | j in KeySet(es)
      ensures j in KeySet(r)
    {
      var n :| 0 <= n < |es| && es[n].0 == j;
      assert r[n].0 == j;
    }
    assert k in KeySet(r) by {
      if HasKey(es, k) {
        var n :| 0 <= n < |es| && es[n].0 == k;
        assert r[n].0 == k;
      } else {
        assert r[|es|].0 == k;
      }
    }
    forall j | j in KeySet(r) && j != k
      ensures j in KeySet(es)
    {
      var n :| 0 <= n < |r| && r[n].0 == j;
      assert n < |es|;
      assert es[n].0 == j;
    }
  }

  /** Two assignments in a row, to distinct keys, add both keys and no other. */
  lemma PutPairKeys<V>(es: seq<(string, V)>, k1: string, v1: V, k2: string, v2: V)
    ensures KeySet(Put(Put(es, k1, v1), k2, v2)) == KeySet(es) + {k1, k2}
  {
    var once := Put(es, k1, v1);
    PutKeySet(es, k1, v1);
    PutKeySet(once, k2, v2);
    AddTwo(KeySet(es), k1, k2);
  }

  lemma AddTwo(ks: set<string>, k1: string, k2: string)
    ensures ks + {k1} + {k2} == ks + {k1, k2}
  {
  }

  /** After two assignments to distinct keys, each reads as assigned. */
  lemma PutPairGet<V>(es: seq<(string, V)>, k1: string, v1: V, k2: string, v2: V)
    requires k1 != k2
    ensures Get(Put(Put(es, k1, v1), k2, v2), k1) == Some(v1)
    ensures Get(Put(Put(es, k1, v1), k2, v2), k2) == Some(v2)
  {
    PutGet(es, k1, v1);
    PutGet(Put(es, k1, v1), k2, v2);
  }

  /** Two assignments of new keys append them in order. */
  lemma PutPairFresh<V>(es: seq<(string, V)>, k1: string, v1: V, k2: string, v2: V)
    requires k1 != k2 && !HasKey(es, k1) && !HasKey(es, k2)
    ensures Put(Put(es, k1, v1), k2, v2) == es + [(k1, v1), (k2, v2)]
  {
    var once := Put(es, k1, v1);
    assert once == es + [(k1, v1)];
    assert !HasKey(once, k2) by {
      forall n | 0 <= n < |once|
        ensures once[n].0 != k2
      {
        if n < |es| {
          assert once[n] == es[n];
        }
      }
    }
    assert once + [(k2, v2)] == es + [(k1, v1), (k2, v2)];
  }

  // ---------------------------------------------------------------------------------
  // Kind stamping

  /**
   * `_if_missing_cls(key, data)`: a map without `kind` gets `kind = key` appended, and each
   * value is stamped with its own key; the items of a list are stamped with the list's key;
   * any other value is returned as it is.
   */
  function Stamp(key: string, v: Yaml): Yaml
    decreases v, 1
  {
    match v
    case Map(es) =>
      var stamped := StampEntries(v, 0);
      Map(if HasKey(es, "kind") then stamped else stamped + [("kind", Str(key))])
    case List(xs) => List(StampItems(key, v, 0))
    case _ => v
  }

  /** The entries of `node` from index `i` on, each value stamped with its key. */
  function StampEntries(node: Yaml, i: nat): (r: seq<(string, Yaml)>)
    requires node.Map? && i <= |node.entries|
    ensures |r| == |node.entries| - i
    ensures forall n :: 0 <= n < |r| ==> r[n].0 == node.entries[i + n].0
    decreases node, 0, |node.entries| - i
  {
    if i == |node.entries| then []
    else
      var (k, x) := node.entries[i];
      [(k, Stamp(k, x))] + StampEntries(node, i + 1)
  }

  /** The items of `node` from index `i` on, each stamped with `key`. */
  function StampItems(key: string, node: Yaml, i: nat): (r: seq<Yaml>)
    requires node.List? && i <= |node.items|
    ensures |r| == |node.items| - i
    decreases node, 0, |node.items| - i
  {
    if i == |node.items| then []
    else [Stamp(key, node.items[i])] + StampItems(key, node, i + 1)
  }

  /** Every map reachable from `v` has a `kind`. */
  predicate Kinded(v: Yaml)
    decreases v
  {
    match v
    case Map(es) => HasKey(es, "kind") && forall n :: 0 <= n < |es| ==> Kinded(es[n].1)
    case List(xs) => forall n :: 0 <= n < |xs| ==> Kinded(xs[n])
    case _ => true
  }

  lemma {:induction false} StampEntriesAt(node: Yaml, i: nat, n: nat)
    requires node.Map? && i <= |node.entries| && n < |node.entries| - i
    ensures StampEntries(node, i)[n] == (node.entries[i + n].0, Stamp(node.entries[i + n].0, node.entries[i + n].1))
    decreases |node.entries| - i
  {
    if n > 0 {
      StampEntriesAt(node, i + 1, n - 1);
    }
  }

  lemma {:induction false} StampItemsAt(key: string, node: Yaml, i: nat, n: nat)
    requires node.List? && i <= |node.items| && n < |node.items| - i
    ensures StampItems(key, node, i)[n] == Stamp(key, node.items[i + n])
    decreases |node.items| - i
  {
    if n > 0 {
      StampItemsAt(key, node, i + 1, n - 1);
    }
  }

  /**
   * The shape of a stamped map: the same keys in the same order, each value stamped with
   * its own key, plus `kind = key` at the end when there was no `kind`.
   */
  lemma StampMap(key: string, es: seq<(string, Yaml)>)
    ensures Stamp(key, Map(es)).Map?
    ensures var r := Stamp(key, Map(es)).entries;
      |r| == |es| + (if HasKey(es, "kind") then 0 else 1) &&
      (forall n :: 0 <= n < |es| ==> r[n] == (es[n].0, Stamp(es[n].0, es[n].1))) &&
      (!HasKey(es, "kind") ==> r[|es|] == ("kind", Str(key)))
  {
    forall n | 0 <= n < |es|
      ensures StampEntries(Map(es), 0)[n] == (es[n].0, Stamp(es[n].0, es[n].1))
    {
      StampEntriesAt(Map(es), 0, n);
    }
  }

  /** The items of a stamped list are the items stamped with the list's key. */
  lemma StampList(key: string, xs: seq<Yaml>)
    ensures Stamp(key, List(xs)) == List(seq(|xs|, n requires 0 <= n < |xs| => Stamp(key, xs[n])))
  {
    forall n | 0 <= n < |xs|
      ensures StampItems(key, List(xs), 0)[n] == Stamp(key, xs[n])
    {
      StampItemsAt(key, List(xs), 0, n);
    }
  }

  /** A map's existing `kind` keeps its key; a text kind keeps its value. */
  lemma StampKeepsKind(key: string, es: seq<(string, Yaml)>)
    requires HasKey(es, "kind")
    ensures HasKey(Stamp(key, Map(es)).entries, "kind")
    ensures Get(es, "kind").value.Str? ==> Get(Stamp(key, Map(es)).entries, "kind") == Get(es, "kind")
  {
    StampMap(key, es);
    var r := Stamp(key, Map(es)).entries;
    var n :| 0 <= n < |es| && es[n].0 == "kind";
    assert r[n].0 == "kind";
    StampGetFirst(es, r, "kind");
  }

  /** `Get` on a stamped map looks at the same position as on the original. */
  lemma {:induction false} StampGetFirst(es: seq<(string, Yaml)>, r: seq<(string, Yaml)>, k: string)
    requires |r| >= |es|
    requires forall n :: 0 <= n < |es| ==> r[n] == (es[n].0, Stamp(es[n].0, es[n].1))
    requires HasKey(es, k)
    ensures Get(r, k) == Some(Stamp(k, Get(es, k).value))
  {
    if es[0].0 != k {
      assert forall n :: 0 <= n < |es| - 1 ==> r[1..][n] == (es[1..][n].0, Stamp(es[1..][n].0, es[1..][n].1));
      var n :| 0 <= n < |es| && es[n].0 == k;
      assert es[1..][n - 1].0 == k;
      StampGetFirst(es[1..], r[1..], k);
    }
  }

  /** After stamping, every reachable map has a `kind`. */
  lemma {:induction false} StampKinded(key: string, v: Yaml)
    ensures Kinded(Stamp(key, v))
    decreases v
  {
    match v
    case Map(es) =>
      StampMap(key, es);
      var r := Stamp(key, v).entries;
      forall n | 0 <= n < |es|
        ensures Kinded(r[n].1)
      {
        StampKinded(es[n].0, es[n].1);
      }
      if !HasKey(es, "kind") {
        assert r[|es|].0 == "kind";
      } else {
        var n :| 0 <= n < |es| && es[n].0 == "kind";
        assert r[n].0 == "kind";
      }
    case List(xs) =>
      StampList(key, xs);
      forall n | 0 <= n < |xs|
        ensures Kinded(Stamp(key, xs[n]))
      {
        StampKinded(key, xs[n]);
      }
    case _ =>
  }

  /** Stamping a second time changes nothing. */
  lemma {:induction false} StampIdempotent(key: string, v: Yaml)
    ensures Stamp(key, Stamp(key, v)) == Stamp(key, v)
    decreases v
  {
    match v
    case Map(es) =>
      StampMap(key, es);
      var r := Stamp(key, v).entries;
      StampMap(key, r);
      assert HasKey(r, "kind") by {
        if HasKey(es, "kind") {
          var n :| 0 <= n < |es| && es[n].0 == "kind";
          assert r[n].0 == "kind";
        } else {
          assert r[|es|].0 == "kind";
        }
      }
      var rr := Stamp(key, Map(r)).entries;
      forall n | 0 <= n < |r|
        ensures rr[n] == r[n]
      {
        if n < |es| {
          StampIdempotent(es[n].0, es[n].1);
        }
      }
    case List(xs) =>
      StampList(key, xs);
      var ys := Stamp(key, v).items;
      StampList(key, ys);
      forall n | 0 <= n < |xs|
        ensures Stamp(key, ys[n]) == ys[n]
      {
        StampIdempotent(key, xs[n]);
      }
    case _ =>
  }

  /** A value already kinded everywhere is left as it is. */
  lemma {:induction false} StampKindedIdentity(key: string, v: Yaml)
    requires Kinded(v)
    ensures Stamp(key, v) == v
    decreases v
  {
    match v
    case Map(es) =>
      StampMap(key, es);
      var r := Stamp(key, v).entries;
      forall n | 0 <= n < |es|
        ensures r[n] == es[n]
      {
        StampKindedIdentity(es[n].0, es[n].1);
      }
    case List(xs) =>
      StampList(key, xs);
      forall n | 0 <= n < |xs|
        ensures Stamp(key, xs[n]) == xs[n]
      {
        StampKindedIdentity(key, xs[n]);
      }
    case _ =>
  }

  /** `_inputs`: the loaded value stamped from the root, whose default kind is `DynamicClass`. */
  function Inputs(data: Yaml): (r: Yaml)
    ensures Kinded(r)
    ensures data.Map? ==> r.Map? && HasKey(r.entries, "kind")
  {
    StampKinded(DynamicClass, data);
    Stamp(DynamicClass, data)
  }
}
