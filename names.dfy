/**
 * Name translation and query-string nesting: `xlate`, `xlation_map` and
 * `parse_url.parse_nested_qs` of xds/utils/helpers.py, whose copies in refactor/utils.py
 * differ only in how `parse_nested_qs` walks to an intermediate dict.
 */
module Names {
  import opened Wrappers
  import opened Text

  /** Label words that are upper-cased instead of title-cased. */
  const Specials: seq<string> := ["LOB", "PL", "PI"]

  /**
   * A character matched by the regular expression class `\w`: an ASCII letter, digit or
   * underscore; every character beyond ASCII is counted as a word character.
   */
  predicate IsWordChar(c: char) {
    IsLetter(c) || IsDigit(c) || c == '_' || c as int >= 128
  }

  predicate AllWordChars(s: string) {
    forall i :: 0 <= i < |s| ==> IsWordChar(s[i])
  }

  predicate NoWordChars(s: string) {
    forall i :: 0 <= i < |s| ==> !IsWordChar(s[i])
  }

  // ---------------------------------------------------------------------------------
  // xlate

  /**
   * `re.sub(r'\W+', '_', s)` scanning left to right; `inRun` says the character before `s`
   * was a non-word character and has already produced its `_`.
   */
  function Collapse(s: string, inRun: bool): string
    decreases |s|
  {
    if s == [] then []
    else if IsWordChar(s[0]) then [s[0]] + Collapse(s[1..], false)
    else if inRun then Collapse(s[1..], true)
    else "_" + Collapse(s[1..], true)
  }

  /** `re.sub(r'\W+', '_', s)`. */
  function Substitute(s: string): string {
    Collapse(s, false)
  }

  lemma {:induction false} CollapseWordChars(s: string, inRun: bool)
    ensures AllWordChars(Collapse(s, inRun))
    decreases |s|
  {
    if s != [] {
      CollapseWordChars(s[1..], !IsWordChar(s[0]));
    }
  }

  /** A leading stretch of word characters passes through the substitution unchanged. */
  lemma {:induction false} SubstituteWordPrefix(a: string, t: string)
    requires AllWordChars(a)
    ensures Substitute(a + t) == a + Substitute(t)
    decreases |a|
  {
    if a != [] {
      assert (a + t)[0] == a[0] && (a + t)[1..] == a[1..] + t;
      assert Substitute(a + t) == [a[0]] + Substitute(a[1..] + t);
      SubstituteWordPrefix(a[1..], t);
      assert a == [a[0]] + a[1..];
    } else {
      assert a + t == t;
    }
  }

  lemma {:induction false} CollapseRunTail(r: string, t: string)
    requires NoWordChars(r)
    requires t == [] || IsWordChar(t[0])
    ensures Collapse(r + t, true) == Collapse(t, false)
    decreases |r|
  {
    if r != [] {
      assert (r + t)[0] == r[0] && (r + t)[1..] == r[1..] + t;
      CollapseRunTail(r[1..], t);
    } else {
      assert r + t == t;
    }
  }

  /** A maximal run of non-word characters becomes a single `_`. */
  lemma SubstituteRun(r: string, t: string)
    requires |r| > 0 && NoWordChars(r)
    requires t == [] || IsWordChar(t[0])
    ensures Substitute(r + t) == "_" + Substitute(t)
  {
    assert (r + t)[0] == r[0] && (r + t)[1..] == r[1..] + t;
    CollapseRunTail(r[1..], t);
  }

  /** A string of word characters is its own substitution. */
  lemma SubstituteWordOnly(a: string)
    requires AllWordChars(a)
    ensures Substitute(a) == a
  {
    SubstituteWordPrefix(a, []);
    assert a + [] == a;
  }

  /** `xlate(val)[0]`: the substitution, lower-cased. */
  function VarOf(val: string): (v: string)
    ensures |v| == |Substitute(val)|
    ensures AllWordChars(v) && forall i :: 0 <= i < |v| ==> !IsUpperAscii(v[i])
  {
    CollapseWordChars(val, false);
    Lower(Substitute(val))
  }

  /** One label word: a special upper-cased, any other part title-cased. */
  function Word(part: string): string {
    if Upper(part) in Specials then Upper(part) else Title(part)
  }

  function Words(parts: seq<string>): (ws: seq<string>)
    ensures |ws| == |parts| && forall n :: 0 <= n < |parts| ==> ws[n] == Word(parts[n])
  {
    seq(|parts|, n requires 0 <= n < |parts| => Word(parts[n]))
  }

  /** `xlate(val)[1]` as a function of the var: the words of its `_`-parts, joined by spaces. */
  function LabelOf(v: string): string {
    Join(Words(Split(v, '_')), " ")
  }

  /** `xlate(val)`: the var name and the human label of `val`. */
  function Xlate(val: string): (r: (string, string))
    ensures r.0 == VarOf(val) && r.1 == LabelOf(r.0)
  {
    var v := VarOf(val);
    (v, LabelOf(v))
  }

  /** For ASCII input the var holds only lower-case letters, digits and `_`. */
  lemma VarAscii(val: string)
    requires forall i :: 0 <= i < |val| ==> val[i] as int < 128
    ensures forall i :: 0 <= i < |VarOf(val)| ==>
      IsLowerAscii(VarOf(val)[i]) || IsDigit(VarOf(val)[i]) || VarOf(val)[i] == '_'
  {
    CollapseAscii(val, false);
  }

  lemma {:induction false} CollapseAscii(s: string, inRun: bool)
    requires forall i :: 0 <= i < |s| ==> s[i] as int < 128
    ensures forall i :: 0 <= i < |Collapse(s, inRun)| ==> Collapse(s, inRun)[i] as int < 128
    decreases |s|
  {
    if s != [] {
      CollapseAscii(s[1..], !IsWordChar(s[0]));
    }
  }

  /** Translating a var again gives the same var. */
  lemma XlateIdempotent(val: string)
    ensures Xlate(Xlate(val).0).0 == Xlate(val).0
  {
    var v := VarOf(val);
    SubstituteWordOnly(v);
    assert Lower(v) == v;
  }

  /** A title-cased or upper-cased string holds a space exactly where the original does. */
  lemma WordKeepsSpaces(part: string)
    ensures ' ' in Word(part) ==> ' ' in part
  {
    if ' ' in Word(part) {
      var i :| 0 <= i < |Word(part)| && Word(part)[i] == ' ';
      assert part[i] == ' ';
    }
  }

  /**
   * The label has one word per `_`-separated part of the var, in order: splitting it on
   * spaces gives back the words.
   */
  lemma LabelWords(val: string)
    ensures var parts := Split(VarOf(val), '_');
      Split(Xlate(val).1, ' ') == Words(parts) &&
      |Split(Xlate(val).1, ' ')| == |parts|
  {
    var v := VarOf(val);
    var parts := Split(v, '_');
    SplitPieceChars(v, '_');
    assert ' ' !in v;
    forall n | 0 <= n < |parts|
      ensures ' ' !in Words(parts)[n]
    {
      WordKeepsSpaces(parts[n]);
    }
    SplitJoin(Words(parts), ' ');
  }

  // ---------------------------------------------------------------------------------
  // xlation_map

  /** The two dicts of `xlation_map`: var to label, and label or original value to var. */
  datatype Xlations = Xlations(human: map<string, string>, vars: map<string, string>)

  /** The entries one value adds, over the entries already made. */
  function AddXlation(x: Xlations, val: string): Xlations {
    var (v, eng) := Xlate(val);
    Xlations(x.human[v := eng], x.vars[eng := v][val := v])
  }

  /** `xlation_map(vals)` as a fold: each value in turn, later ones overwriting. */
  function XlationsOf(vals: seq<string>): Xlations
    decreases |vals|
  {
    if vals == [] then Xlations(map[], map[])
    else AddXlation(XlationsOf(vals[..|vals| - 1]), vals[|vals| - 1])
  }

  /** `xlation_map(vals)`. */
  method XlationMap(vals: seq<string>) returns (x: Xlations)
    ensures x == XlationsOf(vals)
  {
    x := Xlations(map[], map[]);
    for i := 0 to |vals|
      invariant x == XlationsOf(vals[..i])
    {
      assert vals[..i + 1][..i] == vals[..i];
      var (v, eng) := Xlate(vals[i]);
      x := Xlations(x.human[v := eng], x.vars[eng := v]);
      x := Xlations(x.human, x.vars[vals[i] := v]);
    }
    assert vals[..|vals|] == vals;
  }

  /**
   * `human` maps exactly the vars of the values, each to its own label, whatever the order
   * in which values sharing a var came.
   */
  lemma {:induction false} XlationsHuman(vals: seq<string>)
    ensures forall k :: k in XlationsOf(vals).human <==> exists val :: val in vals && VarOf(val) == k
    ensures forall k :: k in XlationsOf(vals).human ==> XlationsOf(vals).human[k] == LabelOf(k)
    decreases |vals|
  {
    if vals != [] {
      var init := vals[..|vals| - 1];
      XlationsHuman(init);
      assert vals == init + [vals[|vals| - 1]];
    }
  }

  /**
   * `vars` maps exactly the values and their labels, each to the var of a value it came
   * from.
   */
  lemma {:induction false} XlationsVars(vals: seq<string>)
    ensures forall k :: k in XlationsOf(vals).vars <==>
      exists val :: val in vals && (k == val || k == LabelOf(VarOf(val)))
    ensures forall k :: k in XlationsOf(vals).vars ==>
      exists val :: val in vals && (k == val || k == LabelOf(VarOf(val))) &&
        XlationsOf(vals).vars[k] == VarOf(val)
    decreases |vals|
  {
    if vals != [] {
      var init := vals[..|vals| - 1];
      var last := vals[|vals| - 1];
      var x := XlationsOf(init);
      var v := VarOf(last);
      XlationsVars(init);
      assert vals == init + [last];
      assert XlationsOf(vals).vars == x.vars[LabelOf(v) := v][last := v];
      forall k | k in XlationsOf(vals).vars
        ensures exists val :: (val in vals && (k == val || k == LabelOf(VarOf(val))) &&
          XlationsOf(vals).vars[k] == VarOf(val))
      {
        if k == last || k == LabelOf(v) {
          assert last in vals;
        } else {
          assert k in x.vars && XlationsOf(vals).vars[k] == x.vars[k];
          var val :| val in init && (k == val || k == LabelOf(VarOf(val))) && x.vars[k] == VarOf(val);
          assert val in vals;
        }
      }
    }
  }

  /**
   * A value maps to its own var unless a later value's label is that very string: later
   * values overwrite earlier ones.
   */
  lemma {:induction false} XlationsValueVar(vals: seq<string>, i: nat)
    requires i < |vals|
    requires forall j :: i < j < |vals| ==> LabelOf(VarOf(vals[j])) != vals[i] || VarOf(vals[j]) == VarOf(vals[i])
    ensures vals[i] in XlationsOf(vals).vars && XlationsOf(vals).vars[vals[i]] == VarOf(vals[i])
    decreases |vals|
  {
    var init := vals[..|vals| - 1];
    var last := vals[|vals| - 1];
    if i < |vals| - 1 {
      assert init[i] == vals[i];
      XlationsValueVar(init, i);
    }
  }

  // ---------------------------------------------------------------------------------
  // parse_nested_qs

  /** A value of the nested result: a string, a list of strings, or a nested dict. */
  datatype QsVal = Leaf(s: string) | Leaves(xs: seq<string>) | Node(children: map<string, QsVal>)

  /**
   * Which copy of `parse_nested_qs`: the one in xds/utils/helpers.py walks with
   * `setdefault`, the one in refactor/utils.py tests `key not in d` first.
   */
  datatype Walker = SetDefault | TestThenIndex

  /** `v[0].split(',') if ',' in v[0] else v[0]`; an empty list raises IndexError. */
  function FirstValue(v: seq<string>): (r: Result<QsVal>)
    ensures r.Err? <==> v == []
    ensures r.Ok? && ',' !in v[0] ==> r.value == Leaf(v[0])
    ensures r.Ok? && ',' in v[0] ==> (r.value.Leaves? && |r.value.xs| >= 2 &&
      Join(r.value.xs, ",") == v[0] && forall n :: 0 <= n < |r.value.xs| ==> ',' !in r.value.xs[n])
  {
    if v == [] then Err(IndexError("list index out of range"))
    else if ',' in v[0] then
      JoinSplit(v[0], ',');
      SplitLacksSeparator(v[0], ',');
      SplitAtSeparator(v[0], ',');
      Ok(Leaves(Split(v[0], ',')))
    else Ok(Leaf(v[0]))
  }

  /** The Python type name of a non-dict value, as it appears in error messages. */
  function TypeName(x: QsVal): string {
    match x
    case Leaf(_) => "str"
    case Leaves(_) => "list"
    case Node(_) => "dict"
  }

  /** `d[key] = ...` or `d[key]` when `d` holds a string or a list instead of a dict. */
  function IndexError_(x: QsVal, key: string, assigns: bool): Error {
    match x
    case Leaf(s) =>
      if assigns then TypeError("'str' object does not support item assignment")
      else TypeError("string indices must be integers, not 'str'")
    case _ => TypeError("list indices must be integers or slices, not str")
  }

  /**
   * The walk reached the non-dict `x` with `rest` keys still to go: a further intermediate
   * step fails at once (`setdefault` does not exist on it; `key not in d` is a substring or
   * element test, after which indexing or assigning fails), while the last key first
   * evaluates the value and then fails to assign.
   */
  function Stuck(x: QsVal, rest: seq<string>, value: Result<QsVal>, w: Walker): (e: Error)
    requires !x.Node? && |rest| >= 1
  {
    if |rest| > 1 then
      match w
      case SetDefault => AttributeError("'" + TypeName(x) + "' object has no attribute 'setdefault'")
      case TestThenIndex =>
        var present := match x
          case Leaf(s) => Occurs(rest[0], s)
          case Leaves(xs) => rest[0] in xs
          case Node(_) => false;
        IndexError_(x, rest[0], !present)
    else if value.Err? then value.error
    else IndexError_(x, rest[0], true)
  }

  /**
   * Walks `d` along `keys[..|keys| - 1]`, creating missing dicts, and stores the value under
   * the last key.
   */
  function Insert(d: map<string, QsVal>, keys: seq<string>, value: Result<QsVal>, w: Walker): Result<map<string, QsVal>>
    requires |keys| >= 1
    decreases |keys|
  {
    if |keys| == 1 then
      if value.Err? then Err(value.error) else Ok(d[keys[0] := value.value])
    else
      var k := keys[0];
      if k in d && !d[k].Node? then Err(Stuck(d[k], keys[1..], value, w))
      else
        var child := if k in d then d[k].children else map[];
        var c :- Insert(child, keys[1..], value, w);
        Ok(d[k := Node(c)])
  }

  /** `result[keys[0]][keys[1]]...`, or None where the path leaves the dicts. */
  function Lookup(d: map<string, QsVal>, keys: seq<string>): Option<QsVal>
    requires |keys| >= 1
    decreases |keys|
  {
    if keys[0] !in d then None
    else if |keys| == 1 then Some(d[keys[0]])
    else if d[keys[0]].Node? then Lookup(d[keys[0]].children, keys[1..])
    else None
  }

  /** Some proper prefix of `keys` leads to a string or a list. */
  predicate Blocked(d: map<string, QsVal>, keys: seq<string>)
    requires |keys| >= 1
    decreases |keys|
  {
    |keys| > 1 && keys[0] in d &&
      (if d[keys[0]].Node? then Blocked(d[keys[0]].children, keys[1..]) else true)
  }

  /** The insertion fails exactly when the path is blocked or the value is missing. */
  lemma {:induction false} InsertFails(d: map<string, QsVal>, keys: seq<string>, value: Result<QsVal>, w: Walker)
    requires |keys| >= 1
    ensures Insert(d, keys, value, w).Err? <==> Blocked(d, keys) || value.Err?
    ensures !Blocked(d, keys) && value.Err? ==> Insert(d, keys, value, w).error == value.error
    decreases |keys|
  {
    if |keys| > 1 {
      var k := keys[0];
      if !(k in d && !d[k].Node?) {
        var child := if k in d then d[k].children else map[];
        InsertFails(child, keys[1..], value, w);
        if k !in d {
          NothingBlocksEmpty(keys[1..]);
        }
      }
    }
  }

  lemma {:induction false} NothingBlocksEmpty(keys: seq<string>)
    requires |keys| >= 1
    ensures !Blocked(map[], keys)
  {
  }

  /** After a successful insertion the value sits at the end of the dotted path. */
  lemma {:induction false} InsertPlaces(d: map<string, QsVal>, keys: seq<string>, value: Result<QsVal>, w: Walker)
    requires |keys| >= 1 && Insert(d, keys, value, w).Ok?
    ensures value.Ok? && Lookup(Insert(d, keys, value, w).value, keys) == Some(value.value)
    decreases |keys|
  {
    if |keys| > 1 {
      var k := keys[0];
      var child := if k in d then d[k].children else map[];
      InsertPlaces(child, keys[1..], value, w);
    }
  }

  /**
   * An insertion leaves every path that parts from its own untouched, so intermediate dicts
   * already built keep their other entries.
   */
  lemma {:induction false} InsertKeepsOthers(d: map<string, QsVal>, keys: seq<string>, value: Result<QsVal>, w: Walker, p: seq<string>, i: nat)
    requires |keys| >= 1 && Insert(d, keys, value, w).Ok?
    requires i < |p| && i < |keys| && p[..i] == keys[..i] && p[i] != keys[i]
    ensures Lookup(Insert(d, keys, value, w).value, p) == Lookup(d, p)
    decreases |keys|
  {
    if i > 0 {
      var k := keys[0];
      assert p[0] == p[..i][0] == keys[..i][0] == k;
      var child := if k in d then d[k].children else map[];
      assert p[1..][..i - 1] == p[..i][1..] && keys[1..][..i - 1] == keys[..i][1..];
      InsertKeepsOthers(child, keys[1..], value, w, p[1..], i - 1);
      if k !in d {
        NothingFoundEmpty(p[1..]);
      }
    }
  }

  lemma {:induction false} NothingFoundEmpty(keys: seq<string>)
    requires |keys| >= 1
    ensures Lookup(map[], keys) == None
  {
  }

  /** Both copies of the walk succeed on the same inputs, with the same result. */
  lemma {:induction false} WalkersAgree(d: map<string, QsVal>, keys: seq<string>, value: Result<QsVal>)
    requires |keys| >= 1
    ensures Insert(d, keys, value, SetDefault).Ok? <==> Insert(d, keys, value, TestThenIndex).Ok?
    ensures Insert(d, keys, value, SetDefault).Ok? ==>
      Insert(d, keys, value, SetDefault).value == Insert(d, keys, value, TestThenIndex).value
    decreases |keys|
  {
    if |keys| > 1 {
      var k := keys[0];
      if !(k in d && !d[k].Node?) {
        var child := if k in d then d[k].children else map[];
        WalkersAgree(child, keys[1..], value);
      }
    }
  }

  /** `parse_nested_qs(qs)` over the query entries in order. */
  function NestedQsOf(qs: seq<(string, seq<string>)>, w: Walker): Result<map<string, QsVal>>
    decreases |qs|
  {
    if qs == [] then Ok(map[])
    else
      var acc :- NestedQsOf(qs[..|qs| - 1], w);
      var (k, v) := qs[|qs| - 1];
      Insert(acc, Split(k, '.'), FirstValue(v), w)
  }

  /** `parse_url.parse_nested_qs(qs)`: one walk per query entry. */
  method ParseNestedQs(qs: seq<(string, seq<string>)>, w: Walker) returns (r: Result<map<string, QsVal>>)
    ensures r == NestedQsOf(qs, w)
  {
    var result: map<string, QsVal> := map[];
    for i := 0 to |qs|
      invariant NestedQsOf(qs[..i], w) == Ok(result)
    {
      assert qs[..i + 1][..i] == qs[..i];
      var (k, v) := qs[i];
      var inserted := Insert(result, Split(k, '.'), FirstValue(v), w);
      if inserted.Err? {
        r := Err(inserted.error);
        NestedQsErrSticky(qs, i + 1, w);
        return;
      }
      result := inserted.value;
    }
    assert qs[..|qs|] == qs;
    r := Ok(result);
  }

  lemma {:induction false} NestedQsErrSticky(qs: seq<(string, seq<string>)>, i: nat, w: Walker)
    requires i <= |qs| && NestedQsOf(qs[..i], w).Err?
    ensures NestedQsOf(qs, w) == NestedQsOf(qs[..i], w)
    decreases |qs| - i
  {
    if i < |qs| {
      assert qs[..i + 1][..i] == qs[..i];
      NestedQsErrSticky(qs, i + 1, w);
    } else {
      assert qs[..i] == qs;
    }
  }

  /** The two copies of `parse_nested_qs` accept the same queries and build the same dict. */
  lemma {:induction false} NestedQsWalkersAgree(qs: seq<(string, seq<string>)>)
    ensures NestedQsOf(qs, SetDefault).Ok? <==> NestedQsOf(qs, TestThenIndex).Ok?
    ensures NestedQsOf(qs, SetDefault).Ok? ==> NestedQsOf(qs, SetDefault).value == NestedQsOf(qs, TestThenIndex).value
    decreases |qs|
  {
    if qs != [] {
      NestedQsWalkersAgree(qs[..|qs| - 1]);
      var (k, v) := qs[|qs| - 1];
      if NestedQsOf(qs[..|qs| - 1], SetDefault).Ok? {
        WalkersAgree(NestedQsOf(qs[..|qs| - 1], SetDefault).value, Split(k, '.'), FirstValue(v));
      }
    }
  }

  /**
   * Undotted keys with values each land at the top level as their first value: a query
   * without dots is a flat dict.
   */
  lemma {:induction false} FlatQuery(qs: seq<(string, seq<string>)>, w: Walker)
    requires forall n :: 0 <= n < |qs| ==> '.' !in qs[n].0 && qs[n].1 != []
    requires forall i, j :: 0 <= i < j < |qs| ==> qs[i].0 != qs[j].0
    ensures NestedQsOf(qs, w).Ok?
    ensures forall n :: 0 <= n < |qs| ==>
      qs[n].0 in NestedQsOf(qs, w).value && NestedQsOf(qs, w).value[qs[n].0] == FirstValue(qs[n].1).value
    decreases |qs|
  {
    if qs != [] {
      var init := qs[..|qs| - 1];
      FlatQuery(init, w);
      var (k, v) := qs[|qs| - 1];
      var acc := NestedQsOf(init, w).value;
      FlatStep(acc, k, v, w);
      var r := acc[k := FirstValue(v).value];
      assert NestedQsOf(qs, w) == Ok(r);
      forall n | 0 <= n < |qs|
        ensures qs[n].0 in r && r[qs[n].0] == FirstValue(qs[n].1).value
      {
        if n < |qs| - 1 {
          assert init[n] == qs[n];
        }
      }
    }
  }

  /** ...and the flat dict holds no other key. */
  lemma {:induction false} FlatQueryKeys(qs: seq<(string, seq<string>)>, w: Walker)
    requires forall n :: 0 <= n < |qs| ==> '.' !in qs[n].0 && qs[n].1 != []
    requires forall i, j :: 0 <= i < j < |qs| ==> qs[i].0 != qs[j].0
    ensures NestedQsOf(qs, w).Ok?
    ensures forall k :: k in NestedQsOf(qs, w).value ==> exists n :: 0 <= n < |qs| && qs[n].0 == k
    decreases |qs|
  {
    FlatQuery(qs, w);
    if qs != [] {
      var init := qs[..|qs| - 1];
      FlatQueryKeys(init, w);
      var (k, v) := qs[|qs| - 1];
      var acc := NestedQsOf(init, w).value;
      FlatStep(acc, k, v, w);
      var r := acc[k := FirstValue(v).value];
      assert NestedQsOf(qs, w) == Ok(r);
      forall key | key in r
        ensures exists n :: 0 <= n < |qs| && qs[n].0 == key
      {
        if key != k {
          var n :| 0 <= n < |init| && init[n].0 == key;
          assert qs[n] == init[n];
        }
      }
    }
  }

  /** One undotted entry with a value sets its key at the top level. */
  lemma FlatStep(acc: map<string, QsVal>, k: string, v: seq<string>, w: Walker)
    requires '.' !in k && v != []
    ensures Insert(acc, Split(k, '.'), FirstValue(v), w) == Ok(acc[k := FirstValue(v).value])
  {
    SplitSingle(k, '.');
  }
}
