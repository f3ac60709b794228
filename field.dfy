/**
 * The field modifier grammar of xds/core/field.py: `field_spec` turns a text such as
 * `int=42#req#gt=45` into a keyword-to-value map, and `cmp_value` / `query_operation`
 * dispatch on the operator vocabulary.
 *
 * The pattern of `_MODIFIERS_PATTERN`, applied to `'#' + s + '#'`, matches a `#`-bounded
 * segment exactly when the segment is a keyword, optionally followed by `=` and a value
 * running to the next `#` (the value is everything after the first `=`, and the pattern's
 * `.` does not match a line break). The model therefore splits `s` on `#` and reads each
 * segment on its own; the two empty segments that the added `#`s create match nothing.
 */
module Field {
  import opened Wrappers
  import opened Text

  /** The groups of `_MODIFIERS`; the `Kv` groups demand a value, `BoolK` ignores it. */
  datatype Category = TypeKd | OpKv | QueryKv | RenderKv | UxKd | XrefKv | BoolK

  /** The group of each keyword in `_MODIFIERS`; None for any other text. */
  function CategoryOf(kw: string): Option<Category> {
    match kw
    case "int" => Some(TypeKd)
    case "float" => Some(TypeKd)
    case "bool" => Some(TypeKd)
    case "str" => Some(TypeKd)
    case "listi" => Some(TypeKd)
    case "listf" => Some(TypeKd)
    case "listb" => Some(TypeKd)
    case "lists" => Some(TypeKd)
    case "kw" => Some(TypeKd)
    case "date" => Some(TypeKd)
    case "time" => Some(TypeKd)
    case "dt" => Some(TypeKd)
    case "email" => Some(TypeKd)
    case "href" => Some(TypeKd)
    case "le" => Some(OpKv)
    case "ge" => Some(OpKv)
    case "gt" => Some(OpKv)
    case "lt" => Some(OpKv)
    case "ne" => Some(OpKv)
    case "eq" => Some(OpKv)
    case "max" => Some(OpKv)
    case "min" => Some(OpKv)
    case "has" => Some(QueryKv)
    case "end" => Some(QueryKv)
    case "start" => Some(QueryKv)
    case "in" => Some(QueryKv)
    case "enum" => Some(QueryKv)
    case "range" => Some(QueryKv)
    case "color" => Some(RenderKv)
    case "heatmap" => Some(RenderKv)
    case "multi" => Some(UxKd)
    case "lines" => Some(UxKd)
    case "form" => Some(UxKd)
    case "order" => Some(UxKd)
    case "ex" => Some(UxKd)
    case "xref" => Some(XrefKv)
    case "req" => Some(BoolK)
    case "uniq" => Some(BoolK)
    case "key" => Some(BoolK)
    case "ro" => Some(BoolK)
    case "hide" => Some(BoolK)
    case "secret" => Some(BoolK)
    case "fuzzy" => Some(BoolK)
    case _ => None
  }

  /** The groups whose name ends in `_kv`. */
  predicate NeedsValue(cat: Category) {
    cat == OpKv || cat == QueryKv || cat == RenderKv || cat == XrefKv
  }

  /** The Python types the model distinguishes (`_TYPE_MAP` values, plus `dict` and `list`). */
  datatype PyType =
    | IntT | FloatT | StrT | BoolT
    | DateT | TimeT | DateTimeT  // `datetime.date`, `datetime.time`, `datetime`
    | KwT                        // `Dict[str, Any]`
    | ListT(elem: PyType)        // `List[elem]`
    | DictT | PlainListT         // `dict` and `list`, the types of YAML maps and lists

  /** `_TYPE_MAP`; `email` and `href` are type keywords but have no entry. */
  function TypeMap(kw: string): Option<PyType> {
    match kw
    case "int" => Some(IntT)
    case "float" => Some(FloatT)
    case "str" => Some(StrT)
    case "bool" => Some(BoolT)
    case "date" => Some(DateT)
    case "time" => Some(TimeT)
    case "dt" => Some(DateTimeT)
    case "listi" => Some(ListT(IntT))
    case "listf" => Some(ListT(FloatT))
    case "listb" => Some(ListT(BoolT))
    case "lists" => Some(ListT(StrT))
    case "kw" => Some(KwT)
    case _ => None
  }

  /** The keys of `_TYPE_MAP`, in its order. */
  const TypeMapKeys: seq<string> :=
    ["int", "float", "str", "bool", "date", "time", "dt", "listi", "listf", "listb", "lists", "kw"]

  lemma TypeMapKeysComplete(kw: string)
    ensures TypeMap(kw).Some? <==> kw in TypeMapKeys
  {
  }

  /** A scalar the parser produces: Python `int`, `bool`, `str`, or `float(text)`. */
  datatype Atom = AInt(i: int) | ABool(b: bool) | AStr(s: string) | AFloat(text: string)

  /** A value in the parsed map: `None`, a scalar, a list, or a type. */
  datatype SpecValue = Null | Atom(a: Atom) | Atoms(items: seq<Atom>) | Type(t: PyType)

  type Spec = map<string, SpecValue>

  const True: SpecValue := Atom(ABool(true))

  /** One `#`-bounded segment, as the pattern reads it. */
  datatype Segment = Unmatched | Token(kw: string, cat: Category, value: Option<string>)

  function ReadSegment(seg: string): (t: Segment)
    ensures t.Token? ==> CategoryOf(t.kw) == Some(t.cat)
    ensures t.Token? && t.value.None? ==> seg == t.kw
    ensures t.Token? && t.value.Some? ==> seg == t.kw + "=" + t.value.value && '=' !in t.kw
  {
    var eq := FindFrom(seg, '=', 0);
    FindFromFirst(seg, '=', 0);
    var kw := seg[..eq];
    var value := if eq == |seg| then None else Some(seg[eq + 1..]);
    assert eq < |seg| ==> seg == kw + "=" + seg[eq + 1..];
    assert eq == |seg| ==> kw == seg;
    match CategoryOf(kw)
    case None => Unmatched
    case Some(cat) => if value.Some? && '\n' in value.value then Unmatched else Token(kw, cat, value)
  }

  /** A segment whose keyword demands a value it lacks (absent or empty). */
  predicate LacksValue(t: Segment) {
    t.Token? && NeedsValue(t.cat) && (t.value == None || t.value == Some(""))
  }

  /** The value a keyword segment stores: `True` for the boolean group, else its text or `None`. */
  function Entry(t: Segment): SpecValue
    requires t.Token?
  {
    if t.cat == BoolK then True
    else if t.value.None? then Null
    else Atom(AStr(t.value.value))
  }

  /** One round of the loop over matches: raise, or `result.update({kw: value})`. */
  function Absorb(acc: Spec, t: Segment): (r: Result<Spec>)
    ensures r.Err? <==> LacksValue(t)
    ensures r.Ok? && t.Unmatched? ==> r.value == acc
    ensures r.Ok? && t.Token? ==> r.value == acc[t.kw := Entry(t)]
  {
    match t
    case Unmatched => Ok(acc)
    case Token(kw, cat, v) =>
      if LacksValue(t) then Err(ValueError(kw + " must have a value"))
      else Ok(acc[kw := Entry(t)])
  }

  /** The map the loop over matches has built after the segments `segs`. */
  function Scan(segs: seq<string>): Result<Spec>
  {
    if segs == [] then Ok(map[])
    else
      match Scan(segs[..|segs| - 1])
      case Err(e) => Err(e)
      case Ok(acc) => Absorb(acc, ReadSegment(segs[|segs| - 1]))
  }

  /**
   * The `TypeError` Python raises when a type that cannot be built from one string is
   * called on one: the `datetime` methods, `datetime` itself and the `typing` aliases.
   */
  function NotFromText(t: PyType): string {
    match t
    case DateT => "descriptor 'date' for 'datetime.datetime' objects doesn't apply to a 'str' object"
    case TimeT => "descriptor 'time' for 'datetime.datetime' objects doesn't apply to a 'str' object"
    case DateTimeT => "'str' object cannot be interpreted as an integer"
    case KwT => "Type Dict cannot be instantiated; use dict() instead"
    case ListT(_) => "Type List cannot be instantiated; use list() instead"
    case _ => "cannot convert a str"
  }

  /** `int(text)`: surrounding white space is allowed, anything else but digits raises. */
  function CoerceInt(text: string): (r: Result<Atom>)
    ensures r.Err? ==> r.error.ValueError?
    ensures r.Ok? ==> r.value.AInt?
  {
    match ParseInt(Strip(text))
    case Some(n) => Ok(AInt(n))
    case None => Err(ValueError("invalid literal for int() with base 10: '" + text + "'"))
  }

  /** `int(str(n))` gives `n` back, whatever white space surrounds the digits. */
  lemma CoerceIntText(n: int, pre: string, post: string)
    requires forall i :: 0 <= i < |pre| ==> IsSpace(pre[i])
    requires forall i :: 0 <= i < |post| ==> IsSpace(post[i])
    ensures CoerceInt(pre + IntText(n) + post) == Ok(AInt(n))
  {
    StripAround(pre, IntText(n), post);
    ParseIntText(n);
  }

  /** Underscores may join digit groups... */
  lemma CoerceIntUnderscore()
    ensures CoerceInt("-1_000") == Ok(AInt(-1000))
  {
    var s := "-1_000";
    assert Strip(s) == s by {
      assert !IsSpace(s[0]) && !IsSpace(s[5]);
    }
    assert s[1..] == "1_000";
    ThousandGroups();
  }

  lemma ThousandGroups()
    ensures DigitGroups("1_000") && DigitsValue(Digits("1_000")) == 1000
  {
    assert Digits("1_000") == "1000" by {
      assert "1_000"[1..] == "_000" && "_000"[1..] == "000";
    }
    assert DigitsValue("1000") == 1000 by {
      assert "1000"[..3] == "100" && "100"[..2] == "10" && "10"[..1] == "1";
    }
  }

  /** ...one underscore at a time... */
  lemma CoerceIntDoubleUnderscore()
    ensures CoerceInt("1__0").Err?
  {
    var s := "1__0";
    assert Strip(s) == s by {
      assert !IsSpace(s[0]) && !IsSpace(s[3]);
    }
    assert !DigitGroups(s) by {
      assert s[1] == '_' && s[2] == '_';
    }
  }

  /** ...and only between digits. */
  lemma CoerceIntEdgeUnderscore()
    ensures CoerceInt("_1").Err? && CoerceInt("1_").Err?
  {
    assert Strip("_1") == "_1" by {
      assert !IsSpace("_1"[0]) && !IsSpace("_1"[1]);
    }
    assert Strip("1_") == "1_" by {
      assert !IsSpace("1_"[0]) && !IsSpace("1_"[1]);
    }
  }

  /**
   * `rtype(text)` for the types `_TYPE_MAP` holds; `float` is kept as its text. The
   * types of YAML maps and lists never reach it.
   */
  function Coerce(t: PyType, text: string): (r: Result<Atom>)
    ensures r.Err? ==> r.error.ValueError? || r.error.TypeError?
  {
    match t
    case IntT => CoerceInt(text)
    case FloatT => Ok(AFloat(text))
    case StrT => Ok(AStr(text))
    case BoolT => Ok(ABool(text != ""))
    case _ => Err(TypeError(NotFromText(t)))
  }

  /** `[t(i) for i in parts]`: the first failing element raises. */
  function CoerceAll(t: PyType, parts: seq<string>): (r: Result<seq<Atom>>)
    ensures r.Ok? ==> |r.value| == |parts| && forall n :: 0 <= n < |parts| ==> Coerce(t, parts[n]) == Ok(r.value[n])
    ensures r.Err? <==> exists n :: 0 <= n < |parts| && Coerce(t, parts[n]).Err?
    ensures r.Err? ==> r.error.ValueError? || r.error.TypeError?
  {
    if parts == [] then Ok([])
    else
      match Coerce(t, parts[0])
      case Err(e) => Err(e)
      case Ok(a) =>
        match CoerceAll(t, parts[1..])
        case Err(e) => Err(e)
        case Ok(rest) => Ok([a] + rest)
  }

  /** The `_TYPE_MAP` keys present in `acc`, in the order of `keys`. */
  function PresentTypes(acc: Spec, keys: seq<string>): (r: seq<string>)
    ensures forall k :: k in r <==> k in keys && k in acc
  {
    if keys == [] then []
    else (if keys[0] in acc then [keys[0]] else []) + PresentTypes(acc, keys[1..])
  }

  const TooManyTypes: Error := AttributeError("'list' object has no attribute 'keys'")

  /** The value a type keyword carries, when it is a non-empty text (Python truthiness). */
  predicate HasDefaultText(v: SpecValue) {
    v.Atom? && v.a.AStr? && v.a.s != ""
  }

  /**
   * The `default` a type keyword's text gives: `[elem(i) for i in text.split(',')]` for a
   * `list*` keyword, `rtype(text)` otherwise.
   */
  function DefaultOf(rtype: PyType, text: string): (r: Result<SpecValue>)
    ensures r.Err? ==> r.error.ValueError? || r.error.TypeError?
    ensures rtype.ListT? ==> (r.Err? <==> exists n :: 0 <= n < |Split(text, ',')| && Coerce(rtype.elem, Split(text, ',')[n]).Err?)
    ensures rtype.ListT? && r.Ok? ==>
      r.value.Atoms? && |r.value.items| == |Split(text, ',')| &&
      forall n :: 0 <= n < |Split(text, ',')| ==> Coerce(rtype.elem, Split(text, ',')[n]) == Ok(r.value.items[n])
    ensures !rtype.ListT? ==> (r.Ok? <==> Coerce(rtype, text).Ok?)
    ensures !rtype.ListT? && r.Ok? ==> r.value == Atom(Coerce(rtype, text).value)
  {
    if rtype.ListT? then
      var xs :- CoerceAll(rtype.elem, Split(text, ','));
      Ok(Atoms(xs))
    else
      var x :- Coerce(rtype, text);
      Ok(Atom(x))
  }

  /** The allow-list an `in` text gives: `[rtype(i) for i in text.split(',')]`. */
  function AllowList(rtype: PyType, text: string): (r: Result<SpecValue>)
    ensures r.Err? ==> r.error.ValueError? || r.error.TypeError?
    ensures r.Err? <==> exists n :: 0 <= n < |Split(text, ',')| && Coerce(rtype, Split(text, ',')[n]).Err?
    ensures r.Ok? ==>
      r.value.Atoms? && |r.value.items| == |Split(text, ',')| &&
      forall n :: 0 <= n < |Split(text, ',')| ==> Coerce(rtype, Split(text, ',')[n]) == Ok(r.value.items[n])
  {
    var xs :- CoerceAll(rtype, Split(text, ','));
    Ok(Atoms(xs))
  }

  /** The type `field_spec` resolves: the single `_TYPE_MAP` keyword present, else `str`. */
  function ResolvedType(types: seq<string>): (t: PyType)
    requires |types| <= 1 && forall k :: k in types ==> k in TypeMapKeys
  {
    if types == [] then StrT else TypeMapKeysComplete(types[0]); TypeMap(types[0]).value
  }

  /** Python's `if default:` branch: `result['default']` from the type keyword's text. */
  function WithDefault(spec: Spec, rtype: PyType, default: SpecValue): (r: Result<Spec>)
    ensures r.Err? ==> r.error.ValueError? || r.error.TypeError?
    ensures r.Ok? ==> forall k :: k in spec && k != "default" ==> k in r.value && r.value[k] == spec[k]
    ensures r.Ok? ==> r.value.Keys <= spec.Keys + {"default"}
  {
    if HasDefaultText(default) then
      var d :- DefaultOf(rtype, default.a.s);
      Ok(spec["default" := d])
    else Ok(spec)
  }

  /** Python's `if result.get('in'):` branch: the allow-list coerced element by element. */
  function WithAllowList(spec: Spec, rtype: PyType): (r: Result<Spec>)
    ensures r.Err? ==> r.error.ValueError? || r.error.TypeError?
    ensures r.Ok? ==> forall k :: k in spec && k != "in" ==> k in r.value && r.value[k] == spec[k]
    ensures r.Ok? ==> r.value.Keys == spec.Keys
  {
    if "in" in spec && HasDefaultText(spec["in"]) then
      var xs :- AllowList(rtype, spec["in"].a.s);
      Ok(spec["in" := xs])
    else Ok(spec)
  }

  /**
   * What `field_spec` does after the loop: resolve the single type, then coerce the
   * type keyword's text into `default` and an `in` text into its allow-list.
   */
  function Resolve(acc: Spec): Result<Spec>
    requires "type" !in acc && "default" !in acc
  {
    var types := PresentTypes(acc, TypeMapKeys);
    if |types| > 1 then Err(TooManyTypes)
    else
      var rtype := ResolvedType(types);
      var default := if types == [] then Null else acc[types[0]];
      var spec :- WithDefault(acc["type" := Type(rtype)], rtype, default);
      WithAllowList(spec, rtype)
  }

  /** More than one `_TYPE_MAP` keyword fails, and nothing else fails with that error. */
  lemma ResolveTooManyTypes(acc: Spec)
    requires "type" !in acc && "default" !in acc
    ensures |PresentTypes(acc, TypeMapKeys)| > 1 <==> Resolve(acc) == Err(TooManyTypes)
  {
  }

  /** A resolved spec has a type, keeps every entry but `in`, and adds only `type` and `default`. */
  lemma ResolveKeepsEntries(acc: Spec)
    requires "type" !in acc && "default" !in acc
    ensures Resolve(acc).Ok? ==> "type" in Resolve(acc).value && Resolve(acc).value["type"].Type?
    ensures Resolve(acc).Ok? ==> forall k :: k in acc && k != "in" ==> k in Resolve(acc).value && Resolve(acc).value[k] == acc[k]
    ensures Resolve(acc).Ok? ==> Resolve(acc).value.Keys <= acc.Keys + {"type", "default"}
  {
  }

  /** The keys `field_spec` adds itself are not modifier keywords. */
  lemma ReservedNotKeywords()
    ensures CategoryOf("type").None? && CategoryOf("default").None?
  {
  }

  lemma {:induction false} ScanKeysAreKeywords(segs: seq<string>)
    ensures Scan(segs).Ok? ==> forall k :: k in Scan(segs).value ==> CategoryOf(k).Some?
  {
    if segs != [] {
      ScanKeysAreKeywords(segs[..|segs| - 1]);
    }
  }

  /** What `field_spec` returns or raises for the `#`-separated segments `segs`. */
  function ParsedSegments(segs: seq<string>): Result<Spec> {
    ScanKeysAreKeywords(segs);
    ReservedNotKeywords();
    match Scan(segs)
    case Err(e) => Err(e)
    case Ok(acc) => Resolve(acc)
  }

  /** What `field_spec(s)` returns or raises. */
  function ParsedSpec(s: string): Result<Spec> {
    ParsedSegments(Split(s, '#'))
  }

  /** A failure of the scan is final: later segments do not change it. */
  lemma {:induction false} ScanErrSticky(segs: seq<string>, j: nat)
    requires j <= |segs| && Scan(segs[..j]).Err?
    ensures Scan(segs) == Scan(segs[..j])
    decreases |segs| - j
  {
    if j < |segs| {
      assert segs[..j + 1][..j] == segs[..j];
      ScanErrSticky(segs, j + 1);
    } else {
      assert segs[..j] == segs;
    }
  }

  /** `field_spec`: the loop over the matches, then the type, `default` and `in` updates. */
  method FieldSpec(input: string) returns (r: Result<Spec>)
    ensures r == ParsedSpec(input)
  {
    var segs := Split(input, '#');
    var result: Spec := map[];
    for i := 0 to |segs|
      invariant Scan(segs[..i]) == Ok(result)
      invariant forall k :: k in result ==> CategoryOf(k).Some?
    {
      assert segs[..i + 1][..i] == segs[..i];
      var t := ReadSegment(segs[i]);
      if t.Token? {
        if NeedsValue(t.cat) && (t.value.None? || t.value == Some("")) {
          r := Err(ValueError(t.kw + " must have a value"));
          ScanErrSticky(segs, i + 1);
          return;
        }
        result := result[t.kw := Entry(t)];
      }
    }
    assert segs[..|segs|] == segs;
    ReservedNotKeywords();
    r := Resolve(result);
  }

  /** `field_spec` reads the `#`-separated segments of its input one by one. */
  lemma ParsedJoin(segs: seq<string>)
    requires |segs| >= 1 && forall n :: 0 <= n < |segs| ==> '#' !in segs[n]
    ensures ParsedSpec(Join(segs, "#")) == ParsedSegments(segs)
  {
    SplitJoin(segs, '#');
  }

  /**
   * The scan fails exactly when some segment is a `_kv` keyword without a value, and then
   * with the message naming the first such keyword.
   */
  lemma {:induction false} ScanFailsIffLacksValue(segs: seq<string>)
    ensures Scan(segs).Err? <==> exists j :: 0 <= j < |segs| && LacksValue(ReadSegment(segs[j]))
    ensures Scan(segs).Err? ==> exists j :: (0 <= j < |segs| && LacksValue(ReadSegment(segs[j])) &&
      (forall i :: 0 <= i < j ==> !LacksValue(ReadSegment(segs[i]))) &&
      Scan(segs).error == ValueError(ReadSegment(segs[j]).kw + " must have a value"))
  {
    if segs != [] {
      var p := segs[..|segs| - 1];
      ScanFailsIffLacksValue(p);
      assert forall j :: 0 <= j < |p| ==> p[j] == segs[j];
      if Scan(p).Err? {
        var j :| 0 <= j < |p| && LacksValue(ReadSegment(p[j])) &&
          (forall i :: 0 <= i < j ==> !LacksValue(ReadSegment(p[i]))) &&
          Scan(p).error == ValueError(ReadSegment(p[j]).kw + " must have a value");
        assert LacksValue(ReadSegment(segs[j]));
      } else if LacksValue(ReadSegment(segs[|segs| - 1])) {
        assert forall i :: 0 <= i < |p| ==> !LacksValue(ReadSegment(segs[i]));
      }
    }
  }

  /** The keys of the scanned map are exactly the keywords of the segments. */
  lemma {:induction false} ScanKeys(segs: seq<string>)
    requires Scan(segs).Ok?
    ensures forall k :: k in Scan(segs).value <==>
      exists j :: 0 <= j < |segs| && ReadSegment(segs[j]).Token? && ReadSegment(segs[j]).kw == k
  {
    if segs != [] {
      var p := segs[..|segs| - 1];
      assert forall j :: 0 <= j < |p| ==> p[j] == segs[j];
      ScanKeys(p);
    }
  }

  /** A keyword's value is the one its last segment gives (`result.update` overwrites). */
  lemma {:induction false} ScanLastWins(segs: seq<string>, j: nat)
    requires Scan(segs).Ok? && j < |segs| && ReadSegment(segs[j]).Token?
    requires forall i :: j < i < |segs| ==> !(ReadSegment(segs[i]).Token? && ReadSegment(segs[i]).kw == ReadSegment(segs[j]).kw)
    ensures ReadSegment(segs[j]).kw in Scan(segs).value
    ensures Scan(segs).value[ReadSegment(segs[j]).kw] == Entry(ReadSegment(segs[j]))
  {
    var p := segs[..|segs| - 1];
    if j < |segs| - 1 {
      assert forall i :: 0 <= i < |p| ==> p[i] == segs[i];
      ScanLastWins(p, j);
    }
  }

  /** A boolean keyword maps to `True`, whatever value is written after it. */
  lemma {:induction false} ScanBoolTrue(segs: seq<string>, j: nat)
    requires Scan(segs).Ok? && j < |segs|
    requires ReadSegment(segs[j]).Token? && ReadSegment(segs[j]).cat == BoolK
    ensures ReadSegment(segs[j]).kw in Scan(segs).value && Scan(segs).value[ReadSegment(segs[j]).kw] == True
  {
    var kw := ReadSegment(segs[j]).kw;
    var last := j;
    while last + 1 < |segs| && exists i :: last < i < |segs| && ReadSegment(segs[i]).Token? && ReadSegment(segs[i]).kw == kw
      invariant j <= last < |segs| && ReadSegment(segs[last]).Token? && ReadSegment(segs[last]).kw == kw
      decreases |segs| - last
    {
      var i :| last < i < |segs| && ReadSegment(segs[i]).Token? && ReadSegment(segs[i]).kw == kw;
      last := i;
    }
    ScanLastWins(segs, last);
  }

  /** A segment the pattern does not match leaves the scan as if it were absent. */
  lemma {:induction false} ScanSkipsUnmatched(a: seq<string>, u: string, b: seq<string>)
    requires ReadSegment(u).Unmatched?
    ensures Scan(a + [u] + b) == Scan(a + b)
    decreases |b|
  {
    if b == [] {
      assert a + [u] + b == a + [u];
      assert (a + [u])[..|a|] == a;
      assert a + b == a;
    } else {
      var b' := b[..|b| - 1];
      ScanSkipsUnmatched(a, u, b');
      assert (a + [u] + b)[..|a + [u] + b| - 1] == a + [u] + b';
      assert (a + b)[..|a + b| - 1] == a + b';
      assert (a + [u] + b)[|a + [u] + b| - 1] == (a + b)[|a + b| - 1];
    }
  }

  /** With no `_TYPE_MAP` keyword the type is `str` and there is no `default`. */
  lemma NoTypeIsStr(acc: Spec)
    requires "type" !in acc && "default" !in acc
    requires PresentTypes(acc, TypeMapKeys) == []
    ensures Resolve(acc).Ok?
    ensures Resolve(acc).value["type"] == Type(StrT) && "default" !in Resolve(acc).value
  {
  }

  /**
   * A single type keyword gives the type; its non-empty text becomes `default`, coerced to
   * the type (element by element for `list*`), and a failing coercion is the result.
   */
  lemma SingleTypeDefault(acc: Spec, k: string)
    requires "type" !in acc && "default" !in acc
    requires PresentTypes(acc, TypeMapKeys) == [k]
    ensures TypeMap(k).Some? && k in acc
    ensures Resolve(acc).Ok? ==> Resolve(acc).value["type"] == Type(TypeMap(k).value)
    ensures !HasDefaultText(acc[k]) && Resolve(acc).Ok? ==> "default" !in Resolve(acc).value
    ensures HasDefaultText(acc[k]) && DefaultOf(TypeMap(k).value, acc[k].a.s).Err? ==>
      Resolve(acc) == Err(DefaultOf(TypeMap(k).value, acc[k].a.s).error)
    ensures HasDefaultText(acc[k]) && Resolve(acc).Ok? ==>
      DefaultOf(TypeMap(k).value, acc[k].a.s).Ok? &&
      Resolve(acc).value["default"] == DefaultOf(TypeMap(k).value, acc[k].a.s).value
  {
    assert k in PresentTypes(acc, TypeMapKeys);
    TypeMapKeysComplete(k);
  }

  /** A non-empty `in` text becomes its comma-separated pieces coerced to the resolved type. */
  lemma AllowListResolved(acc: Spec)
    requires "type" !in acc && "default" !in acc
    requires "in" in acc && HasDefaultText(acc["in"]) && Resolve(acc).Ok?
    ensures Resolve(acc).value["type"].Type?
    ensures AllowList(Resolve(acc).value["type"].t, acc["in"].a.s).Ok?
    ensures Resolve(acc).value["in"] == AllowList(Resolve(acc).value["type"].t, acc["in"].a.s).value
  {
  }

  lemma TwoMembers(xs: seq<string>, a: string, b: string)
    requires a in xs && b in xs && a != b
    ensures |xs| >= 2
  {
    var i :| 0 <= i < |xs| && xs[i] == a;
    var k :| 0 <= k < |xs| && xs[k] == b;
    assert i != k;
  }

  /** Two different `_TYPE_MAP` keywords make `field_spec` fail with the AttributeError. */
  lemma TwoTypesFail(segs: seq<string>, i: nat, j: nat)
    requires i < |segs| && j < |segs|
    requires ReadSegment(segs[i]).Token? && ReadSegment(segs[j]).Token?
    requires TypeMap(ReadSegment(segs[i]).kw).Some? && TypeMap(ReadSegment(segs[j]).kw).Some?
    requires ReadSegment(segs[i]).kw != ReadSegment(segs[j]).kw
    requires Scan(segs).Ok?
    ensures ParsedSegments(segs) == Err(TooManyTypes)
  {
    var acc := Scan(segs).value;
    ScanKeys(segs);
    var ki, kj := ReadSegment(segs[i]).kw, ReadSegment(segs[j]).kw;
    TypeMapKeysComplete(ki);
    TypeMapKeysComplete(kj);
    var types := PresentTypes(acc, TypeMapKeys);
    assert ki in acc && kj in acc;
    TwoMembers(types, ki, kj);
    ScanKeysAreKeywords(segs);
    ReservedNotKeywords();
    ResolveTooManyTypes(acc);
  }

  /** Whatever `field_spec` returns carries a type. */
  lemma ParsedHasType(s: string)
    ensures ParsedSpec(s).Ok? ==> "type" in ParsedSpec(s).value && ParsedSpec(s).value["type"].Type?
  {
    var segs := Split(s, '#');
    ScanKeysAreKeywords(segs);
    ReservedNotKeywords();
    if Scan(segs).Ok? {
      ResolveKeepsEntries(Scan(segs).value);
    }
  }

  lemma {:induction false} ScanErrors(segs: seq<string>)
    ensures Scan(segs).Err? ==> Scan(segs).error.ValueError?
  {
    if segs != [] {
      ScanErrors(segs[..|segs| - 1]);
    }
  }

  /**
   * `field_spec` raises only ValueError (a missing value or a bad literal), AttributeError
   * (several types) or TypeError (a type that cannot be built from text).
   */
  lemma ParsedSpecErrors(s: string)
    ensures ParsedSpec(s).Err? ==>
      ParsedSpec(s).error.ValueError? || ParsedSpec(s).error.AttributeError? || ParsedSpec(s).error.TypeError?
  {
    var segs := Split(s, '#');
    ScanErrors(segs);
    ScanKeysAreKeywords(segs);
    ReservedNotKeywords();
    if Scan(segs).Ok? {
      ResolveErrors(Scan(segs).value);
    }
  }

  lemma ResolveErrors(acc: Spec)
    requires "type" !in acc && "default" !in acc
    ensures Resolve(acc).Err? ==>
      Resolve(acc).error.ValueError? || Resolve(acc).error.AttributeError? || Resolve(acc).error.TypeError?
  {
  }

  /** The keys of a parsed spec are modifier keywords, `type` and `default`. */
  lemma ParsedSpecKeys(s: string)
    ensures ParsedSpec(s).Ok? ==> forall k :: k in ParsedSpec(s).value ==> CategoryOf(k).Some? || k == "type" || k == "default"
  {
    var segs := Split(s, '#');
    ScanKeysAreKeywords(segs);
    ReservedNotKeywords();
    if Scan(segs).Ok? {
      ResolveKeepsEntries(Scan(segs).value);
    }
  }

  // ---------------------------------------------------------------------------------
  // Dispatchers

  const Comparisons: set<string> := {"eq", "ne", "gt", "lt", "ge", "le"}

  /** `cmp_value` on integers; an operator outside the table raises. */
  function CmpValue(a: int, b: int, op: string): (r: Result<bool>)
    ensures r.Ok? <==> op in Comparisons
    ensures r.Err? ==> r.error == ValueError("Invalid operator: " + op)
  {
    match op
    case "eq" => Ok(a == b)
    case "ne" => Ok(a != b)
    case "gt" => Ok(a > b)
    case "lt" => Ok(a < b)
    case "ge" => Ok(a >= b)
    case "le" => Ok(a <= b)
    case _ => Err(ValueError("Invalid operator: " + op))
  }

  /** The value a query compares against: a number, or a list such as `range`'s bounds. */
  datatype Operand = Scalar(n: int) | Items(xs: seq<int>)

  const Queries: set<string> := {"has", "end", "start", "in", "enum", "range"}

  /** `v in c`; a list never equals a number. */
  predicate Member(v: Operand, c: seq<int>) {
    v.Scalar? && v.n in c
  }

  /** `all(x >= v[0] and x <= v[1] for x in c)`, evaluated left to right. */
  function RangeAll(v: Operand, c: seq<int>): (r: Result<bool>)
    ensures c == [] ==> r == Ok(true)
    ensures v.Items? && |v.xs| >= 2 ==> r == Ok(forall x :: x in c ==> v.xs[0] <= x <= v.xs[1])
    ensures c != [] && v.Scalar? ==> r == Err(TypeError("'int' object is not subscriptable"))
    ensures c != [] && v.Items? && |v.xs| == 0 ==> r == Err(IndexError("list index out of range"))
    ensures c != [] && v.Items? && |v.xs| == 1 ==>
      r == (if c[0] >= v.xs[0] then Err(IndexError("list index out of range")) else Ok(false))
  {
    if c == [] then Ok(true)
    else
      match v
      case Scalar(_) => Err(TypeError("'int' object is not subscriptable"))
      case Items(xs) =>
        assert c[0] in c;
        if |xs| == 0 then Err(IndexError("list index out of range"))
        else if !(c[0] >= xs[0]) then Ok(false)
        else if |xs| < 2 then Err(IndexError("list index out of range"))
        else if !(c[0] <= xs[1]) then Ok(false)
        else
          var rest := RangeAll(v, c[1..]);
          assert (forall x :: x in c ==> xs[0] <= x <= xs[1]) <==> (forall x :: x in c[1..] ==> xs[0] <= x <= xs[1]) by {
            forall x | x in c ensures x == c[0] || x in c[1..] {
              var k :| 0 <= k < |c| && c[k] == x;
              if k > 0 {
                assert c[1..][k - 1] == x;
              }
            }
            forall x | x in c[1..] ensures x in c {
              var k :| 0 <= k < |c[1..]| && c[1..][k] == x;
              assert c[k + 1] == x;
            }
          }
          rest
  }

  /** `query_operation`; an operation outside the table raises. */
  function QueryOperation(op: string, v: Operand, c: seq<int>): (r: Result<bool>)
    ensures op !in Queries ==> r == Err(ValueError("Invalid operation: " + op))
    ensures op in {"has", "in", "enum"} ==> r == Ok(Member(v, c))
    ensures op in {"start", "end"} && c == [] ==> r == Ok(false)
    ensures op == "start" && c != [] ==> r == Ok(v == Scalar(c[0]))
    ensures op == "end" && c != [] ==> r == Ok(v == Scalar(c[|c| - 1]))
    ensures op == "range" ==> r == RangeAll(v, c)
    ensures op == "range" && v.Items? && |v.xs| >= 2 ==>
      r == Ok(forall x :: x in c ==> v.xs[0] <= x <= v.xs[1])
  {
    match op
    case "has" => Ok(Member(v, c))
    case "end" => Ok(if c != [] then v == Scalar(c[|c| - 1]) else false)
    case "start" => Ok(if c != [] then v == Scalar(c[0]) else false)
    case "in" => Ok(Member(v, c))
    case "enum" => Ok(Member(v, c))
    case "range" => RangeAll(v, c)
    case _ => Err(ValueError("Invalid operation: " + op))
  }

  /** Swapping the operands swaps `lt` with `gt` and `le` with `ge`; `eq`/`ne` are symmetric. */
  lemma CmpConverse(a: int, b: int)
    ensures CmpValue(a, b, "lt") == CmpValue(b, a, "gt")
    ensures CmpValue(a, b, "le") == CmpValue(b, a, "ge")
    ensures CmpValue(a, b, "eq") == CmpValue(b, a, "eq")
    ensures CmpValue(a, b, "ne") == CmpValue(b, a, "ne")
  {
  }

  /** `ne`, `ge` and `le` are the negations of `eq`, `lt` and `gt`. */
  lemma CmpComplement(a: int, b: int)
    ensures CmpValue(a, b, "ne").value == !CmpValue(a, b, "eq").value
    ensures CmpValue(a, b, "ge").value == !CmpValue(a, b, "lt").value
    ensures CmpValue(a, b, "le").value == !CmpValue(a, b, "gt").value
  {
  }

  /**
   * `max` and `min` belong to the operator group of the modifier grammar, yet both
   * dispatchers reject them.
   */
  lemma MaxMinRejected(a: int, b: int, v: Operand, c: seq<int>)
    ensures CategoryOf("max") == Some(OpKv) && CategoryOf("min") == Some(OpKv)
    ensures CmpValue(a, b, "max").Err? && CmpValue(a, b, "min").Err?
    ensures QueryOperation("max", v, c).Err? && QueryOperation("min", v, c).Err?
  {
  }
}
