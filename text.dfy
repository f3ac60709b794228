/** The parts of Python's `str` the modelled code relies on, over ASCII. */
module Text {
  import opened Wrappers

  /** Index of the first `c` in `s` at or after `k`, or `|s|` when there is none. */
  function FindFrom(s: string, c: char, k: nat): (i: nat)
    requires k <= |s|
    ensures k <= i <= |s|
    decreases |s| - k
  {
    if k == |s| then k else if s[k] == c then k else FindFrom(s, c, k + 1)
  }

  /** What `FindFrom` finds: a `c`, or the end, with no `c` before it. */
  lemma {:induction false} FindFromFirst(s: string, c: char, k: nat)
    requires k <= |s|
    ensures FindFrom(s, c, k) < |s| ==> s[FindFrom(s, c, k)] == c
    ensures c !in s[k..FindFrom(s, c, k)]
    decreases |s| - k
  {
    if k < |s| && s[k] != c {
      FindFromFirst(s, c, k + 1);
      assert s[k..FindFrom(s, c, k)] == [s[k]] + s[k + 1..FindFrom(s, c, k + 1)];
    }
  }

  /** `FindFrom` is the first `c` at or after `k`. */
  lemma FindFromHit(s: string, c: char, k: nat, i: nat)
    requires k <= i < |s| && s[i] == c && c !in s[k..i]
    ensures FindFrom(s, c, k) == i
  {
    FindFromFirst(s, c, k);
    var r := FindFrom(s, c, k);
    assert forall j :: k <= j < i ==> s[k..i][j - k] == s[j];
    assert forall j :: k <= j < r ==> s[k..r][j - k] == s[j];
  }

  /** `FindFrom` reaches the end when no `c` follows `k`. */
  lemma FindFromMiss(s: string, c: char, k: nat)
    requires k <= |s| && c !in s[k..]
    ensures FindFrom(s, c, k) == |s|
  {
    FindFromFirst(s, c, k);
    assert forall j :: k <= j < |s| ==> s[k..][j - k] == s[j];
  }

  /** The pieces of `s[k..]` between the occurrences of `c`. */
  function SplitFrom(s: string, c: char, k: nat): (parts: seq<string>)
    requires k <= |s|
    ensures |parts| >= 1
    decreases |s| - k
  {
    var i := FindFrom(s, c, k);
    if i == |s| then [s[k..]] else [s[k..i]] + SplitFrom(s, c, i + 1)
  }

  /** `s.split(c)`: the pieces between the occurrences of `c`; never empty. */
  function Split(s: string, c: char): (parts: seq<string>)
    ensures |parts| >= 1
  {
    SplitFrom(s, c, 0)
  }

  /** `sep.join(parts)`. */
  function Join(parts: seq<string>, sep: string): string {
    if |parts| == 0 then ""
    else if |parts| == 1 then parts[0]
    else parts[0] + sep + Join(parts[1..], sep)
  }

  lemma {:induction false} SplitFromLacksSeparator(s: string, c: char, k: nat)
    requires k <= |s|
    ensures forall n :: 0 <= n < |SplitFrom(s, c, k)| ==> c !in SplitFrom(s, c, k)[n]
    decreases |s| - k
  {
    var i := FindFrom(s, c, k);
    FindFromFirst(s, c, k);
    if i < |s| {
      SplitFromLacksSeparator(s, c, i + 1);
    }
  }

  /** No piece of a split holds the separator. */
  lemma SplitLacksSeparator(s: string, c: char)
    ensures forall n :: 0 <= n < |Split(s, c)| ==> c !in Split(s, c)[n]
  {
    SplitFromLacksSeparator(s, c, 0);
  }

  lemma {:induction false} FindFromShift(p: string, q: string, c: char, k: nat)
    requires k <= |q|
    ensures FindFrom(p + q, c, |p| + k) == |p| + FindFrom(q, c, k)
    decreases |q| - k
  {
    if k < |q| {
      assert (p + q)[|p| + k] == q[k];
      if q[k] != c {
        FindFromShift(p, q, c, k + 1);
      }
    }
  }

  lemma SliceShift(p: string, q: string, a: nat, b: nat)
    requires a <= b <= |q|
    ensures (p + q)[|p| + a..|p| + b] == q[a..b]
  {
  }

  /** Splitting past a prefix ignores the prefix. */
  lemma {:induction false} SplitFromShift(p: string, q: string, c: char, k: nat)
    requires k <= |q|
    ensures SplitFrom(p + q, c, |p| + k) == SplitFrom(q, c, k)
    decreases |q| - k
  {
    var i := FindFrom(q, c, k);
    FindFromShift(p, q, c, k);
    if i < |q| {
      SplitFromShift(p, q, c, i + 1);
      SliceShift(p, q, k, i);
    } else {
      SliceShift(p, q, k, |q|);
      assert (p + q)[|p| + k..] == (p + q)[|p| + k..|p| + |q|];
      assert q[k..] == q[k..|q|];
    }
  }

  /** A piece without the separator is the whole split. */
  lemma SplitSingle(a: string, c: char)
    requires c !in a
    ensures Split(a, c) == [a]
  {
    FindFromMiss(a, c, 0);
    assert a[0..] == a;
  }

  /** Splitting at the first separator. */
  lemma SplitCons(a: string, c: char, rest: string)
    requires c !in a
    ensures Split(a + [c] + rest, c) == [a] + Split(rest, c)
  {
    var s := a + [c] + rest;
    assert s[0..|a|] == a;
    FindFromHit(s, c, 0, |a|);
    SplitFromShift(a + [c], rest, c, 0);
    assert a + [c] + rest == (a + [c]) + rest;
  }

  /** Splitting a joined list gives back the list when no piece holds the separator. */
  lemma {:induction false} SplitJoin(ws: seq<string>, c: char)
    requires |ws| >= 1
    requires forall n :: 0 <= n < |ws| ==> c !in ws[n]
    ensures Split(Join(ws, [c]), c) == ws
    decreases |ws|
  {
    if |ws| == 1 {
      FindFromMiss(ws[0], c, 0);
      assert ws[0][0..] == ws[0];
    } else {
      var rest := Join(ws[1..], [c]);
      var s := ws[0] + [c] + rest;
      assert s == Join(ws, [c]);
      assert s[0..|ws[0]|] == ws[0];
      FindFromHit(s, c, 0, |ws[0]|);
      SplitJoin(ws[1..], c);
      SplitFromShift(ws[0] + [c], rest, c, 0);
      assert ws[0] + [c] + rest == (ws[0] + [c]) + rest;
    }
  }

  lemma {:induction false} JoinSplitFrom(s: string, c: char, k: nat)
    requires k <= |s|
    ensures Join(SplitFrom(s, c, k), [c]) == s[k..]
    decreases |s| - k
  {
    var i := FindFrom(s, c, k);
    FindFromFirst(s, c, k);
    if i < |s| {
      JoinSplitFrom(s, c, i + 1);
      assert s[k..] == s[k..i] + [c] + s[i + 1..];
    }
  }

  /** Joining the pieces of a split with the separator gives back the string. */
  lemma JoinSplit(s: string, c: char)
    ensures Join(Split(s, c), [c]) == s
  {
    JoinSplitFrom(s, c, 0);
  }

  lemma {:induction false} SplitFromPieceChars(s: string, c: char, k: nat)
    requires k <= |s|
    ensures forall n, x :: 0 <= n < |SplitFrom(s, c, k)| && x in SplitFrom(s, c, k)[n] ==> x in s
    decreases |s| - k
  {
    var i := FindFrom(s, c, k);
    if i < |s| {
      SplitFromPieceChars(s, c, i + 1);
      assert forall x :: x in s[k..i] ==> x in s;
    } else {
      assert forall x :: x in s[k..] ==> x in s;
    }
  }

  /** Every character of every piece of a split occurs in the split string. */
  lemma SplitPieceChars(s: string, c: char)
    ensures forall n, x :: 0 <= n < |Split(s, c)| && x in Split(s, c)[n] ==> x in s
  {
    SplitFromPieceChars(s, c, 0);
  }

  /** A string holding the separator splits into at least two pieces. */
  lemma SplitAtSeparator(s: string, c: char)
    ensures c in s ==> |Split(s, c)| >= 2
  {
    FindFromFirst(s, c, 0);
    assert s[0..|s|] == s;
  }

  predicate StartsWith(s: string, prefix: string) {
    |prefix| <= |s| && s[..|prefix|] == prefix
  }

  predicate EndsWith(s: string, suffix: string) {
    |suffix| <= |s| && s[|s| - |suffix|..] == suffix
  }

  /** `needle in s` for strings: `needle` occurs somewhere in `s`. */
  predicate Occurs(needle: string, s: string) {
    exists i | 0 <= i <= |s| - |needle| :: OccursAt(needle, s, i)
  }

  predicate OccursAt(needle: string, s: string, i: int) {
    0 <= i <= |s| - |needle| && s[i..i + |needle|] == needle
  }

  predicate IsUpperAscii(c: char) { 'A' <= c <= 'Z' }
  predicate IsLowerAscii(c: char) { 'a' <= c <= 'z' }
  predicate IsLetter(c: char) { IsUpperAscii(c) || IsLowerAscii(c) }
  predicate IsDigit(c: char) { '0' <= c <= '9' }

  function LowerChar(c: char): char {
    if IsUpperAscii(c) then (c as int + 32) as char else c
  }

  function UpperChar(c: char): char {
    if IsLowerAscii(c) then (c as int - 32) as char else c
  }

  /** `s.lower()`, ASCII letters only. */
  function Lower(s: string): (r: string)
    ensures |r| == |s|
    ensures forall i :: 0 <= i < |s| ==> r[i] == LowerChar(s[i])
    ensures forall i :: 0 <= i < |r| ==> !IsUpperAscii(r[i]) && (IsLetter(r[i]) <==> IsLetter(s[i]))
    ensures forall i :: 0 <= i < |s| && !IsUpperAscii(s[i]) ==> r[i] == s[i]
  {
    seq(|s|, i requires 0 <= i < |s| => LowerChar(s[i]))
  }

  /** `s.upper()`, ASCII letters only. */
  function Upper(s: string): (r: string)
    ensures |r| == |s|
    ensures forall i :: 0 <= i < |s| ==> r[i] == UpperChar(s[i])
    ensures forall i :: 0 <= i < |r| ==> !IsLowerAscii(r[i]) && (IsLetter(r[i]) <==> IsLetter(s[i]))
    ensures forall i :: 0 <= i < |s| && !IsLowerAscii(s[i]) ==> r[i] == s[i]
  {
    seq(|s|, i requires 0 <= i < |s| => UpperChar(s[i]))
  }

  /**
   * `s.title()`: a letter that follows a letter is lower-cased, any other letter is
   * upper-cased (so "2nd" becomes "2Nd"); other characters are kept.
   */
  function Title(s: string): (r: string)
    ensures |r| == |s|
    ensures forall i :: 0 <= i < |s| ==>
      r[i] == if i > 0 && IsLetter(s[i - 1]) then LowerChar(s[i]) else UpperChar(s[i])
    ensures forall i :: 0 <= i < |s| ==> (IsLetter(r[i]) <==> IsLetter(s[i])) && (!IsLetter(s[i]) ==> r[i] == s[i])
    ensures forall i :: 0 <= i < |s| && IsLetter(r[i]) ==> (IsUpperAscii(r[i]) <==> i == 0 || !IsLetter(r[i - 1]))
  {
    seq(|s|, i requires 0 <= i < |s| =>
      if i > 0 && IsLetter(s[i - 1]) then LowerChar(s[i]) else UpperChar(s[i]))
  }

  lemma LowerIdempotent(s: string)
    ensures Lower(Lower(s)) == Lower(s)
  {
  }

  /** Title-casing a title-cased string changes nothing. */
  lemma TitleIdempotent(s: string)
    ensures Title(Title(s)) == Title(s)
  {
    var t := Title(s);
    forall i | 0 <= i < |s|
      ensures Title(t)[i] == t[i]
    {
      if i > 0 {
        assert IsLetter(t[i - 1]) <==> IsLetter(s[i - 1]);
      }
    }
  }

  /**
   * `c.isspace()`: the ASCII controls tab to carriage return and the four separators
   * 0x1C-0x1F, the space, and the Unicode white space (next line, no-break space, the
   * Ogham mark, the en quad to hair space range, the line and paragraph separators, the
   * narrow no-break space, the medium mathematical space and the ideographic space).
   */
  predicate IsSpace(c: char) {
    ('\t' <= c <= '\r') || ('\U{1C}' <= c <= ' ') || c == '\U{85}' || c == '\U{A0}' ||
    c == '\U{1680}' || ('\U{2000}' <= c <= '\U{200A}') || c == '\U{2028}' || c == '\U{2029}' ||
    c == '\U{202F}' || c == '\U{205F}' || c == '\U{3000}'
  }

  /** `s.strip()`: white space removed from both ends. */
  function Strip(s: string): (r: string)
    ensures |r| <= |s|
    ensures r == [] || (!IsSpace(r[0]) && !IsSpace(r[|r| - 1]))
    decreases |s|
  {
    if |s| > 0 && IsSpace(s[0]) then Strip(s[1..])
    else if |s| > 0 && IsSpace(s[|s| - 1]) then Strip(s[..|s| - 1])
    else s
  }

  /** `r` is `s` with the `i` characters before it and all those after it white space. */
  predicate Trimmed(s: string, i: nat, r: string) {
    i + |r| <= |s| && r == s[i..i + |r|] &&
    (forall k :: 0 <= k < i ==> IsSpace(s[k])) &&
    (forall k :: i + |r| <= k < |s| ==> IsSpace(s[k]))
  }

  /** What `strip` keeps is a slice of the input, and all it removes is white space. */
  lemma {:induction false} StripTrims(s: string)
    ensures exists i: nat :: Trimmed(s, i, Strip(s))
    decreases |s|
  {
    if |s| > 0 && IsSpace(s[0]) {
      StripTrims(s[1..]);
      var i: nat :| Trimmed(s[1..], i, Strip(s[1..]));
      TrimmedAfterSpace(s, i, Strip(s[1..]));
      assert Strip(s) == Strip(s[1..]);
    } else if |s| > 0 && IsSpace(s[|s| - 1]) {
      StripTrims(s[..|s| - 1]);
      var i: nat :| Trimmed(s[..|s| - 1], i, Strip(s[..|s| - 1]));
      TrimmedBeforeSpace(s, i, Strip(s[..|s| - 1]));
      assert Strip(s) == Strip(s[..|s| - 1]);
    } else {
      assert Strip(s) == s;
      assert Trimmed(s, 0, s);
    }
  }

  lemma TrimmedAfterSpace(s: string, i: nat, r: string)
    requires |s| > 0 && IsSpace(s[0]) && Trimmed(s[1..], i, r)
    ensures Trimmed(s, i + 1, r)
  {
    assert s[1..][i..i + |r|] == s[i + 1..i + 1 + |r|];
    forall k | 0 < k < |s|
      ensures s[k] == s[1..][k - 1]
    {
    }
  }

  lemma TrimmedBeforeSpace(s: string, i: nat, r: string)
    requires |s| > 0 && IsSpace(s[|s| - 1]) && Trimmed(s[..|s| - 1], i, r)
    ensures Trimmed(s, i, r)
  {
    var t := s[..|s| - 1];
    assert t[i..i + |r|] == s[i..i + |r|];
    forall k | 0 <= k < |t|
      ensures s[k] == t[k]
    {
    }
  }

  /** White space around a text with non-blank ends is exactly what `strip` removes. */
  lemma {:induction false} StripAround(pre: string, t: string, post: string)
    requires forall i :: 0 <= i < |pre| ==> IsSpace(pre[i])
    requires forall i :: 0 <= i < |post| ==> IsSpace(post[i])
    requires |t| > 0 && !IsSpace(t[0]) && !IsSpace(t[|t| - 1])
    ensures Strip(pre + t + post) == t
    decreases |pre| + |post|
  {
    var s := pre + t + post;
    if |pre| > 0 {
      assert s[0] == pre[0];
      assert s[1..] == pre[1..] + t + post;
      StripAround(pre[1..], t, post);
    } else if |post| > 0 {
      assert s[0] == t[0];
      assert s[|s| - 1] == post[|post| - 1];
      assert s[..|s| - 1] == pre + t + post[..|post| - 1];
      StripAround(pre, t, post[..|post| - 1]);
    } else {
      assert s == t;
    }
  }

  function DigitsValue(s: string): nat
    requires forall i :: 0 <= i < |s| ==> IsDigit(s[i])
  {
    if |s| == 0 then 0
    else
      assert IsDigit(s[|s| - 1]);
      DigitsValue(s[..|s| - 1]) * 10 + (s[|s| - 1] as int - '0' as int)
  }

  /**
   * Decimal digits in groups joined by single underscores, as `int()` reads them:
   * "1_000" is a number, "_1", "1_" and "1__0" are not.
   */
  predicate DigitGroups(s: string) {
    |s| > 0 && IsDigit(s[0]) && IsDigit(s[|s| - 1]) &&
    (forall i :: 0 <= i < |s| ==> IsDigit(s[i]) || s[i] == '_') &&
    (forall i :: 0 <= i < |s| - 1 ==> s[i] == '_' ==> s[i + 1] != '_')
  }

  /** The digits of `s`, its underscores dropped. */
  function Digits(s: string): (r: string)
    requires forall i :: 0 <= i < |s| ==> IsDigit(s[i]) || s[i] == '_'
    ensures forall i :: 0 <= i < |r| ==> IsDigit(r[i])
    ensures (forall i :: 0 <= i < |s| ==> s[i] != '_') ==> r == s
  {
    if s == [] then []
    else if s[0] == '_' then Digits(s[1..])
    else [s[0]] + Digits(s[1..])
  }

  /**
   * `int(s)` for an optional sign followed by ASCII digit groups; None where Python
   * raises.
   */
  function ParseInt(s: string): Option<int> {
    if |s| > 0 && s[0] == '-' && DigitGroups(s[1..]) then Some(-(DigitsValue(Digits(s[1..])) as int))
    else if |s| > 0 && s[0] == '+' && DigitGroups(s[1..]) then Some(DigitsValue(Digits(s[1..])))
    else if DigitGroups(s) then Some(DigitsValue(Digits(s)))
    else None
  }

  /** `str(n)` for an integer. */
  function IntText(n: int): (r: string)
    ensures |r| > 0 && !IsSpace(r[0]) && !IsSpace(r[|r| - 1])
  {
    if n < 0 then "-" + NatToString(-n) else NatToString(n)
  }

  /** Decimal digits read back as the number they print. */
  lemma {:induction false} NatToStringValue(n: nat)
    ensures DigitsValue(NatToString(n)) == n
  {
    var s := NatToString(n);
    if n >= 10 {
      NatToStringValue(n / 10);
      assert s[..|s| - 1] == NatToString(n / 10);
      assert s[|s| - 1] as int - '0' as int == n % 10;
      assert n == n / 10 * 10 + n % 10;
    } else {
      assert s[..0] == [];
    }
  }

  /** A non-negative number's decimal text is one digit group, and its value. */
  lemma NatTextGroups(n: nat)
    ensures DigitGroups(NatToString(n)) && DigitsValue(Digits(NatToString(n))) == n
  {
    NatToStringValue(n);
  }

  /** `int(str(n)) == n`. */
  lemma ParseIntText(n: int)
    ensures ParseInt(IntText(n)) == Some(n)
  {
    var m := if n < 0 then -n else n;
    var d := NatToString(m);
    NatTextGroups(m);
    if n < 0 {
      assert IntText(n)[1..] == d;
      assert IntText(n)[0] == '-';
    } else {
      assert IntText(n) == d;
      assert IsDigit(d[0]);
    }
  }

  /** Decimal digits of `n`, without sign or padding. */
  function NatToString(n: nat): (r: string)
    ensures |r| >= 1
    ensures forall i :: 0 <= i < |r| ==> IsDigit(r[i])
  {
    if n < 10 then ['0' + n as char]
    else NatToString(n / 10) + ['0' + (n % 10) as char]
  }

  /** `n` in decimal, left-padded with zeros to at least `width` digits. */
  function PadNat(n: nat, width: nat): (r: string)
    ensures |r| >= width
  {
    var d := NatToString(n);
    if |d| >= width then d else seq(width - |d|, _ => '0') + d
  }
}
