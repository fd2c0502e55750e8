/**
 * Handler-name derivation of the operation factory: the type and the action
 * are glued with an underscore, split on every underscore, each piece is
 * passed through PHP's `ucwords`, and the pieces are concatenated behind the
 * prefix "operation".
 */
module MethodNames {

  const PREFIX: string := "operation"
  const SEPARATOR: char := '_'

  /** The characters PHP's `ucwords` treats as word boundaries by default. */
  predicate IsDelimiter(c: char) {
    c == ' ' || c == '\t' || c == '\r' || c == '\n' || c == '\U{000C}' || c == '\U{000B}'
  }

  /** ASCII upper-casing, as `toupper` in the C locale. */
  function Upper(c: char): char {
    if 'a' <= c <= 'z' then (c as int - 32) as char else c
  }

  /** ASCII lower-casing, the fold under which PHP compares method names. */
  function Lower(c: char): char {
    if 'A' <= c <= 'Z' then (c as int + 32) as char else c
  }

  function LowerAll(s: string): string {
    seq(|s|, i requires 0 <= i < |s| => Lower(s[i]))
  }

  /** Number of occurrences of `d` in `s`. */
  function Count(s: string, d: char): nat {
    if s == [] then 0 else (if s[0] == d then 1 else 0) + Count(s[1..], d)
  }

  /** `s` with every occurrence of `d` removed. */
  function Without(s: string, d: char): string {
    if s == [] then [] else (if s[0] == d then [] else [s[0]]) + Without(s[1..], d)
  }

  /** `ucwords` scanning `s`, where `atWordStart` says whether the character before `s` ended a word. */
  function UcwordsFrom(s: string, atWordStart: bool): (r: string)
    ensures |r| == |s|
    ensures forall i :: 0 <= i < |s| ==>
      r[i] == if (if i == 0 then atWordStart else IsDelimiter(s[i - 1])) then Upper(s[i]) else s[i]
  {
    if s == [] then [] else [if atWordStart then Upper(s[0]) else s[0]] + UcwordsFrom(s[1..], IsDelimiter(s[0]))
  }

  /** PHP `ucwords`: the first character and every character after a delimiter is upper-cased. */
  function Ucwords(s: string): (r: string)
    ensures |r| == |s|
    ensures forall i :: 0 <= i < |s| ==>
      r[i] == if i == 0 || IsDelimiter(s[i - 1]) then Upper(s[i]) else s[i]
  {
    UcwordsFrom(s, true)
  }

  /** PHP `implode(d, pieces)`. */
  function Join(pieces: seq<string>, d: char): string
    decreases |pieces|
  {
    if |pieces| == 0 then []
    else if |pieces| == 1 then pieces[0]
    else pieces[0] + [d] + Join(pieces[1..], d)
  }

  /** PHP `implode('', pieces)`. */
  function Concat(pieces: seq<string>): string
    decreases |pieces|
  {
    if |pieces| == 0 then [] else pieces[0] + Concat(pieces[1..])
  }

  /** PHP `explode(d, s)`: the pieces between the separators, none of them holding one. */
  function Split(s: string, d: char): (pieces: seq<string>)
    ensures |pieces| > 0
    ensures forall i :: 0 <= i < |pieces| ==> d !in pieces[i]
  {
    if s == [] then [[]]
    else
      var rest := Split(s[1..], d);
      if s[0] == d then [[]] + rest else [[s[0]] + rest[0]] + rest[1..]
  }

  /** `explode` yields one more piece than there are separators. */
  lemma {:induction false} SplitCount(s: string, d: char)
    ensures |Split(s, d)| == Count(s, d) + 1
    decreases |s|
  {
    if s != [] { SplitCount(s[1..], d); }
  }

  /** `implode(d, explode(d, s)) == s`: splitting loses nothing. */
  lemma {:induction false} JoinSplit(s: string, d: char)
    ensures Join(Split(s, d), d) == s
    decreases |s|
  {
    if s != [] {
      var rest := Split(s[1..], d);
      JoinSplit(s[1..], d);
      if s[0] == d {
        assert ([[]] + rest)[1..] == rest;
      } else {
        var pieces := [[s[0]] + rest[0]] + rest[1..];
        assert pieces[1..] == rest[1..];
        assert |rest| > 1 ==> Join(rest, d) == rest[0] + [d] + Join(rest[1..], d);
        assert s == [s[0]] + s[1..];
      }
    }
  }

  /** PHP `array_map('ucwords', pieces)`. */
  function UcwordsEach(pieces: seq<string>): seq<string> {
    seq(|pieces|, i requires 0 <= i < |pieces| => Ucwords(pieces[i]))
  }

  /** `_generateOperationMethodName`: "operation" followed by the ucwords'd pieces of `type_action`. */
  function MethodName(opType: string, action: string): string {
    PREFIX + Concat(UcwordsEach(Split(opType + [SEPARATOR] + action, SEPARATOR)))
  }

  // ---------------------------------------------------------------------------
  // Laws of the derivation.

  lemma {:induction false} ConcatSplit(s: string, d: char)
    ensures Concat(Split(s, d)) == Without(s, d)
    decreases |s|
  {
    if s != [] {
      var rest := Split(s[1..], d);
      ConcatSplit(s[1..], d);
      if s[0] == d {
        assert ([[]] + rest)[1..] == rest;
      } else {
        var pieces := [[s[0]] + rest[0]] + rest[1..];
        assert pieces[1..] == rest[1..];
        assert Concat(rest) == rest[0] + Concat(rest[1..]);
      }
    }
  }

  lemma LowerUpper(c: char)
    ensures Lower(Upper(c)) == Lower(c)
  {
  }

  lemma UpperSeparator(c: char)
    ensures Upper(c) == SEPARATOR <==> c == SEPARATOR
  {
  }

  lemma {:induction false} LowerAllAppend(a: string, b: string)
    ensures LowerAll(a + b) == LowerAll(a) + LowerAll(b)
  {
  }

  lemma {:induction false} LowerAllUcwords(s: string)
    ensures LowerAll(Ucwords(s)) == LowerAll(s)
  {
    var up := Ucwords(s);
    forall i | 0 <= i < |s| ensures LowerAll(up)[i] == LowerAll(s)[i] {
      assert LowerAll(up)[i] == Lower(up[i]);
      assert up[i] == if i == 0 || IsDelimiter(s[i - 1]) then Upper(s[i]) else s[i];
      LowerUpper(s[i]);
    }
  }

  /** Lower-casing the concatenation erases what `ucwords` did to each piece. */
  lemma {:induction false} LowerConcatUcwords(pieces: seq<string>)
    ensures LowerAll(Concat(UcwordsEach(pieces))) == LowerAll(Concat(pieces))
    decreases |pieces|
  {
    if |pieces| > 0 {
      var up := UcwordsEach(pieces);
      assert up[1..] == UcwordsEach(pieces[1..]);
      LowerConcatUcwords(pieces[1..]);
      LowerAllAppend(up[0], Concat(up[1..]));
      LowerAllAppend(pieces[0], Concat(pieces[1..]));
      LowerAllUcwords(pieces[0]);
    }
  }

  /** `ucwords` keeps the length of every piece, so the concatenation keeps its length too. */
  lemma {:induction false} ConcatUcwordsLength(pieces: seq<string>)
    ensures |Concat(UcwordsEach(pieces))| == |Concat(pieces)|
    decreases |pieces|
  {
    if |pieces| > 0 {
      assert UcwordsEach(pieces)[1..] == UcwordsEach(pieces[1..]);
      ConcatUcwordsLength(pieces[1..]);
    }
  }

  /** Neither `ucwords` nor concatenation introduces the separator into separator-free pieces. */
  lemma {:induction false} ConcatUcwordsFree(pieces: seq<string>)
    requires forall i :: 0 <= i < |pieces| ==> SEPARATOR !in pieces[i]
    ensures SEPARATOR !in Concat(UcwordsEach(pieces))
    decreases |pieces|
  {
    if |pieces| > 0 {
      var up := UcwordsEach(pieces);
      assert up[1..] == UcwordsEach(pieces[1..]);
      ConcatUcwordsFree(pieces[1..]);
      assert up[0] == Ucwords(pieces[0]);
      forall k | 0 <= k < |up[0]| ensures up[0][k] != SEPARATOR {
        var c := pieces[0][k];
        assert c != SEPARATOR;
        assert up[0][k] == if k == 0 || IsDelimiter(pieces[0][k - 1]) then Upper(c) else c;
        UpperSeparator(c);
      }
    }
  }

  lemma {:induction false} WithoutLength(s: string, d: char)
    ensures |Without(s, d)| == |s| - Count(s, d)
    decreases |s|
  {
    if s != [] { WithoutLength(s[1..], d); }
  }

  lemma {:induction false} CountAppend(a: string, b: string, d: char)
    ensures Count(a + b, d) == Count(a, d) + Count(b, d)
    decreases |a|
  {
    if a != [] {
      assert (a + b)[0] == a[0] && (a + b)[1..] == a[1..] + b;
      CountAppend(a[1..], b, d);
    } else {
      assert a + b == b;
    }
  }

  lemma {:induction false} WithoutAppend(a: string, b: string, d: char)
    ensures Without(a + b, d) == Without(a, d) + Without(b, d)
    decreases |a|
  {
    if a != [] {
      assert (a + b)[0] == a[0] && (a + b)[1..] == a[1..] + b;
      WithoutAppend(a[1..], b, d);
    } else {
      assert a + b == b;
    }
  }

  /** Lower-casing commutes with removing the separator, because no letter folds to `_`. */
  lemma {:induction false} LowerAllWithout(s: string)
    ensures LowerAll(Without(s, SEPARATOR)) == Without(LowerAll(s), SEPARATOR)
    decreases |s|
  {
    if s != [] {
      LowerAllWithout(s[1..]);
      assert LowerAll(s)[1..] == LowerAll(s[1..]);
      LowerAllAppend(if s[0] == SEPARATOR then [] else [s[0]], Without(s[1..], SEPARATOR));
    }
  }

  /**
   * Shape of every derived name: it starts with "operation", contains no
   * underscore after the prefix, and is as long as the prefix plus the type
   * and the action without their underscores.
   */
  lemma MethodNameShape(opType: string, action: string)
    ensures |MethodName(opType, action)| == |PREFIX| + |opType| + |action| - Count(opType, SEPARATOR) - Count(action, SEPARATOR)
    ensures MethodName(opType, action)[..|PREFIX|] == PREFIX
    ensures SEPARATOR !in MethodName(opType, action)[|PREFIX|..]
  {
    var glued := opType + [SEPARATOR] + action;
    var pieces := Split(glued, SEPARATOR);
    ConcatUcwordsLength(pieces);
    ConcatSplit(glued, SEPARATOR);
    WithoutLength(glued, SEPARATOR);
    CountAppend(opType + [SEPARATOR], action, SEPARATOR);
    CountAppend(opType, [SEPARATOR], SEPARATOR);
    assert Count([SEPARATOR], SEPARATOR) == 1;
    ConcatUcwordsFree(pieces);
    assert MethodName(opType, action)[|PREFIX|..] == Concat(UcwordsEach(pieces));
  }

  /** Folded to lower case, a derived name is "operation" plus `type_action` without its underscores. */
  lemma MethodNameFolded(opType: string, action: string)
    ensures LowerAll(MethodName(opType, action)) == PREFIX + Without(LowerAll(opType + [SEPARATOR] + action), SEPARATOR)
  {
    var glued := opType + [SEPARATOR] + action;
    var pieces := Split(glued, SEPARATOR);
    LowerAllAppend(PREFIX, Concat(UcwordsEach(pieces)));
    assert LowerAll(PREFIX) == PREFIX;
    LowerConcatUcwords(pieces);
    ConcatSplit(glued, SEPARATOR);
    LowerAllWithout(glued);
  }

  /**
   * PHP resolves method names without regard to case; under that fold the
   * derived name depends only on the case-folded type and action.
   */
  lemma MethodNameIgnoresCase(type1: string, action1: string, type2: string, action2: string)
    requires LowerAll(type1) == LowerAll(type2) && LowerAll(action1) == LowerAll(action2)
    ensures LowerAll(MethodName(type1, action1)) == LowerAll(MethodName(type2, action2))
  {
    MethodNameFolded(type1, action1);
    MethodNameFolded(type2, action2);
    LowerAllAppend(type1 + [SEPARATOR], action1);
    LowerAllAppend(type1, [SEPARATOR]);
    LowerAllAppend(type2 + [SEPARATOR], action2);
    LowerAllAppend(type2, [SEPARATOR]);
  }

  lemma {:induction false} SplitWord(s: string, d: char)
    requires d !in s
    ensures Split(s, d) == [s]
    decreases |s|
  {
    if s != [] {
      SplitWord(s[1..], d);
      assert [s[0]] + s[1..] == s;
    }
  }

  lemma {:induction false} SplitAtFirst(x: string, y: string, d: char)
    requires d !in x
    ensures Split(x + [d] + y, d) == [x] + Split(y, d)
    decreases |x|
  {
    if x == [] {
      assert [d] + y == x + [d] + y;
      assert ([d] + y)[1..] == y;
    } else {
      assert (x + [d] + y)[1..] == x[1..] + [d] + y;
      SplitAtFirst(x[1..], y, d);
      assert [x[0]] + x[1..] == x;
    }
  }

  /** For an underscore-free type and action the name is "operation" + ucwords(type) + ucwords(action). */
  lemma MethodNameOfWords(opType: string, action: string)
    requires SEPARATOR !in opType && SEPARATOR !in action
    ensures MethodName(opType, action) == PREFIX + Ucwords(opType) + Ucwords(action)
  {
    SplitAtFirst(opType, action, SEPARATOR);
    SplitWord(action, SEPARATOR);
    assert [opType] + [action] == [opType, action];
    var up := UcwordsEach([opType, action]);
    assert up == [Ucwords(opType), Ucwords(action)];
    assert up[1..] == [Ucwords(action)];
    assert Concat(up[1..]) == Ucwords(action) + Concat([]);
    assert Concat(up) == Ucwords(opType) + Ucwords(action);
  }

  /**
   * Only word starts change: a character of the type that follows a
   * non-delimiter is copied as written, so types that differ in case after
   * their first letter derive different names.
   */
  lemma MethodNameKeepsCase(opType: string, action: string, i: nat)
    requires SEPARATOR !in opType && SEPARATOR !in action
    requires 0 < i < |opType| && !IsDelimiter(opType[i - 1])
    ensures |PREFIX| + i < |MethodName(opType, action)|
    ensures MethodName(opType, action)[|PREFIX| + i] == opType[i]
  {
    MethodNameOfWords(opType, action);
    assert (PREFIX + Ucwords(opType) + Ucwords(action))[|PREFIX| + i] == Ucwords(opType)[i];
  }
}
