/** Shared vocabulary of the FarmConnect model: optional values and results,
    document ids, list functions (filter, count, sum, a stable sort, take),
    decimal rendering of integers and the ASCII character classes the
    application's regular expressions use. */
module Basics {

  datatype Option<+T> = None | Some(value: T) {
    function GetOr(default: T): T {
      if Some? then value else default
    }
  }

  datatype Result<+T, +E> = Success(value: T) | Failure(error: E)

  /** Document ids. The id generator of the document store is modelled by a
      counter, so ids are natural numbers; `NoId` stands for the empty id
      string `''` that the application writes when a lookup found nothing. */
  type Id = nat
  const NoId: Id := 0

  /** Milliseconds since the epoch, as `Date.now()` returns them. */
  type Timestamp = int

  // ---------------------------------------------------------------------
  // Filtering, counting and summing

  /** `i` is the position of the first element of `s` that satisfies `p`. */
  predicate FirstAt<T>(s: seq<T>, p: T -> bool, i: int) {
    0 <= i < |s| && p(s[i]) && forall j :: 0 <= j < i ==> !p(s[j])
  }

  /** `s.find(p)`: the first element of `s` that satisfies `p`, if any. */
  function Find<T(==)>(s: seq<T>, p: T -> bool): (r: Option<T>)
    ensures r.None? <==> forall x :: x in s ==> !p(x)
    ensures r.Some? ==> r.value in s && p(r.value)
    ensures r.Some? ==> exists i :: FirstAt(s, p, i) && s[i] == r.value
  {
    if s == [] then None
    else if p(s[0]) then
      assert FirstAt(s, p, 0);
      Some(s[0])
    else
      var rest := Find(s[1..], p);
      if rest.Some? then
        var i :| FirstAt(s[1..], p, i) && s[1..][i] == rest.value;
        assert FirstAt(s, p, i + 1);
        rest
      else
        assert forall x :: x in s ==> x == s[0] || x in s[1..];
        rest
  }

  /** `s.filter(keep)`: the elements of `s` that satisfy `keep`, in order. */
  function Filter<T>(s: seq<T>, keep: T -> bool): (r: seq<T>)
    ensures |r| <= |s|
  {
    if s == [] then []
    else (if keep(s[0]) then [s[0]] else []) + Filter(s[1..], keep)
  }

  /** What filtering keeps: exactly the elements of `s` that satisfy `keep`. */
  lemma {:induction false} FilterMembers<T>(s: seq<T>, keep: T -> bool)
    ensures forall x :: x in Filter(s, keep) <==> x in s && keep(x)
  {
    if s != [] {
      FilterMembers(s[1..], keep);
      assert forall x :: x in s <==> x == s[0] || x in s[1..];
    }
  }

  /** Filtering only drops elements: each is kept at most as often as it occurs. */
  lemma {:induction false} FilterSubMultiset<T>(s: seq<T>, keep: T -> bool)
    ensures multiset(Filter(s, keep)) <= multiset(s)
  {
    if s != [] {
      FilterSubMultiset(s[1..], keep);
      assert s == [s[0]] + s[1..];
    }
  }

  /** Filtering distributes over concatenation, so it keeps the input order. */
  lemma {:induction false} FilterAppend<T>(a: seq<T>, b: seq<T>, keep: T -> bool)
    ensures Filter(a + b, keep) == Filter(a, keep) + Filter(b, keep)
  {
    if a == [] {
      assert a + b == b;
    } else {
      var head := if keep(a[0]) then [a[0]] else [];
      assert Filter(a + b, keep) == head + Filter(a[1..] + b, keep) by {
        assert (a + b)[0] == a[0] && (a + b)[1..] == a[1..] + b;
      }
      FilterAppend(a[1..], b, keep);
    }
  }

  /** `s.filter(keep).length` */
  function Count<T>(s: seq<T>, keep: T -> bool): nat {
    |Filter(s, keep)|
  }

  lemma {:induction false} CountAppend<T>(a: seq<T>, b: seq<T>, keep: T -> bool)
    ensures Count(a + b, keep) == Count(a, keep) + Count(b, keep)
  {
    FilterAppend(a, b, keep);
  }

  /** Filtering by a predicate that holds everywhere in `s` changes nothing. */
  lemma {:induction false} FilterAll<T>(s: seq<T>, keep: T -> bool)
    requires forall i :: 0 <= i < |s| ==> keep(s[i])
    ensures Filter(s, keep) == s
  {
    if s != [] {
      FilterAll(s[1..], keep);
    }
  }

  /** Filtering by a predicate that holds nowhere in `s` keeps nothing. */
  lemma {:induction false} FilterNone<T>(s: seq<T>, keep: T -> bool)
    requires forall i :: 0 <= i < |s| ==> !keep(s[i])
    ensures Filter(s, keep) == []
  {
    if s != [] {
      FilterNone(s[1..], keep);
    }
  }

  /** Filtering with a stronger predicate keeps no more elements. */
  lemma {:induction false} CountMonotone<T>(s: seq<T>, strong: T -> bool, weak: T -> bool)
    requires forall x :: strong(x) ==> weak(x)
    ensures Count(s, strong) <= Count(s, weak)
  {
    if s != [] {
      CountMonotone(s[1..], strong, weak);
    }
  }

  /** Two predicates that split `s` between them: the counts add up. */
  lemma {:induction false} CountSplit<T>(s: seq<T>, p: T -> bool, q: T -> bool)
    requires forall x :: p(x) != q(x)
    ensures Count(s, p) + Count(s, q) == |s|
  {
    if s != [] {
      CountSplit(s[1..], p, q);
    }
  }

  /** `s.reduce((total, x) => total + f(x), 0)` */
  function Sum<T>(s: seq<T>, f: T -> int): int {
    if s == [] then 0 else f(s[0]) + Sum(s[1..], f)
  }

  lemma {:induction false} SumAppend<T>(a: seq<T>, b: seq<T>, f: T -> int)
    ensures Sum(a + b, f) == Sum(a, f) + Sum(b, f)
  {
    if a == [] {
      assert a + b == b;
    } else {
      assert (a + b)[0] == a[0];
      assert (a + b)[1..] == a[1..] + b;
      SumAppend(a[1..], b, f);
    }
  }

  /** One more element at the end: a filtered sum and count grow by its
      share. */
  lemma {:induction false} FilterSnoc<T>(a: seq<T>, x: T, keep: T -> bool, f: T -> int)
    ensures Sum(Filter(a + [x], keep), f) == Sum(Filter(a, keep), f) + (if keep(x) then f(x) else 0)
    ensures Count(a + [x], keep) == Count(a, keep) + (if keep(x) then 1 else 0)
  {
    FilterAppend(a, [x], keep);
    assert [x][1..] == [];
    assert Filter([x], keep) == (if keep(x) then [x] else []);
    SumAppend(Filter(a, keep), Filter([x], keep), f);
  }

  /** Replacing one element changes the sum by the difference. */
  lemma {:induction false} SumUpdate<T>(s: seq<T>, i: nat, x: T, f: T -> int)
    requires i < |s|
    ensures Sum(s[i := x], f) == Sum(s, f) - f(s[i]) + f(x)
  {
    if i == 0 {
      assert s[i := x][1..] == s[1..];
    } else {
      assert s[i := x][1..] == s[1..][i - 1 := x];
      SumUpdate(s[1..], i - 1, x, f);
    }
  }

  // ---------------------------------------------------------------------
  // Sorting by a numeric key, largest first, and taking a prefix

  ghost predicate SortedDesc<T>(s: seq<T>, key: T -> int) {
    forall i, j :: 0 <= i < j < |s| ==> key(s[i]) >= key(s[j])
  }

  /** Inserts `x` in front of the first element whose key is not larger. */
  function InsertDesc<T>(x: T, s: seq<T>, key: T -> int): (r: seq<T>)
    ensures multiset(r) == multiset(s) + multiset{x}
    ensures |r| == |s| + 1
  {
    if s == [] || key(s[0]) <= key(x) then [x] + s
    else
      assert s == [s[0]] + s[1..];
      [s[0]] + InsertDesc(x, s[1..], key)
  }

  lemma {:induction false} InsertDescBounded<T>(x: T, s: seq<T>, key: T -> int, v: int)
    requires forall j :: 0 <= j < |s| ==> key(s[j]) <= v
    requires key(x) <= v
    ensures forall j :: 0 <= j < |InsertDesc(x, s, key)| ==> key(InsertDesc(x, s, key)[j]) <= v
  {
    if s != [] && key(s[0]) > key(x) {
      InsertDescBounded(x, s[1..], key, v);
    }
  }

  lemma {:induction false} InsertDescSorted<T>(x: T, s: seq<T>, key: T -> int)
    requires SortedDesc(s, key)
    ensures SortedDesc(InsertDesc(x, s, key), key)
  {
    if s != [] && key(s[0]) > key(x) {
      InsertDescSorted(x, s[1..], key);
      InsertDescBounded(x, s[1..], key, key(s[0]));
    }
  }

  /** `s.slice().sort((a, b) => key(b) - key(a))`: an insertion sort that is
      stable, as the JavaScript sort is, so equal keys keep their order. */
  function SortDesc<T>(s: seq<T>, key: T -> int): (r: seq<T>)
    ensures SortedDesc(r, key)
    ensures multiset(r) == multiset(s)
    ensures |r| == |s|
  {
    if s == [] then []
    else
      assert s == [s[0]] + s[1..];
      var rest := SortDesc(s[1..], key);
      InsertDescSorted(s[0], rest, key);
      InsertDesc(s[0], rest, key)
  }

  lemma {:induction false} InsertDescSum<T>(x: T, s: seq<T>, key: T -> int, f: T -> int)
    ensures Sum(InsertDesc(x, s, key), f) == f(x) + Sum(s, f)
  {
    if s == [] || key(s[0]) <= key(x) {
      assert ([x] + s)[1..] == s;
    } else {
      var rest := InsertDesc(x, s[1..], key);
      assert ([s[0]] + rest)[1..] == rest;
      InsertDescSum(x, s[1..], key, f);
    }
  }

  /** Sorting does not change a sum. */
  lemma {:induction false} SortDescSum<T>(s: seq<T>, key: T -> int, f: T -> int)
    ensures Sum(SortDesc(s, key), f) == Sum(s, f)
  {
    if s != [] {
      SortDescSum(s[1..], key, f);
      InsertDescSum(s[0], SortDesc(s[1..], key), key, f);
    }
  }

  /** `s.slice(0, n)` */
  function Take<T>(s: seq<T>, n: nat): (r: seq<T>)
    ensures |r| <= n && |r| <= |s|
    ensures |s| <= n ==> r == s
    ensures r == s[..|r|]
  {
    if |s| <= n then s else s[..n]
  }

  /** The first `n` elements of a sequence sorted by `key` carry keys at
      least as large as every element left out. */
  lemma TakeSortedDominates<T>(s: seq<T>, key: T -> int, n: nat, i: nat, j: nat)
    requires SortedDesc(s, key)
    requires i < |Take(s, n)| <= j < |s|
    ensures key(Take(s, n)[i]) >= key(s[j])
  {
  }

  /** The first `n` of `s` sorted by `key` are `n` of its elements, or all of
      them when it has fewer, still sorted. */
  lemma {:induction false} TopOfSortedSize<T>(s: seq<T>, key: T -> int, n: nat)
    ensures |Take(SortDesc(s, key), n)| == if |s| < n then |s| else n
    ensures multiset(Take(SortDesc(s, key), n)) <= multiset(s)
    ensures SortedDesc(Take(SortDesc(s, key), n), key)
  {
    var sorted := SortDesc(s, key);
    var top := Take(sorted, n);
    assert sorted == top + sorted[|top|..];
    assert forall i :: 0 <= i < |top| ==> top[i] == sorted[i];
  }

  /** The first `n` of `s` sorted by `key`: taken from `s`, and any element
      left out (when some are) has a key no larger than every one taken. */
  lemma {:induction false} TopOfSorted<T>(s: seq<T>, key: T -> int, n: nat)
    ensures forall x :: x in Take(SortDesc(s, key), n) ==> x in s
    ensures forall x :: x in s && x !in Take(SortDesc(s, key), n) ==>
              |Take(SortDesc(s, key), n)| == n
              && forall k :: 0 <= k < n ==> key(Take(SortDesc(s, key), n)[k]) >= key(x)
  {
    var sorted := SortDesc(s, key);
    var top := Take(sorted, n);
    forall x | x in top
      ensures x in s
    {
      assert x in multiset(sorted);
    }
    forall x | x in s && x !in top
      ensures |top| == n && forall k :: 0 <= k < n ==> key(top[k]) >= key(x)
    {
      assert x in multiset(sorted);
      var j :| 0 <= j < |sorted| && sorted[j] == x;
      assert forall k :: 0 <= k < |top| ==> top[k] == sorted[k] && top[k] in top;
      assert j >= |top|;
      forall k | 0 <= k < n
        ensures key(top[k]) >= key(x)
      {
        TakeSortedDominates(sorted, key, n, k, j);
      }
    }
  }

  // ---------------------------------------------------------------------
  // Decimal rendering of integers (`n.toString()` for integral numbers)

  predicate IsDigit(c: char) {
    '0' <= c <= '9'
  }

  function DigitChar(d: nat): (c: char)
    requires d < 10
    ensures IsDigit(c) && c as int - '0' as int == d
  {
    ('0' as int + d) as char
  }

  /** The shortest decimal numeral of `n`. */
  function Digits(n: nat): (r: string)
    ensures |r| >= 1
    ensures forall i :: 0 <= i < |r| ==> IsDigit(r[i])
    ensures n > 0 ==> r[0] != '0'
  {
    if n < 10 then [DigitChar(n)] else Digits(n / 10) + [DigitChar(n % 10)]
  }

  /** The value of a string of decimal digits. */
  function DigitsValue(s: string): nat
    requires forall i :: 0 <= i < |s| ==> IsDigit(s[i])
  {
    if s == [] then 0
    else
      assert IsDigit(s[|s| - 1]);
      DigitsValue(s[..|s| - 1]) * 10 + (s[|s| - 1] as int - '0' as int)
  }

  /** Reading a numeral back gives the number: `Digits` is injective. */
  lemma {:induction false} DigitsRoundTrip(n: nat)
    ensures DigitsValue(Digits(n)) == n
  {
    if n >= 10 {
      var r := Digits(n);
      assert r[..|r| - 1] == Digits(n / 10);
      DigitsRoundTrip(n / 10);
    }
  }

  lemma DigitsInjective(m: nat, n: nat)
    requires Digits(m) == Digits(n)
    ensures m == n
  {
    DigitsRoundTrip(m);
    DigitsRoundTrip(n);
  }

  function Pow10(k: nat): (r: nat)
    ensures r >= 1
  {
    if k == 0 then 1 else 10 * Pow10(k - 1)
  }

  /** A numeral of `|s|` digits denotes less than `10^|s|`, and at least
      `10^(|s|-1)` when it does not start with `0`. */
  lemma {:induction false} DigitsValueBounds(s: string)
    requires |s| >= 1 && forall i :: 0 <= i < |s| ==> IsDigit(s[i])
    ensures DigitsValue(s) < Pow10(|s|)
    ensures s[0] != '0' ==> DigitsValue(s) >= Pow10(|s| - 1)
  {
    var p := s[..|s| - 1];
    var d := s[|s| - 1] as int - '0' as int;
    assert DigitsValue(s) == DigitsValue(p) * 10 + d;
    if |s| > 1 {
      assert p[0] == s[0];
      DigitsValueBounds(p);
      assert DigitsValue(p) <= Pow10(|p|) - 1;
      assert DigitsValue(p) * 10 <= Pow10(|s|) - 10;
      if s[0] != '0' {
        assert DigitsValue(p) * 10 >= Pow10(|p| - 1) * 10;
      }
    }
  }

  /** A numeral without a leading zero is the numeral of its value. */
  lemma {:induction false} DigitsOfValue(s: string)
    requires |s| >= 1 && forall i :: 0 <= i < |s| ==> IsDigit(s[i])
    requires |s| == 1 || s[0] != '0'
    ensures Digits(DigitsValue(s)) == s
  {
    var p := s[..|s| - 1];
    var d := s[|s| - 1] as int - '0' as int;
    var v := DigitsValue(s);
    assert v == DigitsValue(p) * 10 + d;
    if |s| == 1 {
      assert DigitsValue(p) == 0;
      assert s == [DigitChar(d)];
    } else {
      assert p[0] == s[0];
      DigitsValueBounds(p);
      DigitsOfValue(p);
      assert v / 10 == DigitsValue(p) && v % 10 == d;
      assert s == p + [DigitChar(d)];
    }
  }

  /** Numbers from 100000 to 999999 have six-digit numerals. */
  lemma {:induction false} SixDigits(n: nat)
    requires 100000 <= n <= 999999
    ensures |Digits(n)| == 6
  {
    var a := n / 10;
    var b := a / 10;
    var c := b / 10;
    var d := c / 10;
    var e := d / 10;
    assert 1 <= e <= 9;
    assert |Digits(e)| == 1;
    assert |Digits(d)| == 2;
    assert |Digits(c)| == 3;
    assert |Digits(b)| == 4;
    assert |Digits(a)| == 5;
  }

  /** `String(n)` for an integral number `n`. */
  function Decimal(n: int): (r: string)
    ensures |r| >= 1
    ensures n >= 0 ==> r == Digits(n)
  {
    if n < 0 then "-" + Digits(-n) else Digits(n)
  }

  // ---------------------------------------------------------------------
  // ASCII character classes and case folding

  predicate IsLower(c: char) {
    'a' <= c <= 'z'
  }

  predicate IsUpper(c: char) {
    'A' <= c <= 'Z'
  }

  /** `[A-Za-z0-9]` */
  predicate IsAlnum(c: char) {
    IsLower(c) || IsUpper(c) || IsDigit(c)
  }

  /** `/[...]/.test(s)` for a character class: some character of `s` is in it. */
  predicate HasChar(s: string, inClass: char -> bool) {
    exists i :: 0 <= i < |s| && inClass(s[i])
  }

  function LowerChar(c: char): (d: char)
    ensures !IsUpper(d)
    ensures !IsUpper(c) ==> d == c
  {
    if IsUpper(c) then (c as int - 'A' as int + 'a' as int) as char else c
  }

  /** `s.toLowerCase()` restricted to ASCII letters. */
  function Lower(s: string): (r: string)
    ensures |r| == |s|
    ensures forall i :: 0 <= i < |s| ==> r[i] == LowerChar(s[i])
  {
    if s == [] then [] else [LowerChar(s[0])] + Lower(s[1..])
  }

  /** Text with no upper-case ASCII letter is its own lower case. */
  lemma LowerKeepsLowercase(s: string)
    requires forall i :: 0 <= i < |s| ==> !IsUpper(s[i])
    ensures Lower(s) == s
  {
  }

  /** `s.length` in JavaScript: the number of UTF-16 code units, so a
      character outside the Basic Multilingual Plane (an emoji, say) counts
      twice. */
  function Utf16Length(s: string): (n: nat)
    ensures |s| <= n <= 2 * |s|
    ensures (forall i :: 0 <= i < |s| ==> s[i] as int < 0x1_0000) ==> n == |s|
  {
    if s == [] then 0 else (if s[0] as int < 0x1_0000 then 1 else 2) + Utf16Length(s[1..])
  }

  /** The names a JavaScript object literal `{}` answers for without storing
      them: the members it inherits from `Object.prototype`. Looking one of
      them up yields a function (or the prototype itself), never `undefined`. */
  const InheritedNames: set<string> := {
    "constructor", "hasOwnProperty", "isPrototypeOf", "propertyIsEnumerable",
    "toLocaleString", "toString", "valueOf", "__proto__", "__defineGetter__",
    "__defineSetter__", "__lookupGetter__", "__lookupSetter__"
  }

  // ---------------------------------------------------------------------
  // Substring search (`hay.includes(needle)`)

  ghost predicate OccursAt(needle: string, hay: string, i: int) {
    0 <= i && i + |needle| <= |hay| && hay[i..i + |needle|] == needle
  }

  /** Scans `hay` for a position where `needle` is a prefix. */
  function Contains(hay: string, needle: string): (b: bool)
    ensures b <==> exists i :: OccursAt(needle, hay, i)
    decreases |hay|
  {
    if needle <= hay then
      assert OccursAt(needle, hay, 0);
      true
    else if hay == [] then
      false
    else
      var b := Contains(hay[1..], needle);
      assert forall i :: OccursAt(needle, hay[1..], i) ==> OccursAt(needle, hay, i + 1);
      assert forall i :: OccursAt(needle, hay, i) && i > 0 ==> OccursAt(needle, hay[1..], i - 1);
      b
  }
}
