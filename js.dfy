/** JavaScript value semantics, strings, sequences and dictionaries shared by every
    module of the model.  Plain JS objects used as dictionaries are association lists
    in insertion order, as JS objects with string keys iterate. */
module Js {

  datatype Option<T> = None | Some(value: T) {
    function GetOr(default: T): T {
      if Some? then value else default
    }
  }

  /** The errors the stores raise to their callers. */
  datatype Error = NotFound(message: string) | Invalid(message: string)

  datatype Result<T> = Ok(value: T) | Fail(error: Error)

  function Min(a: int, b: int): int { if a <= b then a else b }
  function Max(a: int, b: int): int { if a >= b then a else b }

  /** Multiplying by a positive factor keeps the order, in both directions. */
  lemma ScaleOrder(x: real, y: real, k: real)
    requires k > 0.0
    ensures x > y <==> x * k > y * k
  {
    assert x * k - y * k == (x - y) * k;
  }

  // ------------------------------------------------------------------------
  // Strings
  // ------------------------------------------------------------------------

  /** `s.includes(sub)`: `sub` occurs somewhere in `s`. */
  predicate Includes(s: string, sub: string)
    decreases |s|
  {
    if sub <= s then true
    else if |s| == 0 then false
    else Includes(s[1..], sub)
  }

  /** `sub` occurs in `s` starting at index `i`. */
  predicate OccursAt(s: string, sub: string, i: int) {
    0 <= i && i + |sub| <= |s| && s[i..i + |sub|] == sub
  }

  /** `Includes` is exactly "occurs at some position". */
  lemma {:induction false} IncludesAt(s: string, sub: string)
    ensures Includes(s, sub) <==> exists i :: OccursAt(s, sub, i)
    decreases |s|
  {
    if sub <= s {
      assert OccursAt(s, sub, 0);
    } else if |s| == 0 {
    } else {
      IncludesAt(s[1..], sub);
      if exists j :: OccursAt(s[1..], sub, j) {
        var j :| OccursAt(s[1..], sub, j);
        assert s[j + 1..j + 1 + |sub|] == s[1..][j..j + |sub|];
        assert OccursAt(s, sub, j + 1);
      }
      if exists i :: OccursAt(s, sub, i) {
        var i :| OccursAt(s, sub, i);
        if i > 0 {
          assert s[1..][i - 1..i - 1 + |sub|] == s[i..i + |sub|];
          assert OccursAt(s[1..], sub, i - 1);
        }
      }
    }
  }

  /** A string containing `longer` contains every prefix of it ("error" contains "err"). */
  lemma {:induction false} IncludesPrefixOf(s: string, longer: string, shorter: string)
    requires shorter <= longer && Includes(s, longer)
    ensures Includes(s, shorter)
    decreases |s|
  {
    if longer <= s {
      assert shorter <= s;
    } else {
      IncludesPrefixOf(s[1..], longer, shorter);
    }
  }

  /** Every string contains the empty string. */
  lemma IncludesEmpty(s: string)
    ensures Includes(s, "")
  {
  }

  /** A string includes itself when appended to anything before and after. */
  lemma IncludesInfix(a: string, b: string, c: string)
    ensures Includes(a + b + c, b)
  {
    var s := a + b + c;
    assert s[|a|..|a| + |b|] == b;
    assert OccursAt(s, b, |a|);
    IncludesAt(s, b);
  }

  /** ASCII `toLowerCase` of one character. */
  function LowerChar(c: char): char {
    if 'A' <= c <= 'Z' then (c as int + 32) as char else c
  }

  /** `s.toLowerCase()` restricted to ASCII letters. */
  function Lower(s: string): (r: string)
    ensures |r| == |s|
    ensures forall i :: 0 <= i < |s| ==> r[i] == LowerChar(s[i])
  {
    seq(|s|, i requires 0 <= i < |s| => LowerChar(s[i]))
  }

  /** Lower-casing works character by character, so it distributes over concatenation. */
  lemma LowerConcat(a: string, b: string)
    ensures Lower(a + b) == Lower(a) + Lower(b)
  {
  }

  /** `s.split(sep)` for a one-character separator. */
  function Split(s: string, sep: char): (r: seq<string>)
    ensures |r| >= 1
    decreases |s|
  {
    if |s| == 0 then [""]
    else
      var rest := Split(s[1..], sep);
      if s[0] == sep then [""] + rest
      else [[s[0]] + rest[0]] + rest[1..]
  }

  /** Number of occurrences of `c` in `s`. */
  function Occurrences(s: string, c: char): nat
    decreases |s|
  {
    if |s| == 0 then 0 else (if s[0] == c then 1 else 0) + Occurrences(s[1..], c)
  }

  /** Joining with the separator. */
  function Join(pieces: seq<string>, sep: char): string
    decreases |pieces|
  {
    if |pieces| == 0 then ""
    else if |pieces| == 1 then pieces[0]
    else pieces[0] + [sep] + Join(pieces[1..], sep)
  }

  /** `split` yields one more piece than there are separators, no piece holds the
      separator, and joining the pieces back gives the input. */
  lemma {:induction false} SplitLaws(s: string, sep: char)
    ensures |Split(s, sep)| == Occurrences(s, sep) + 1
    ensures forall i :: 0 <= i < |Split(s, sep)| ==> sep !in Split(s, sep)[i]
    ensures Join(Split(s, sep), sep) == s
    decreases |s|
  {
    if |s| > 0 {
      SplitLaws(s[1..], sep);
      var rest := Split(s[1..], sep);
      if s[0] == sep {
        assert Split(s, sep) == [""] + rest;
        assert Join([""] + rest, sep) == "" + [sep] + Join(rest, sep);
        assert [sep] + s[1..] == s;
      } else {
        var r := Split(s, sep);
        assert r == [[s[0]] + rest[0]] + rest[1..];
        if |rest| == 1 {
          assert Join(r, sep) == [s[0]] + rest[0];
          assert [s[0]] + s[1..] == s;
        } else {
          assert r[1..] == rest[1..];
          assert Join(rest, sep) == rest[0] + [sep] + Join(rest[1..], sep);
          assert Join(r, sep) == [s[0]] + rest[0] + [sep] + Join(rest[1..], sep);
          assert [s[0]] + s[1..] == s;
        }
        forall i | 0 <= i < |r| ensures sep !in r[i] {
          if i > 0 { assert r[i] == rest[i]; }
        }
      }
    }
  }

  /** `s.split(sep)[0]`: the text before the first separator. */
  function FirstPiece(s: string, sep: char): (r: string)
    ensures r == Split(s, sep)[0]
    ensures r <= s && sep !in r
    ensures |r| < |s| ==> s[|r|] == sep
    decreases |s|
  {
    if |s| == 0 then ""
    else if s[0] == sep then ""
    else [s[0]] + FirstPiece(s[1..], sep)
  }

  /** `s.endsWith(suffix)` */
  predicate EndsWith(s: string, suffix: string) {
    |suffix| <= |s| && s[|s| - |suffix|..] == suffix
  }

  // ------------------------------------------------------------------------
  // Decimal numerals
  // ------------------------------------------------------------------------

  predicate IsDigit(c: char) { '0' <= c <= '9' }

  predicate AllDigits(s: string) { forall i :: 0 <= i < |s| ==> IsDigit(s[i]) }

  function DigitChar(d: nat): (c: char)
    requires d < 10
    ensures IsDigit(c) && c as int - '0' as int == d
  {
    ('0' as int + d) as char
  }

  /** The value of a string of decimal digits (`parseInt` of `\d+`). */
  function DigitsValue(s: string): nat
    requires AllDigits(s)
    decreases |s|
  {
    if |s| == 0 then 0
    else DigitsValue(s[..|s| - 1]) * 10 + (s[|s| - 1] as int - '0' as int)
  }

  /** `String(n)` for a non-negative integer. */
  function NatToString(n: nat): (r: string)
    ensures |r| >= 1 && AllDigits(r)
    decreases n
  {
    if n < 10 then [DigitChar(n)] else NatToString(n / 10) + [DigitChar(n % 10)]
  }

  /** `String(n)` for an integer. */
  function IntToString(n: int): string {
    if n < 0 then "-" + NatToString(-n) else NatToString(n)
  }

  /** Reading back the numeral of `n` gives `n`. */
  lemma {:induction false} DigitsOfNatToString(n: nat)
    ensures DigitsValue(NatToString(n)) == n
    decreases n
  {
    var s := NatToString(n);
    if n >= 10 {
      DigitsOfNatToString(n / 10);
      assert s[..|s| - 1] == NatToString(n / 10);
    }
  }

  // ------------------------------------------------------------------------
  // JS scalar values
  // ------------------------------------------------------------------------

  /** A JSON/JS scalar. Numbers are integers here (NaN is separate); fractional numbers
      are outside the model. */
  datatype JsVal = Undefined | Null | Bool(b: bool) | Num(n: int) | NaN | Str(s: string)

  /** `String(v)` */
  function ToStr(v: JsVal): string {
    match v
    case Undefined => "undefined"
    case Null => "null"
    case Bool(b) => if b then "true" else "false"
    case Num(n) => IntToString(n)
    case NaN => "NaN"
    case Str(s) => s
  }

  /** JS truthiness (`if (v)`, `v || d`). */
  predicate Truthy(v: JsVal) {
    match v
    case Undefined => false
    case Null => false
    case Bool(b) => b
    case Num(n) => n != 0
    case NaN => false
    case Str(s) => s != ""
  }

  /** `v === null || v === undefined` */
  predicate Nullish(v: JsVal) { v.Undefined? || v.Null? }

  /** `a === b`: same type and value, and NaN equals nothing. */
  predicate StrictEquals(a: JsVal, b: JsVal) { a == b && !a.NaN? }

  /** `o || d` for an optional string field: missing and empty both fall back. */
  function OrDefault(o: Option<string>, d: string): (r: string)
    ensures o.Some? && o.value != "" ==> r == o.value
    ensures (o.None? || o.value == "") ==> r == d
  {
    if o.Some? && o.value != "" then o.value else d
  }

  /** `Number(s)` for strings: the empty string is 0, an optionally signed run of
      digits is its integer value, anything else is NaN in this model. */
  function StringToNumber(s: string): JsVal {
    if s == "" then Num(0)
    else if AllDigits(s) then Num(DigitsValue(s))
    else if (s[0] == '-' || s[0] == '+') && |s| > 1 && AllDigits(s[1..]) then
      (var v: int := DigitsValue(s[1..]); if s[0] == '-' then Num(-v) else Num(v))
    else NaN
  }

  /** `ToNumber(v)`: always `Num` or `NaN`. */
  function ToNumber(v: JsVal): (r: JsVal)
    ensures r.Num? || r.NaN?
  {
    match v
    case Undefined => NaN
    case Null => Num(0)
    case Bool(b) => Num(if b then 1 else 0)
    case Num(_) => v
    case NaN => NaN
    case Str(s) => StringToNumber(s)
  }

  datatype Order = Less | Same | Greater | Unordered

  /** Lexicographic comparison of strings, character by character. */
  function StringCompare(a: string, b: string): (r: Order)
    ensures r != Unordered
    ensures r == Same <==> a == b
    decreases |a|
  {
    if |a| == 0 && |b| == 0 then Same
    else if |a| == 0 then Less
    else if |b| == 0 then Greater
    else if a[0] < b[0] then Less
    else if a[0] > b[0] then Greater
    else
      var r := StringCompare(a[1..], b[1..]);
      assert a == [a[0]] + a[1..] && b == [b[0]] + b[1..];
      r
  }

  /** The abstract relational comparison behind `<`, `>`, `<=`, `>=`: two strings compare
      lexicographically, anything else numerically, and NaN is unordered. */
  function Compare(a: JsVal, b: JsVal): Order {
    if a.Str? && b.Str? then StringCompare(a.s, b.s)
    else
      var x, y := ToNumber(a), ToNumber(b);
      if x.Num? && y.Num? then
        (if x.n < y.n then Less else if x.n == y.n then Same else Greater)
      else Unordered
  }

  predicate LessThan(a: JsVal, b: JsVal) { Compare(a, b) == Less }
  predicate GreaterThan(a: JsVal, b: JsVal) { Compare(a, b) == Greater }
  predicate AtMost(a: JsVal, b: JsVal) { Compare(a, b) == Less || Compare(a, b) == Same }
  predicate AtLeast(a: JsVal, b: JsVal) { Compare(a, b) == Greater || Compare(a, b) == Same }

  /** On two numbers the four comparisons are the integer ones. */
  lemma CompareNumbers(x: int, y: int)
    ensures LessThan(Num(x), Num(y)) <==> x < y
    ensures GreaterThan(Num(x), Num(y)) <==> x > y
    ensures AtMost(Num(x), Num(y)) <==> x <= y
    ensures AtLeast(Num(x), Num(y)) <==> x >= y
  {
  }

  /** Nothing compares with undefined or NaN. */
  lemma UnorderedWithUndefined(a: JsVal)
    ensures Compare(a, Undefined) == Unordered && Compare(Undefined, a) == Unordered
    ensures Compare(a, NaN) == Unordered && Compare(NaN, a) == Unordered
  {
  }

  // ------------------------------------------------------------------------
  // Sequences
  // ------------------------------------------------------------------------

  /** `list.unshift(x); if (list.length > n) list = list.slice(0, n)`. */
  function Prepend<T>(x: T, s: seq<T>, cap: nat): (r: seq<T>)
    requires cap > 0
    ensures |r| == Min(|s| + 1, cap)
    ensures r[0] == x && r[1..] == s[..|r| - 1]
  {
    var t := [x] + s;
    if |t| > cap then t[..cap] else t
  }

  /** `s.slice(0, end)` with JS index semantics (a negative end counts from the back). */
  function SliceTo<T>(s: seq<T>, end: int): (r: seq<T>)
    ensures r <= s
    ensures end >= 0 ==> |r| == Min(end, |s|)
    ensures end < 0 ==> |r| == Max(0, |s| + end)
  {
    if end >= 0 then s[..Min(end, |s|)] else s[..Max(0, |s| + end)]
  }

  /** The `limit` option of the listing queries: 0 (absent) keeps everything. */
  function ApplyLimit<T>(s: seq<T>, limit: int): (r: seq<T>)
    ensures r <= s
    ensures limit == 0 ==> r == s
    ensures limit > 0 ==> |r| == Min(limit, |s|)
    ensures limit < 0 ==> |r| == Max(0, |s| + limit)
  {
    if limit == 0 then s else SliceTo(s, limit)
  }

  /** `s.filter(p)`, processed left to right as `forEach` does. */
  function Filter<T(==)>(s: seq<T>, p: T -> bool): (r: seq<T>)
    ensures |r| <= |s|
    ensures forall i :: 0 <= i < |r| ==> r[i] in s && p(r[i])
    ensures forall i :: 0 <= i < |s| && p(s[i]) ==> s[i] in r
    decreases |s|
  {
    if |s| == 0 then []
    else
      var front := Filter(s[..|s| - 1], p);
      assert s == s[..|s| - 1] + [s[|s| - 1]];
      if p(s[|s| - 1]) then front + [s[|s| - 1]] else front
  }

  /** Removing the element at `j` leaves the others, one fewer, as a multiset. */
  lemma RemoveAt<T>(s: seq<T>, j: nat)
    requires j < |s|
    ensures |s[..j] + s[j + 1..]| == |s| - 1
    ensures multiset(s[..j] + s[j + 1..]) + multiset{s[j]} == multiset(s)
  {
    assert s == s[..j] + [s[j]] + s[j + 1..];
  }

  /** The prefix of a sequence up to its length is all of it. */
  lemma TakeAll<T>(s: seq<T>)
    ensures s[..|s|] == s
  {
  }

  /** Filtering one element more of `s`. */
  lemma FilterSnoc<T>(s: seq<T>, i: nat, p: T -> bool)
    requires i < |s|
    ensures Filter(s[..i + 1], p) == Filter(s[..i], p) + (if p(s[i]) then [s[i]] else [])
  {
    var prefix := s[..i + 1];
    assert prefix[..i] == s[..i];
  }

  /** Filtering keeps the order: the result is a subsequence of the input. */
  lemma {:induction false} FilterIsSubsequence<T>(s: seq<T>, p: T -> bool)
    ensures IsSubsequence(Filter(s, p), s)
    decreases |s|
  {
    if |s| > 0 {
      FilterIsSubsequence(s[..|s| - 1], p);
      SubsequenceSnoc(Filter(s[..|s| - 1], p), s[..|s| - 1], s[|s| - 1], p(s[|s| - 1]));
      assert s[..|s| - 1] + [s[|s| - 1]] == s;
    }
  }

  /** Two successive filters are one filter by the conjunction, which is how the
      listing queries chain their optional conditions. */
  lemma {:induction false} FilterFuse<T>(s: seq<T>, p: T -> bool, q: T -> bool, both: T -> bool)
    requires forall x :: both(x) == (p(x) && q(x))
    ensures Filter(Filter(s, p), q) == Filter(s, both)
    decreases |s|
  {
    if |s| > 0 {
      var front := s[..|s| - 1];
      var x := s[|s| - 1];
      FilterFuse(front, p, q, both);
      if p(x) {
        var a := Filter(front, p);
        assert (a + [x])[..|a|] == a;
      }
    }
  }

  /** `a` is obtained from `b` by deleting elements. */
  predicate IsSubsequence<T(==)>(a: seq<T>, b: seq<T>)
    decreases |b|
  {
    if |a| == 0 then true
    else if |b| == 0 then false
    else if a[|a| - 1] == b[|b| - 1] then IsSubsequence(a[..|a| - 1], b[..|b| - 1])
    else IsSubsequence(a, b[..|b| - 1])
  }

  lemma {:induction false} SubsequenceSnoc<T>(a: seq<T>, b: seq<T>, x: T, keep: bool)
    requires IsSubsequence(a, b)
    ensures IsSubsequence(if keep then a + [x] else a, b + [x])
    decreases |b|
  {
    if keep {
      assert (a + [x])[..|a|] == a && (b + [x])[..|b|] == b;
    } else {
      assert (b + [x])[..|b|] == b;
      if |a| > 0 && a[|a| - 1] == x {
        SubsequenceDropLast(a, b);
      }
    }
  }

  lemma {:induction false} SubsequenceDropLast<T>(a: seq<T>, b: seq<T>)
    requires |a| > 0 && IsSubsequence(a, b)
    ensures IsSubsequence(a[..|a| - 1], b)
    decreases |b|, 0
  {
    if |b| > 0 {
      if a[|a| - 1] == b[|b| - 1] {
        SubsequenceWeaken(a[..|a| - 1], b[..|b| - 1], b[|b| - 1]);
        assert b[..|b| - 1] + [b[|b| - 1]] == b;
      } else {
        SubsequenceDropLast(a, b[..|b| - 1]);
        SubsequenceWeaken(a[..|a| - 1], b[..|b| - 1], b[|b| - 1]);
        assert b[..|b| - 1] + [b[|b| - 1]] == b;
      }
    }
  }

  lemma {:induction false} SubsequenceWeaken<T>(a: seq<T>, b: seq<T>, x: T)
    requires IsSubsequence(a, b)
    ensures IsSubsequence(a, b + [x])
    decreases |b|, 1
  {
    assert (b + [x])[..|b|] == b;
    if |a| > 0 && a[|a| - 1] == x {
      SubsequenceDropLast(a, b);
    }
  }

  /** `s.findIndex(x => key(x) === k)`: the first position whose key is `k`, or -1. */
  function IndexOf<T>(s: seq<T>, key: T -> string, k: string): (i: int)
    ensures -1 <= i < |s|
    ensures 0 <= i ==> key(s[i]) == k && forall j :: 0 <= j < i ==> key(s[j]) != k
    ensures i == -1 <==> forall j :: 0 <= j < |s| ==> key(s[j]) != k
    decreases |s|
  {
    if |s| == 0 then -1
    else if key(s[0]) == k then 0
    else
      var j := IndexOf(s[1..], key, k);
      if j == -1 then -1 else j + 1
  }

  /** The first position with key `k` in `s + [x]`: the one in `s`, else `x`'s. */
  lemma IndexOfSnoc<T>(s: seq<T>, x: T, key: T -> string, k: string)
    ensures IndexOf(s + [x], key, k) ==
      if IndexOf(s, key, k) >= 0 then IndexOf(s, key, k) else if key(x) == k then |s| else -1
  {
    var t := s + [x];
    assert forall j :: 0 <= j < |s| ==> t[j] == s[j];
    assert t[|s|] == x;
  }

  /** Number of elements satisfying `p`. */
  function Count<T>(s: seq<T>, p: T -> bool): nat
    decreases |s|
  {
    if |s| == 0 then 0 else Count(s[..|s| - 1], p) + (if p(s[|s| - 1]) then 1 else 0)
  }

  /** Counting over one element more of `s`. */
  lemma CountSnoc<T>(s: seq<T>, i: nat, p: T -> bool)
    requires i < |s|
    ensures Count(s[..i + 1], p) == Count(s[..i], p) + (if p(s[i]) then 1 else 0)
  {
    var prefix := s[..i + 1];
    assert prefix[..i] == s[..i];
  }

  lemma {:induction false} CountIsFilterLength<T>(s: seq<T>, p: T -> bool)
    ensures Count(s, p) == |Filter(s, p)|
    decreases |s|
  {
    if |s| > 0 { CountIsFilterLength(s[..|s| - 1], p); }
  }

  /** Filtering a prefix of `s` gives a prefix of filtering `s`. */
  lemma {:induction false} FilterPrefix<T>(s: seq<T>, n: nat, p: T -> bool)
    requires n <= |s|
    ensures Filter(s[..n], p) <= Filter(s, p)
    decreases |s|
  {
    if n < |s| {
      var front := s[..|s| - 1];
      assert front[..n] == s[..n];
      FilterPrefix(front, n, p);
    } else {
      assert s[..n] == s;
    }
  }

  /** What `s.filter(p)` keeps: as many elements as satisfy `p`, each satisfying it, every
      one of them, in input order. */
  lemma FilterLaws<T>(s: seq<T>, p: T -> bool)
    ensures |Filter(s, p)| == Count(s, p)
    ensures IsSubsequence(Filter(s, p), s)
    ensures forall i :: 0 <= i < |Filter(s, p)| ==> p(Filter(s, p)[i])
    ensures forall i :: 0 <= i < |s| && p(s[i]) ==> s[i] in Filter(s, p)
  {
    CountIsFilterLength(s, p);
    FilterIsSubsequence(s, p);
  }

  /** A match of `s` that is among the first `limit` matches survives the limit. */
  lemma FirstMatchesKept<T>(s: seq<T>, p: T -> bool, limit: int, j: nat)
    requires j < |s| && p(s[j]) && limit > 0 && Count(s[..j + 1], p) <= limit
    ensures s[j] in ApplyLimit(Filter(s, p), limit)
  {
    var m := Filter(s, p);
    var head := Filter(s[..j + 1], p);
    FilterPrefix(s, j + 1, p);
    FilterSnoc(s, j, p);
    CountIsFilterLength(s[..j + 1], p);
    assert head[|head| - 1] == s[j];
    assert m[|head| - 1] == s[j];
  }

  /** `filter(p)` followed by `if (limit) slice(0, limit)`: the result is the first
      `limit` matches in stored order (every match among them included), all matches
      without a limit, and all but the last `-limit` matches for a negative limit. */
  lemma FilterLimitLaws<T>(s: seq<T>, p: T -> bool, limit: int)
    ensures |Filter(s, p)| == Count(s, p)
    ensures IsSubsequence(ApplyLimit(Filter(s, p), limit), s)
    ensures forall i :: 0 <= i < |ApplyLimit(Filter(s, p), limit)| ==> p(ApplyLimit(Filter(s, p), limit)[i])
    ensures limit == 0 ==> ApplyLimit(Filter(s, p), limit) == Filter(s, p)
    ensures limit > 0 ==> ApplyLimit(Filter(s, p), limit) == Filter(s, p)[..Min(limit, Count(s, p))]
    ensures limit < 0 ==> ApplyLimit(Filter(s, p), limit) == Filter(s, p)[..Max(0, Count(s, p) + limit)]
    ensures forall j :: 0 <= j < |s| && p(s[j]) && (limit == 0 || (0 < limit && Count(s[..j + 1], p) <= limit)) ==>
      s[j] in ApplyLimit(Filter(s, p), limit)
  {
    var m := Filter(s, p);
    FilterLaws(s, p);
    PrefixOfSubsequence(ApplyLimit(m, limit), m, s);
    forall j | 0 <= j < |s| && p(s[j]) && 0 < limit && Count(s[..j + 1], p) <= limit
      ensures s[j] in ApplyLimit(m, limit)
    {
      FirstMatchesKept(s, p, limit, j);
    }
  }

  /** A prefix of a subsequence of `c` is a subsequence of `c`. */
  lemma {:induction false} PrefixOfSubsequence<T>(a: seq<T>, b: seq<T>, c: seq<T>)
    requires a <= b && IsSubsequence(b, c)
    ensures IsSubsequence(a, c)
    decreases |b| - |a|
  {
    if |a| < |b| {
      assert b[..|b| - 1][..|a|] == a;
      SubsequenceDropLast(b, c);
      PrefixOfSubsequence(a, b[..|b| - 1], c);
    } else {
      assert a == b;
    }
  }

  /** `s.map(f)` */
  function Map<T, U>(s: seq<T>, f: T -> U): (r: seq<U>)
    ensures |r| == |s|
    ensures forall i :: 0 <= i < |s| ==> r[i] == f(s[i])
  {
    seq(|s|, i requires 0 <= i < |s| => f(s[i]))
  }

  /** Mapping one element more. */
  lemma MapSnoc<T, U>(s: seq<T>, x: T, f: T -> U)
    ensures Map(s + [x], f) == Map(s, f) + [f(x)]
  {
  }

  /** Concatenation of `f(x)` over `s` in order: what a `forEach` that pushes
      zero or more results per element builds. */
  function FlatMap<T, U>(s: seq<T>, f: T -> seq<U>): seq<U>
    decreases |s|
  {
    if |s| == 0 then [] else FlatMap(s[..|s| - 1], f) + f(s[|s| - 1])
  }

  /** The concatenation over one element more of `s`. */
  lemma FlatMapSnoc<T, U>(s: seq<T>, i: nat, f: T -> seq<U>)
    requires i < |s|
    ensures FlatMap(s[..i + 1], f) == FlatMap(s[..i], f) + f(s[i])
  {
    var prefix := s[..i + 1];
    assert prefix[..i] == s[..i];
  }

  /** `if (c) out.push(x)`: one element or none. */
  function When<T>(c: bool, x: T): (r: seq<T>)
    ensures |r| == (if c then 1 else 0)
    ensures forall i :: 0 <= i < |r| ==> r[i] == x
  {
    if c then [x] else []
  }

  lemma CountWhen<T>(c: bool, x: T, p: T -> bool)
    ensures Count(When(c, x), p) == (if c && p(x) then 1 else 0)
  {
    assert [x][..0] == [];
  }

  /** A property of every pushed element holds of the whole concatenation. */
  lemma {:induction false} FlatMapAll<T, U>(s: seq<T>, f: T -> seq<U>, P: U -> bool)
    requires forall i, j :: 0 <= i < |s| && 0 <= j < |f(s[i])| ==> P(f(s[i])[j])
    ensures forall k :: 0 <= k < |FlatMap(s, f)| ==> P(FlatMap(s, f)[k])
    decreases |s|
  {
    if |s| > 0 {
      FlatMapAll(s[..|s| - 1], f, P);
      var a := FlatMap(s[..|s| - 1], f);
      var b := f(s[|s| - 1]);
      assert forall k :: |a| <= k < |a + b| ==> (a + b)[k] == b[k - |a|];
    }
  }

  /** Summing a 0/1 indicator of `p` counts `p`. */
  lemma {:induction false} SumIsCount<T>(s: seq<T>, p: T -> bool, per: T -> nat)
    requires forall i :: 0 <= i < |s| ==> per(s[i]) == (if p(s[i]) then 1 else 0)
    ensures SumNat(s, per) == Count(s, p)
    decreases |s|
  {
    if |s| > 0 { SumIsCount(s[..|s| - 1], p, per); }
  }

  lemma {:induction false} CountAll<T>(s: seq<T>, p: T -> bool)
    requires forall i :: 0 <= i < |s| ==> p(s[i])
    ensures Count(s, p) == |s|
    decreases |s|
  {
    if |s| > 0 { CountAll(s[..|s| - 1], p); }
  }

  /** Counting two disjoint predicates that cover every element counts everything. */
  lemma {:induction false} CountSplit<T>(s: seq<T>, p: T -> bool, q: T -> bool)
    requires forall k :: 0 <= k < |s| ==> (p(s[k]) || q(s[k])) && !(p(s[k]) && q(s[k]))
    ensures Count(s, p) + Count(s, q) == |s|
    decreases |s|
  {
    if |s| > 0 { CountSplit(s[..|s| - 1], p, q); }
  }

  /** Counting over a concatenation is summing the per-element counts. */
  lemma {:induction false} CountFlatMap<T, U>(s: seq<T>, f: T -> seq<U>, p: U -> bool, per: T -> nat)
    requires forall i :: 0 <= i < |s| ==> Count(f(s[i]), p) == per(s[i])
    ensures Count(FlatMap(s, f), p) == SumNat(s, per)
    decreases |s|
  {
    if |s| > 0 {
      CountFlatMap(s[..|s| - 1], f, p, per);
      CountAppend(FlatMap(s[..|s| - 1], f), f(s[|s| - 1]), p);
    }
  }

  lemma {:induction false} CountAppend<T>(a: seq<T>, b: seq<T>, p: T -> bool)
    ensures Count(a + b, p) == Count(a, p) + Count(b, p)
    decreases |b|
  {
    if |b| == 0 {
      assert a + b == a;
    } else {
      CountAppend(a, b[..|b| - 1], p);
      assert (a + b)[..|a + b| - 1] == a + b[..|b| - 1];
      assert (a + b)[|a + b| - 1] == b[|b| - 1];
    }
  }

  /** Sum of `f(x)` over `s`. */
  function SumNat<T>(s: seq<T>, f: T -> nat): nat
    decreases |s|
  {
    if |s| == 0 then 0 else SumNat(s[..|s| - 1], f) + f(s[|s| - 1])
  }

  // ------------------------------------------------------------------------
  // Dictionaries (plain JS objects with string keys)
  // ------------------------------------------------------------------------

  datatype Entry<V> = Entry(key: string, val: V)

  type Dict<V> = seq<Entry<V>>

  predicate DistinctKeys<V>(d: Dict<V>) {
    forall i, j :: 0 <= i < j < |d| ==> d[i].key != d[j].key
  }

  /** `d[k]`, or None when the key is absent. */
  function Lookup<V>(d: Dict<V>, k: string): Option<V>
    decreases |d|
  {
    if |d| == 0 then None
    else if d[0].key == k then Some(d[0].val)
    else Lookup(d[1..], k)
  }

  /** `d[k] = (d[k] || 0) + 1` */
  function Bump(d: Dict<nat>, k: string): (r: Dict<nat>)
    ensures DistinctKeys(d) ==> DistinctKeys(r)
    ensures forall i :: 0 <= i < |r| ==> r[i].key == k || exists j :: 0 <= j < |d| && d[j].key == r[i].key
    decreases |d|
  {
    if |d| == 0 then [Entry(k, 1)]
    else if d[0].key == k then [Entry(k, d[0].val + 1)] + d[1..]
    else [d[0]] + Bump(d[1..], k)
  }

  /** `if (!d[k]) d[k] = []; d[k].push(v)` */
  function Push<V>(d: Dict<seq<V>>, k: string, v: V): (r: Dict<seq<V>>)
    ensures DistinctKeys(d) ==> DistinctKeys(r)
    ensures forall i :: 0 <= i < |r| ==> r[i].key == k || exists j :: 0 <= j < |d| && d[j].key == r[i].key
    decreases |d|
  {
    if |d| == 0 then [Entry(k, [v])]
    else if d[0].key == k then [Entry(k, d[0].val + [v])] + d[1..]
    else [d[0]] + Push(d[1..], k, v)
  }

  /** The count stored under `k`, 0 when absent. */
  function CountAt(d: Dict<nat>, k: string): nat {
    Lookup(d, k).GetOr(0)
  }

  /** The list stored under `k`, empty when absent. */
  function ListAt<V>(d: Dict<seq<V>>, k: string): seq<V> {
    Lookup(d, k).GetOr([])
  }

  /** Sum of all counts of a counting dictionary. */
  function SumCounts(d: Dict<nat>): nat
    decreases |d|
  {
    if |d| == 0 then 0 else d[0].val + SumCounts(d[1..])
  }

  /** Total number of values across all lists of a grouping dictionary. */
  function TotalListed<V>(d: Dict<seq<V>>): nat
    decreases |d|
  {
    if |d| == 0 then 0 else |d[0].val| + TotalListed(d[1..])
  }

  lemma {:induction false} BumpLaws(d: Dict<nat>, k: string, k': string)
    ensures SumCounts(Bump(d, k)) == SumCounts(d) + 1
    ensures CountAt(Bump(d, k), k') == CountAt(d, k') + (if k == k' then 1 else 0)
    ensures Lookup(Bump(d, k), k').Some? <==> Lookup(d, k').Some? || k == k'
    decreases |d|
  {
    if |d| > 0 && d[0].key != k {
      BumpLaws(d[1..], k, k');
    }
  }

  lemma {:induction false} PushLaws<V>(d: Dict<seq<V>>, k: string, v: V, k': string)
    ensures TotalListed(Push(d, k, v)) == TotalListed(d) + 1
    ensures ListAt(Push(d, k, v), k') == ListAt(d, k') + (if k == k' then [v] else [])
    ensures Lookup(Push(d, k, v), k').Some? <==> Lookup(d, k').Some? || k == k'
    decreases |d|
  {
    if |d| > 0 && d[0].key != k {
      PushLaws(d[1..], k, v, k');
    }
  }

  /** The counting dictionary a `forEach` builds with `d[key(x)] = (d[key(x)] || 0) + 1`. */
  function CountBy<T>(init: Dict<nat>, s: seq<T>, key: T -> string): Dict<nat>
    decreases |s|
  {
    if |s| == 0 then init else Bump(CountBy(init, s[..|s| - 1], key), key(s[|s| - 1]))
  }

  /** Tallying one element more of `s`. */
  lemma CountBySnoc<T>(init: Dict<nat>, s: seq<T>, i: nat, key: T -> string)
    requires i < |s|
    ensures CountBy(init, s[..i + 1], key) == Bump(CountBy(init, s[..i], key), key(s[i]))
  {
    var prefix := s[..i + 1];
    assert prefix[..i] == s[..i];
  }

  /** The grouping dictionary a `forEach` builds with `d[key(x)].push(val(x))`. */
  function GroupBy<T, V>(init: Dict<seq<V>>, s: seq<T>, key: T -> string, val: T -> V): Dict<seq<V>>
    decreases |s|
  {
    if |s| == 0 then init else Push(GroupBy(init, s[..|s| - 1], key, val), key(s[|s| - 1]), val(s[|s| - 1]))
  }

  /** Grouping one element more of `s`. */
  lemma GroupBySnoc<T, V>(init: Dict<seq<V>>, s: seq<T>, i: nat, key: T -> string, val: T -> V)
    requires i < |s|
    ensures GroupBy(init, s[..i + 1], key, val) == Push(GroupBy(init, s[..i], key, val), key(s[i]), val(s[i]))
  {
    var prefix := s[..i + 1];
    assert prefix[..i] == s[..i];
  }

  /** Number of elements of `s` whose key is `k`. */
  function CountKey<T>(s: seq<T>, key: T -> string, k: string): nat
    decreases |s|
  {
    if |s| == 0 then 0 else CountKey(s[..|s| - 1], key, k) + (if key(s[|s| - 1]) == k then 1 else 0)
  }

  /** The values of the elements of `s` whose key is `k`, in order. */
  function Select<T, V>(s: seq<T>, key: T -> string, val: T -> V, k: string): seq<V>
    decreases |s|
  {
    if |s| == 0 then []
    else Select(s[..|s| - 1], key, val, k) + (if key(s[|s| - 1]) == k then [val(s[|s| - 1])] else [])
  }

  /** Counting by key: the counts sum to the number of elements (plus what the initial
      dictionary held) and each key counts exactly the elements carrying it. */
  lemma {:induction false} CountByLaws<T>(init: Dict<nat>, s: seq<T>, key: T -> string, k: string)
    ensures SumCounts(CountBy(init, s, key)) == SumCounts(init) + |s|
    ensures CountAt(CountBy(init, s, key), k) == CountAt(init, k) + CountKey(s, key, k)
    ensures DistinctKeys(init) ==> DistinctKeys(CountBy(init, s, key))
    decreases |s|
  {
    if |s| > 0 {
      CountByLaws(init, s[..|s| - 1], key, k);
      BumpLaws(CountBy(init, s[..|s| - 1], key), key(s[|s| - 1]), k);
    }
  }

  /** A key is present after counting iff it was initially or some element carries it. */
  lemma {:induction false} CountByKeys<T>(init: Dict<nat>, s: seq<T>, key: T -> string, k: string)
    ensures Lookup(CountBy(init, s, key), k).Some? <==> Lookup(init, k).Some? || CountKey(s, key, k) > 0
    decreases |s|
  {
    if |s| > 0 {
      CountByKeys(init, s[..|s| - 1], key, k);
      BumpLaws(CountBy(init, s[..|s| - 1], key), key(s[|s| - 1]), k);
    }
  }

  lemma {:induction false} GroupByTotal<T, V>(init: Dict<seq<V>>, s: seq<T>, key: T -> string, val: T -> V)
    ensures TotalListed(GroupBy(init, s, key, val)) == TotalListed(init) + |s|
    decreases |s|
  {
    if |s| > 0 {
      var n := |s| - 1;
      GroupByTotal(init, s[..n], key, val);
      PushLaws(GroupBy(init, s[..n], key, val), key(s[n]), val(s[n]), "");
    }
  }

  lemma {:induction false} GroupByList<T, V>(init: Dict<seq<V>>, s: seq<T>, key: T -> string, val: T -> V, k: string)
    ensures ListAt(GroupBy(init, s, key, val), k) == ListAt(init, k) + Select(s, key, val, k)
    decreases |s|
  {
    if |s| > 0 {
      var n := |s| - 1;
      GroupByList(init, s[..n], key, val, k);
      PushLaws(GroupBy(init, s[..n], key, val), key(s[n]), val(s[n]), k);
      var extra := if key(s[n]) == k then [val(s[n])] else [];
      assert ListAt(init, k) + Select(s[..n], key, val, k) + extra == ListAt(init, k) + (Select(s[..n], key, val, k) + extra);
    }
  }

  lemma {:induction false} GroupByKeys<T, V>(init: Dict<seq<V>>, s: seq<T>, key: T -> string, val: T -> V, k: string)
    ensures Lookup(GroupBy(init, s, key, val), k).Some? <==> Lookup(init, k).Some? || |Select(s, key, val, k)| > 0
    ensures DistinctKeys(init) ==> DistinctKeys(GroupBy(init, s, key, val))
    decreases |s|
  {
    if |s| > 0 {
      var n := |s| - 1;
      GroupByKeys(init, s[..n], key, val, k);
      PushLaws(GroupBy(init, s[..n], key, val), key(s[n]), val(s[n]), k);
    }
  }

  /** Grouping by key: every element lands in exactly one list, the one of its key,
      in input order. */
  lemma GroupByLaws<T, V>(init: Dict<seq<V>>, s: seq<T>, key: T -> string, val: T -> V, k: string)
    ensures TotalListed(GroupBy(init, s, key, val)) == TotalListed(init) + |s|
    ensures ListAt(GroupBy(init, s, key, val), k) == ListAt(init, k) + Select(s, key, val, k)
    ensures Lookup(GroupBy(init, s, key, val), k).Some? <==> Lookup(init, k).Some? || |Select(s, key, val, k)| > 0
    ensures DistinctKeys(init) ==> DistinctKeys(GroupBy(init, s, key, val))
  {
    GroupByTotal(init, s, key, val);
    GroupByList(init, s, key, val, k);
    GroupByKeys(init, s, key, val, k);
  }


  /** Grouping a concatenation groups the second part into what the first part built:
      two `forEach` passes into the same dictionary. */
  lemma {:induction false} GroupByAppend<T, V>(init: Dict<seq<V>>, a: seq<T>, b: seq<T>, key: T -> string, val: T -> V)
    ensures GroupBy(init, a + b, key, val) == GroupBy(GroupBy(init, a, key, val), b, key, val)
    decreases |b|
  {
    if |b| == 0 {
      assert a + b == a;
    } else {
      GroupByAppend(init, a, b[..|b| - 1], key, val);
      assert (a + b)[..|a + b| - 1] == a + b[..|b| - 1];
      assert (a + b)[|a + b| - 1] == b[|b| - 1];
    }
  }

  /** Selecting from a concatenation selects from each part. */
  lemma {:induction false} SelectAppend<T, V>(a: seq<T>, b: seq<T>, key: T -> string, val: T -> V, k: string)
    ensures Select(a + b, key, val, k) == Select(a, key, val, k) + Select(b, key, val, k)
    decreases |b|
  {
    if |b| == 0 {
      assert a + b == a;
    } else {
      SelectAppend(a, b[..|b| - 1], key, val, k);
      assert (a + b)[..|a + b| - 1] == a + b[..|b| - 1];
      assert (a + b)[|a + b| - 1] == b[|b| - 1];
    }
  }

  /** A concatenation is as long as the sum of its parts' lengths. */
  lemma {:induction false} FlatMapLength<T, U>(s: seq<T>, f: T -> seq<U>, per: T -> nat)
    requires forall i :: 0 <= i < |s| ==> per(s[i]) == |f(s[i])|
    ensures |FlatMap(s, f)| == SumNat(s, per)
    decreases |s|
  {
    if |s| > 0 { FlatMapLength(s[..|s| - 1], f, per); }
  }

  /** Concatenating over two runs one after the other is concatenating their results. */
  lemma {:induction false} FlatMapAppend<T, U>(a: seq<T>, b: seq<T>, f: T -> seq<U>)
    ensures FlatMap(a + b, f) == FlatMap(a, f) + FlatMap(b, f)
    decreases |b|
  {
    if |b| == 0 {
      assert a + b == a;
    } else {
      FlatMapAppend(a, b[..|b| - 1], f);
      assert (a + b)[..|a + b| - 1] == a + b[..|b| - 1];
      assert (a + b)[|a + b| - 1] == b[|b| - 1];
    }
  }

  /** `Select` has one entry per element carrying the key. */
  lemma {:induction false} SelectLength<T, V>(s: seq<T>, key: T -> string, val: T -> V, k: string)
    ensures |Select(s, key, val, k)| == CountKey(s, key, k)
    decreases |s|
  {
    if |s| > 0 { SelectLength(s[..|s| - 1], key, val, k); }
  }
}
