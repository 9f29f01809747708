/** Shared vocabulary of the model: optional values, the list operations the
    screens use (`filter`, `reduce`, index removal), and the parts of
    JavaScript's string semantics that the handlers rely on (`trim`,
    `toLowerCase`, `parseInt`, `parseFloat`, number-to-string and the default
    `sort` order). */
module Common {

  datatype Option<T> = None | Some(value: T)

  // ---------------------------------------------------------------------------
  // Sequences
  // ---------------------------------------------------------------------------

  /** `a` is an order-preserving subsequence of `b`. */
  ghost predicate IsSubseq<T>(a: seq<T>, b: seq<T>)
    decreases |b|
  {
    if a == [] then true
    else if b == [] then false
    else if a[0] == b[0] then IsSubseq(a[1..], b[1..])
    else IsSubseq(a, b[1..])
  }

  lemma {:induction false} IsSubseqRefl<T>(a: seq<T>)
    ensures IsSubseq(a, a)
    decreases |a|
  {
    if a != [] {
      IsSubseqRefl(a[1..]);
    }
  }

  /** A subsequence of a subsequence is a subsequence. */
  lemma {:induction false} SubseqTrans<T>(a: seq<T>, b: seq<T>, c: seq<T>)
    requires IsSubseq(a, b) && IsSubseq(b, c)
    ensures IsSubseq(a, c)
    decreases |c|
  {
    if a != [] {
      assert c != [];
      if b[0] == c[0] {
        if a[0] == b[0] {
          SubseqDropHead(a, b);
          SubseqDropHead(b, c);
          SubseqTrans(a[1..], b[1..], c[1..]);
          SepHead(a, c);
        } else {
          SubseqOfTail(a, b);
          SubseqTailOnly(a, b);
          SubseqDropHead(b, c);
          SubseqTrans(a, b[1..], c[1..]);
          SubseqOfTail(a, c);
        }
      } else {
        SubseqSkip(b, c);
        SubseqTrans(a, b, c[1..]);
        SubseqOfTail(a, c);
      }
    }
  }

  lemma SepHead<T>(a: seq<T>, c: seq<T>)
    requires a != [] && c != [] && a[0] == c[0] && IsSubseq(a[1..], c[1..])
    ensures IsSubseq(a, c)
  {
  }

  lemma SubseqTailOnly<T>(a: seq<T>, b: seq<T>)
    requires a != [] && b != [] && a[0] != b[0] && IsSubseq(a, b)
    ensures IsSubseq(a, b[1..])
  {
  }

  lemma SubseqSkip<T>(b: seq<T>, c: seq<T>)
    requires b != [] && c != [] && b[0] != c[0] && IsSubseq(b, c)
    ensures IsSubseq(b, c[1..])
  {
  }

  /** `Array.prototype.filter`. */
  function Filter<T>(s: seq<T>, keep: T -> bool): (r: seq<T>)
    ensures |r| <= |s|
    decreases |s|
  {
    if s == [] then []
    else (if keep(s[0]) then [s[0]] else []) + Filter(s[1..], keep)
  }

  lemma {:induction false} FilterMembers<T>(s: seq<T>, keep: T -> bool)
    ensures forall x :: x in Filter(s, keep) <==> x in s && keep(x)
    decreases |s|
  {
    if s != [] {
      FilterMembers(s[1..], keep);
      assert s == [s[0]] + s[1..];
    }
  }

  lemma {:induction false} FilterIsSubseq<T>(s: seq<T>, keep: T -> bool)
    ensures IsSubseq(Filter(s, keep), s)
    decreases |s|
  {
    if s != [] {
      FilterIsSubseq(s[1..], keep);
      var r := Filter(s, keep);
      if keep(s[0]) {
        assert r[0] == s[0] && r[1..] == Filter(s[1..], keep);
      } else {
        assert r == Filter(s[1..], keep);
        SubseqOfTail(r, s);
      }
    }
  }

  lemma {:induction false} SubseqOfTail<T>(a: seq<T>, b: seq<T>)
    requires b != [] && IsSubseq(a, b[1..])
    ensures IsSubseq(a, b)
    decreases |b|, 0
  {
    if a != [] && a[0] == b[0] {
      SubseqDropHead(a, b[1..]);
    }
  }

  lemma {:induction false} SubseqDropHead<T>(a: seq<T>, b: seq<T>)
    requires a != [] && IsSubseq(a, b)
    ensures IsSubseq(a[1..], b)
    decreases |b|, 1
  {
    if a[0] == b[0] {
      if a[1..] != [] {
        SubseqOfTail(a[1..], b);
      }
    } else {
      SubseqDropHead(a, b[1..]);
      if a[1..] != [] {
        SubseqOfTail(a[1..], b);
      }
    }
  }

  /** A filter keeps every copy of the values it keeps and no copy of the others. */
  lemma {:induction false} FilterCounts<T>(s: seq<T>, keep: T -> bool)
    ensures forall x :: multiset(Filter(s, keep))[x] == if keep(x) then multiset(s)[x] else 0
    decreases |s|
  {
    if s != [] {
      FilterCounts(s[1..], keep);
      assert s == [s[0]] + s[1..];
      assert multiset(s) == multiset{s[0]} + multiset(s[1..]);
      assert multiset(Filter(s, keep)) == multiset(if keep(s[0]) then [s[0]] else []) + multiset(Filter(s[1..], keep));
    }
  }

  /** A filter keeping everything is the identity. */
  lemma {:induction false} FilterAll<T>(s: seq<T>, keep: T -> bool)
    requires forall x :: x in s ==> keep(x)
    ensures Filter(s, keep) == s
    decreases |s|
  {
    if s != [] {
      FilterAll(s[1..], keep);
      assert s == [s[0]] + s[1..];
    }
  }

  /** Two filters in a row are one filter by the conjunction. */
  lemma {:induction false} FilterFilter<T>(s: seq<T>, p: T -> bool, q: T -> bool, pq: T -> bool)
    requires forall x :: pq(x) == (p(x) && q(x))
    ensures Filter(Filter(s, p), q) == Filter(s, pq)
    decreases |s|
  {
    if s != [] {
      FilterFilter(s[1..], p, q, pq);
      assert Filter(s, p) == (if p(s[0]) then [s[0]] else []) + Filter(s[1..], p);
      FilterAppend((if p(s[0]) then [s[0]] else []), Filter(s[1..], p), q);
    }
  }

  lemma {:induction false} FilterAppend<T>(a: seq<T>, b: seq<T>, keep: T -> bool)
    ensures Filter(a + b, keep) == Filter(a, keep) + Filter(b, keep)
    decreases |a|
  {
    if a != [] {
      FilterAppend(a[1..], b, keep);
      assert (a + b)[1..] == a[1..] + b;
    } else {
      assert a + b == b;
    }
  }

  /** A filter and the filter by the opposite test split the list between them. */
  lemma {:induction false} FilterPartition<T>(s: seq<T>, p: T -> bool, q: T -> bool)
    requires forall x :: q(x) == !p(x)
    ensures |Filter(s, p)| + |Filter(s, q)| == |s|
    decreases |s|
  {
    if s != [] {
      FilterPartition(s[1..], p, q);
    }
  }

  /** No two entries of `s` share a key. */
  ghost predicate KeysUnique<T, K>(s: seq<T>, key: T -> K)
  {
    forall i, j :: 0 <= i < j < |s| ==> key(s[i]) != key(s[j])
  }

  /** Filtering a list with unique keys leaves the keys unique. */
  lemma {:induction false} FilterKeysUnique<T, K>(s: seq<T>, keep: T -> bool, key: T -> K)
    requires KeysUnique(s, key)
    ensures KeysUnique(Filter(s, keep), key)
    decreases |s|
  {
    if s != [] {
      FilterKeysUnique(s[1..], keep, key);
      var t := Filter(s[1..], keep);
      if keep(s[0]) {
        FilterAvoidsKey(s[1..], keep, key, key(s[0]));
        var r := [s[0]] + t;
        assert Filter(s, keep) == r;
        forall i, j | 0 <= i < j < |r| ensures key(r[i]) != key(r[j]) {
          assert r[j] == t[j - 1];
          if i > 0 {
            assert r[i] == t[i - 1];
          }
        }
      } else {
        assert Filter(s, keep) == t;
      }
    }
  }

  /** A key no entry of `s` has is not the key of any entry of a filter of `s`. */
  lemma {:induction false} FilterAvoidsKey<T, K>(s: seq<T>, keep: T -> bool, key: T -> K, k: K)
    requires forall i :: 0 <= i < |s| ==> key(s[i]) != k
    ensures forall i :: 0 <= i < |Filter(s, keep)| ==> key(Filter(s, keep)[i]) != k
    decreases |s|
  {
    if s != [] {
      FilterAvoidsKey(s[1..], keep, key, k);
      var t := Filter(s[1..], keep);
      assert Filter(s, keep) == (if keep(s[0]) then [s[0]] else []) + t;
    }
  }

  /** `prev.filter((_, i) => i !== index)`: drops the entry at `index`, or
      nothing when `index` is not a position of `s`. */
  function RemoveAt<T>(s: seq<T>, index: int): (r: seq<T>)
    ensures 0 <= index < |s| ==> |r| == |s| - 1
    ensures 0 <= index < |s| ==> forall i :: 0 <= i < index ==> r[i] == s[i]
    ensures 0 <= index < |s| ==> forall i :: index <= i < |r| ==> r[i] == s[i + 1]
    ensures !(0 <= index < |s|) ==> r == s
  {
    if 0 <= index < |s| then s[..index] + s[index + 1..] else s
  }

  /** `s.reduce((t, x) => t + f(x), 0)` over integers. */
  function SumInt<T>(s: seq<T>, f: T -> int): int
    decreases |s|
  {
    if s == [] then 0 else f(s[0]) + SumInt(s[1..], f)
  }

  lemma {:induction false} SumIntAppend<T>(a: seq<T>, b: seq<T>, f: T -> int)
    ensures SumInt(a + b, f) == SumInt(a, f) + SumInt(b, f)
    decreases |a|
  {
    if a == [] {
      assert a + b == b;
    } else {
      SumIntAppend(a[1..], b, f);
      assert (a + b)[1..] == a[1..] + b;
    }
  }

  lemma {:induction false} SumIntNonNeg<T>(s: seq<T>, f: T -> int)
    requires forall x :: x in s ==> f(x) >= 0
    ensures SumInt(s, f) >= 0
    decreases |s|
  {
    if s != [] {
      SumIntNonNeg(s[1..], f);
    }
  }

  lemma {:induction false} SumIntCongruent<T, U>(s: seq<T>, f: T -> int, t: seq<U>, g: U -> int)
    requires |s| == |t|
    requires forall i :: 0 <= i < |s| ==> f(s[i]) == g(t[i])
    ensures SumInt(s, f) == SumInt(t, g)
    decreases |s|
  {
    if s != [] {
      SumIntCongruent(s[1..], f, t[1..], g);
    }
  }

  /** Replacing one element changes the sum by the difference. */
  lemma {:induction false} SumIntUpdate<T>(s: seq<T>, f: T -> int, k: int, x: T)
    requires 0 <= k < |s|
    ensures SumInt(s[k := x], f) == SumInt(s, f) - f(s[k]) + f(x)
  {
    assert s == s[..k] + [s[k]] + s[k + 1..];
    assert s[k := x] == s[..k] + [x] + s[k + 1..];
    SumIntAppend(s[..k] + [s[k]], s[k + 1..], f);
    SumIntAppend(s[..k], [s[k]], f);
    SumIntAppend(s[..k] + [x], s[k + 1..], f);
    SumIntAppend(s[..k], [x], f);
    assert SumInt([s[k]], f) == f(s[k]) + SumInt([s[k]][1..], f);
    assert SumInt([x], f) == f(x) + SumInt([x][1..], f);
  }

  /** `s.reduce((t, x) => t + f(x), 0)` over exact money values. */
  function SumReal<T>(s: seq<T>, f: T -> real): real
    decreases |s|
  {
    if s == [] then 0.0 else f(s[0]) + SumReal(s[1..], f)
  }

  lemma {:induction false} SumRealAppend<T>(a: seq<T>, b: seq<T>, f: T -> real)
    ensures SumReal(a + b, f) == SumReal(a, f) + SumReal(b, f)
    decreases |a|
  {
    if a == [] {
      assert a + b == b;
    } else {
      SumRealAppend(a[1..], b, f);
      assert (a + b)[1..] == a[1..] + b;
    }
  }

  /** Two terms that agree on every element give the same sum. */
  lemma {:induction false} SumRealCongruent<T, U>(s: seq<T>, f: T -> real, t: seq<U>, g: U -> real)
    requires |s| == |t|
    requires forall i :: 0 <= i < |s| ==> f(s[i]) == g(t[i])
    ensures SumReal(s, f) == SumReal(t, g)
    decreases |s|
  {
    if s != [] {
      assert f(s[0]) == g(t[0]);
      SumRealCongruent(s[1..], f, t[1..], g);
    }
  }

  lemma {:induction false} SumRealNonNeg<T>(s: seq<T>, f: T -> real)
    requires forall x :: x in s ==> f(x) >= 0.0
    ensures SumReal(s, f) >= 0.0
    decreases |s|
  {
    if s != [] {
      SumRealNonNeg(s[1..], f);
    }
  }

  // ---------------------------------------------------------------------------
  // Math.max and Math.min
  // ---------------------------------------------------------------------------

  function Max(a: int, b: int): int { if a >= b then a else b }

  function Min(a: int, b: int): int { if a <= b then a else b }

  function RMax(a: real, b: real): real { if a >= b then a else b }

  function RMin(a: real, b: real): real { if a <= b then a else b }

  // ---------------------------------------------------------------------------
  // Characters and strings
  // ---------------------------------------------------------------------------

  predicate IsDigit(c: char) { '0' <= c <= '9' }

  /** The white space `String.prototype.trim` and the number parsers skip:
      the WhiteSpace and LineTerminator characters of ECMAScript (sections
      12.2 and 12.3 of ECMA-262), that is tab, vertical tab, form feed,
      space, no-break space, the byte-order mark, the other space separators
      of Unicode 15, line feed, carriage return and the line and paragraph
      separators. */
  predicate IsSpace(c: char)
  {
    c == ' ' || c == '\t' || c == '\n' || c == '\r' || c == '\U{000B}' || c == '\U{000C}'
    || c == '\U{00A0}' || c == '\U{FEFF}' || c == '\U{1680}' || ('\U{2000}' <= c <= '\U{200A}')
    || c == '\U{2028}' || c == '\U{2029}' || c == '\U{202F}' || c == '\U{205F}' || c == '\U{3000}'
  }

  function TrimStart(s: string): (r: string)
    ensures |r| <= |s| && r == s[|s| - |r|..]
    ensures r == [] || !IsSpace(r[0])
    decreases |s|
  {
    if s != [] && IsSpace(s[0]) then TrimStart(s[1..]) else s
  }

  function TrimEnd(s: string): (r: string)
    ensures |r| <= |s| && r == s[..|r|]
    ensures r == [] || !IsSpace(r[|r| - 1])
    decreases |s|
  {
    if s != [] && IsSpace(s[|s| - 1]) then TrimEnd(s[..|s| - 1]) else s
  }

  /** `String.prototype.trim`. */
  function Trim(s: string): string
  {
    TrimEnd(TrimStart(s))
  }

  /** A string trims to "" exactly when it is all white space. */
  lemma {:induction false} TrimEmpty(s: string)
    ensures Trim(s) == [] <==> forall i :: 0 <= i < |s| ==> IsSpace(s[i])
  {
    TrimStartAllSpace(s);
    TrimEndAllSpace(TrimStart(s));
  }

  lemma {:induction false} TrimStartAllSpace(s: string)
    ensures TrimStart(s) == [] <==> forall i :: 0 <= i < |s| ==> IsSpace(s[i])
    decreases |s|
  {
    if s != [] && IsSpace(s[0]) {
      TrimStartAllSpace(s[1..]);
      assert forall i :: 1 <= i < |s| ==> s[i] == s[1..][i - 1];
    }
  }

  lemma {:induction false} TrimEndAllSpace(s: string)
    ensures TrimEnd(s) == [] <==> forall i :: 0 <= i < |s| ==> IsSpace(s[i])
    decreases |s|
  {
    if s != [] && IsSpace(s[|s| - 1]) {
      TrimEndAllSpace(s[..|s| - 1]);
    }
  }

  /** ASCII part of `String.prototype.toLowerCase`. */
  function LowerChar(c: char): char
  {
    if 'A' <= c <= 'Z' then (c as int + 32) as char else c
  }

  function Lower(s: string): (r: string)
    ensures |r| == |s|
    ensures forall i :: 0 <= i < |s| ==> r[i] == LowerChar(s[i])
  {
    seq(|s|, i requires 0 <= i < |s| => LowerChar(s[i]))
  }

  // --- decimal digits ---------------------------------------------------------

  function DigitValue(c: char): nat
    requires IsDigit(c)
  {
    c as int - '0' as int
  }

  function DigitChar(d: nat): (c: char)
    requires d < 10
    ensures IsDigit(c) && DigitValue(c) == d
  {
    (d + '0' as int) as char
  }

  predicate AllDigits(s: string)
  {
    forall i :: 0 <= i < |s| ==> IsDigit(s[i])
  }

  /** The value of a string of decimal digits, most significant first. */
  function DigitsValue(s: string): nat
    requires AllDigits(s)
    decreases |s|
  {
    if s == [] then 0 else DigitsValue(s[..|s| - 1]) * 10 + DigitValue(s[|s| - 1])
  }

  /** The longest prefix of `s` made of decimal digits. */
  function DigitPrefix(s: string): (r: string)
    ensures |r| <= |s| && AllDigits(r) && r == s[..|r|]
    ensures |r| == |s| || !IsDigit(s[|r|])
    decreases |s|
  {
    if s != [] && IsDigit(s[0]) then [s[0]] + DigitPrefix(s[1..]) else []
  }

  lemma {:induction false} DigitPrefixOfDigits(s: string)
    requires AllDigits(s)
    ensures DigitPrefix(s) == s
    decreases |s|
  {
    if s != [] {
      DigitPrefixOfDigits(s[1..]);
    }
  }

  /** `String(n)` for a natural number. */
  function NatToString(n: nat): (s: string)
    ensures |s| >= 1 && AllDigits(s)
    ensures n != 0 ==> s[0] != '0'
    decreases n
  {
    if n < 10 then [DigitChar(n)] else NatToString(n / 10) + [DigitChar(n % 10)]
  }

  /** `String(n)` for an integer. */
  function IntToString(n: int): string
  {
    if n < 0 then "-" + NatToString(-n) else NatToString(n)
  }

  lemma {:induction false} NatToStringValue(n: nat)
    ensures DigitsValue(NatToString(n)) == n
    decreases n
  {
    if n >= 10 {
      NatToStringValue(n / 10);
      var s := NatToString(n);
      assert s[..|s| - 1] == NatToString(n / 10);
    }
  }

  /** Different numbers print differently. */
  lemma NatToStringInjective(m: nat, n: nat)
    requires NatToString(m) == NatToString(n)
    ensures m == n
  {
    NatToStringValue(m);
    NatToStringValue(n);
  }

  /** `x || undefined` for a string: an empty text field is sent as absent. */
  function NonEmpty(s: string): (r: Option<string>)
    ensures r.None? <==> s == ""
    ensures r.Some? ==> r.value == s
  {
    if s == "" then None else Some(s)
  }

  predicate StartsWithDigit(s: string)
  {
    s != [] && IsDigit(s[0])
  }

  /** Splits an optional sign off the front: (negative?, rest). */
  function SplitSign(t: string): (bool, string)
  {
    if t != [] && t[0] == '-' then (true, t[1..])
    else if t != [] && t[0] == '+' then (false, t[1..])
    else (false, t)
  }

  /** `parseInt(s)` with no radix, on decimal text: leading white space, an
      optional sign, then the longest run of digits; `None` stands for NaN. */
  function ParseInt(s: string): (r: Option<int>)
    ensures r.None? <==> !StartsWithDigit(SplitSign(TrimStart(s)).1)
  {
    var (neg, u) := SplitSign(TrimStart(s));
    var d := DigitPrefix(u);
    if d == [] then None
    else Some(if neg then -(DigitsValue(d) as int) else DigitsValue(d))
  }

  /** Printing a natural number and parsing it back gives the number. */
  lemma ParseIntOfNatToString(n: nat)
    ensures ParseInt(NatToString(n)) == Some(n)
  {
    var s := NatToString(n);
    assert IsDigit(s[0]);
    assert TrimStart(s) == s by { assert !IsSpace(s[0]); }
    assert SplitSign(s) == (false, s) by { assert s[0] != '-' && s[0] != '+'; }
    DigitPrefixOfDigits(s);
    NatToStringValue(n);
    assert DigitPrefix(s) == s && DigitsValue(s) == n;
  }

  function Pow10(k: nat): (p: nat)
    ensures p >= 1
  {
    if k == 0 then 1 else 10 * Pow10(k - 1)
  }

  /** `parseFloat(s)` on decimal text: leading white space, an optional sign,
      digits with at most one '.', at least one digit; `None` stands for NaN.
      Exponents and "Infinity" are not modelled. */
  function ParseFloat(s: string): (r: Option<real>)
    ensures r.None? <==>
      var u := SplitSign(TrimStart(s)).1;
      !StartsWithDigit(u) && !(|u| > 0 && u[0] == '.' && StartsWithDigit(u[1..]))
  {
    var (neg, u) := SplitSign(TrimStart(s));
    var ip := DigitPrefix(u);
    var rest := u[|ip|..];
    var fp := if rest != [] && rest[0] == '.' then DigitPrefix(rest[1..]) else [];
    if ip == [] && fp == [] then None
    else
      var v := DigitsValue(ip) as real + DigitsValue(fp) as real / Pow10(|fp|) as real;
      Some(if neg then -v else v)
  }

  // --- the default order of Array.prototype.sort ------------------------------

  /** Lexicographic order on Unicode code points. */
  predicate StrLess(a: string, b: string)
    decreases |a|
  {
    b != [] && (a == [] || a[0] < b[0] || (a[0] == b[0] && StrLess(a[1..], b[1..])))
  }

  lemma {:induction false} StrLessIrreflexive(a: string)
    ensures !StrLess(a, a)
    decreases |a|
  {
    if a != [] {
      StrLessIrreflexive(a[1..]);
    }
  }

  lemma {:induction false} StrLessTransitive(a: string, b: string, c: string)
    requires StrLess(a, b) && StrLess(b, c)
    ensures StrLess(a, c)
    decreases |a|
  {
    if a != [] && a[0] == b[0] && b[0] == c[0] {
      StrLessTransitive(a[1..], b[1..], c[1..]);
    }
  }

  lemma {:induction false} StrLessTotal(a: string, b: string)
    requires a != b
    ensures StrLess(a, b) || StrLess(b, a)
    decreases |a|
  {
    if a != [] && b != [] && a[0] == b[0] {
      assert a == [a[0]] + a[1..] && b == [b[0]] + b[1..];
      StrLessTotal(a[1..], b[1..]);
    }
  }

  lemma StrLessAsym(a: string, b: string)
    requires StrLess(a, b)
    ensures !StrLess(b, a)
  {
    if StrLess(b, a) {
      StrLessTransitive(a, b, a);
      StrLessIrreflexive(a);
    }
  }

  ghost predicate StrictlySorted(s: seq<string>)
  {
    forall i, j :: 0 <= i < j < |s| ==> StrLess(s[i], s[j])
  }

  /** Inserts `x` into a strictly sorted list unless it is already there. */
  function Insert(s: seq<string>, x: string): (r: seq<string>)
    requires StrictlySorted(s)
    ensures StrictlySorted(r)
    ensures forall y :: y in r <==> y in s || y == x
    decreases |s|
  {
    if s == [] then [x]
    else if x == s[0] then s
    else if StrLess(x, s[0]) then
      InsertFrontSorted(s, x);
      [x] + s
    else
      var t := Insert(s[1..], x);
      InsertBehindSorted(s, x, t);
      [s[0]] + t
  }

  lemma InsertFrontSorted(s: seq<string>, x: string)
    requires StrictlySorted(s) && s != [] && StrLess(x, s[0])
    ensures StrictlySorted([x] + s)
  {
    var r := [x] + s;
    forall i, j | 0 <= i < j < |r| ensures StrLess(r[i], r[j]) {
      if i == 0 && j > 1 {
        StrLessTransitive(x, s[0], s[j - 1]);
      }
    }
  }

  lemma InsertBehindSorted(s: seq<string>, x: string, t: seq<string>)
    requires StrictlySorted(s) && s != [] && x != s[0] && !StrLess(x, s[0])
    requires StrictlySorted(t)
    requires forall y :: y in t <==> y in s[1..] || y == x
    ensures StrictlySorted([s[0]] + t)
    ensures forall y :: y in [s[0]] + t <==> y in s || y == x
  {
    StrLessTotal(x, s[0]);
    var r := [s[0]] + t;
    forall j | 1 <= j < |r| ensures StrLess(s[0], r[j]) {
      var y := t[j - 1];
      assert y in t;
      if y != x {
        var k :| 0 <= k < |s[1..]| && s[1..][k] == y;
        assert s[k + 1] == y;
      }
    }
    assert s == [s[0]] + s[1..];
  }

  /** `Array.from(new Set(xs)).sort()`: the distinct strings of `xs` in
      ascending order. */
  function SortDistinct(xs: seq<string>): (r: seq<string>)
    ensures StrictlySorted(r)
    ensures forall y :: y in r <==> y in xs
    decreases |xs|
  {
    if xs == [] then []
    else
      assert xs == xs[..|xs| - 1] + [xs[|xs| - 1]];
      Insert(SortDistinct(xs[..|xs| - 1]), xs[|xs| - 1])
  }

  /** A strictly sorted list is determined by its elements: whatever sorting
      algorithm produces it, the sorted distinct list is the same. */
  lemma {:induction false} SortedUnique(a: seq<string>, b: seq<string>)
    requires StrictlySorted(a) && StrictlySorted(b)
    requires forall y :: y in a <==> y in b
    ensures a == b
    decreases |a|
  {
    if a != [] {
      assert a[0] in a;
      assert b != [];
      assert b[0] in b;
      var i :| 0 <= i < |b| && b[i] == a[0];
      var j :| 0 <= j < |a| && a[j] == b[0];
      if a[0] != b[0] {
        assert i > 0 && j > 0;
        StrLessAsym(b[0], b[i]);
      }
      forall y ensures y in a[1..] <==> y in b[1..] {
        if y in a[1..] {
          var k :| 0 <= k < |a[1..]| && a[1..][k] == y;
          assert a[k + 1] == y && StrLess(a[0], y);
          assert y in a && y in b;
          var m :| 0 <= m < |b| && b[m] == y;
          if m == 0 { StrLessIrreflexive(y); }
          assert b[1..][m - 1] == y;
        }
        if y in b[1..] {
          var k :| 0 <= k < |b[1..]| && b[1..][k] == y;
          assert b[k + 1] == y && StrLess(b[0], y);
          assert y in b && y in a;
          var m :| 0 <= m < |a| && a[m] == y;
          if m == 0 { StrLessIrreflexive(y); }
          assert a[1..][m - 1] == y;
        }
      }
      SortedUnique(a[1..], b[1..]);
      assert a == [a[0]] + a[1..] && b == [b[0]] + b[1..];
    } else {
      forall y ensures multiset(b)[y] == 0 {
        assert y !in a;
      }
      assert multiset(b) == multiset{};
    }
  }

  /** The distinct elements of `xs` in order of first occurrence
      (`Array.from(new Set(xs))`). */
  function Distinct(xs: seq<string>): (r: seq<string>)
    ensures forall i, j :: 0 <= i < j < |r| ==> r[i] != r[j]
    ensures forall y :: y in r <==> y in xs
    decreases |xs|
  {
    if xs == [] then []
    else
      var d := Distinct(xs[..|xs| - 1]);
      assert forall y :: y in xs <==> y in xs[..|xs| - 1] || y == xs[|xs| - 1] by {
        assert xs == xs[..|xs| - 1] + [xs[|xs| - 1]];
      }
      if xs[|xs| - 1] in d then d else d + [xs[|xs| - 1]]
  }
}
