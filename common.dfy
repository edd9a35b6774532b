/** Sequence and string helpers shared by the server and the three browser
    scripts: the JavaScript array methods `find`, `findIndex` and `filter`,
    and the string methods `trim`, `toLowerCase` and `includes`. */
module Common {

  datatype Option<T> = None | Some(value: T)

  /** `findIndex`: the index of the first element satisfying `p`, if any. */
  function FirstIndex<T>(s: seq<T>, p: T -> bool): (r: Option<nat>)
    ensures r.None? <==> forall i :: 0 <= i < |s| ==> !p(s[i])
    ensures r.Some? ==> r.value < |s| && p(s[r.value])
    ensures r.Some? ==> forall j :: 0 <= j < r.value ==> !p(s[j])
  {
    if s == [] then None
    else if p(s[0]) then Some(0)
    else match FirstIndex(s[1..], p)
      case None => None
      case Some(k) => Some(k + 1)
  }

  /** `find`: the first element satisfying `p`, if any. */
  function Find<T>(s: seq<T>, p: T -> bool): (r: Option<T>)
    ensures r.None? <==> forall i :: 0 <= i < |s| ==> !p(s[i])
    ensures r.Some? ==> exists i :: 0 <= i < |s| && s[i] == r.value && p(s[i]) && forall j :: 0 <= j < i ==> !p(s[j])
  {
    match FirstIndex(s, p)
    case None => None
    case Some(i) => Some(s[i])
  }

  /** Appending an element never changes an earlier first match. */
  lemma {:induction false} FirstIndexAppend<T>(s: seq<T>, x: T, p: T -> bool)
    ensures FirstIndex(s + [x], p) ==
      match FirstIndex(s, p)
      case Some(i) => Some(i)
      case None => if p(x) then Some(|s|) else None
  {
    if s != [] {
      assert (s + [x])[1..] == s[1..] + [x];
      FirstIndexAppend(s[1..], x, p);
    }
  }

  /** Two sequences whose elements match `p` at the same positions have the
      same first match. */
  lemma {:induction false} FirstIndexSameMatches<T>(s: seq<T>, t: seq<T>, p: T -> bool)
    requires |s| == |t| && forall i :: 0 <= i < |s| ==> p(s[i]) == p(t[i])
    ensures FirstIndex(s, p) == FirstIndex(t, p)
  {
    if s != [] && !p(s[0]) {
      FirstIndexSameMatches(s[1..], t[1..], p);
    }
  }

  lemma FindStep<T>(s: seq<T>, p: T -> bool)
    requires s != []
    ensures Find(s, p) == if p(s[0]) then Some(s[0]) else Find(s[1..], p)
  {
  }

  /** `r` is obtained from `s` by deleting zero or more elements. */
  predicate IsSubseq<T(==)>(r: seq<T>, s: seq<T>)
    decreases |s|
  {
    if s == [] then r == []
    else (r != [] && r[0] == s[0] && IsSubseq(r[1..], s[1..])) || IsSubseq(r, s[1..])
  }

  /** `filter`: the elements satisfying `p`, in their original order. */
  function Filter<T(==)>(s: seq<T>, p: T -> bool): (r: seq<T>)
    ensures forall i :: 0 <= i < |r| ==> p(r[i])
    ensures forall i :: 0 <= i < |s| && p(s[i]) ==> s[i] in r
    ensures forall x :: x in r ==> x in s
    ensures |r| <= |s|
    ensures |r| == |s| <==> forall i :: 0 <= i < |s| ==> p(s[i])
  {
    if s == [] then []
    else if p(s[0]) then [s[0]] + Filter(s[1..], p)
    else Filter(s[1..], p)
  }

  /** `filter` keeps a subsequence. */
  lemma {:induction false} FilterIsSubseq<T>(s: seq<T>, p: T -> bool)
    ensures IsSubseq(Filter(s, p), s)
  {
    if s != [] {
      FilterIsSubseq(s[1..], p);
      if p(s[0]) {
        assert Filter(s, p)[1..] == Filter(s[1..], p);
      }
    }
  }

  /** Every element of a subsequence occurs in the original sequence. */
  lemma {:induction false} SubseqMembers<T>(r: seq<T>, s: seq<T>)
    requires IsSubseq(r, s)
    ensures forall x :: x in r ==> x in s
    decreases |s|
  {
    if s != [] {
      if r != [] && r[0] == s[0] && IsSubseq(r[1..], s[1..]) {
        SubseqMembers(r[1..], s[1..]);
        assert forall x :: x in r ==> x == r[0] || x in r[1..];
      } else {
        SubseqMembers(r, s[1..]);
      }
    }
  }

  /** Filtering with a predicate every element satisfies changes nothing. */
  lemma {:induction false} FilterKeepsAll<T>(s: seq<T>, p: T -> bool)
    requires forall i :: 0 <= i < |s| ==> p(s[i])
    ensures Filter(s, p) == s
  {
    if s != [] {
      FilterKeepsAll(s[1..], p);
      assert [s[0]] + s[1..] == s;
    }
  }

  /** Filtering out a single rejected element removes exactly that element. */
  lemma {:induction false} FilterDropsOne<T>(s: seq<T>, i: nat, p: T -> bool)
    requires i < |s| && !p(s[i])
    requires forall j :: 0 <= j < |s| && j != i ==> p(s[j])
    ensures Filter(s, p) == s[..i] + s[i + 1..]
  {
    if i == 0 {
      FilterKeepsAll(s[1..], p);
    } else {
      FilterDropsOne(s[1..], i - 1, p);
      assert s[..i] + s[i + 1..] == [s[0]] + (s[1..][..i - 1] + s[1..][i..]);
    }
  }

  /** Filters with predicates that agree everywhere give the same result. */
  lemma {:induction false} FilterExtensional<T>(s: seq<T>, p: T -> bool, q: T -> bool)
    requires forall x :: p(x) == q(x)
    ensures Filter(s, p) == Filter(s, q)
  {
    if s != [] {
      FilterExtensional(s[1..], p, q);
    }
  }

  /** Filtering twice with the same predicate is filtering once. */
  lemma FilterIdempotent<T>(s: seq<T>, p: T -> bool)
    ensures Filter(Filter(s, p), p) == Filter(s, p)
  {
    FilterKeepsAll(Filter(s, p), p);
  }

  /** Filtering a sequence that starts with `x`. */
  lemma FilterCons<T>(x: T, s: seq<T>, p: T -> bool)
    ensures Filter([x] + s, p) == (if p(x) then [x] else []) + Filter(s, p)
  {
    assert ([x] + s)[1..] == s;
  }

  /** `filter` keeps every passing element as often as it occurs, and no
      other. */
  lemma {:induction false} FilterCounts<T>(s: seq<T>, p: T -> bool, x: T)
    ensures multiset(Filter(s, p))[x] == if p(x) then multiset(s)[x] else 0
  {
    if s != [] {
      FilterCounts(s[1..], p, x);
      assert s == [s[0]] + s[1..];
      FilterCons(s[0], s[1..], p);
    }
  }

  lemma FilterCountsAll<T>(s: seq<T>, p: T -> bool)
    ensures forall x :: multiset(Filter(s, p))[x] == if p(x) then multiset(s)[x] else 0
  {
    forall x {
      FilterCounts(s, p, x);
    }
  }

  /** Filtering a sequence extended by one element extends the result by
      that element exactly when it passes. */
  lemma {:induction false} FilterAppend<T>(s: seq<T>, x: T, p: T -> bool)
    ensures Filter(s + [x], p) == Filter(s, p) + (if p(x) then [x] else [])
  {
    if s == [] {
      assert [x][1..] == [];
    } else {
      assert (s + [x])[1..] == s[1..] + [x];
      FilterAppend(s[1..], x, p);
    }
  }

  /** Filtering out only elements that `q` rejects does not change what
      `find` with `q` returns. */
  lemma {:induction false} FindAfterFilter<T>(s: seq<T>, p: T -> bool, q: T -> bool)
    requires forall x :: q(x) ==> p(x)
    ensures Find(Filter(s, p), q) == Find(s, q)
  {
    if s != [] {
      FindAfterFilter(s[1..], p, q);
      FindStep(s, q);
      if p(s[0]) {
        assert Filter(s, p) == [s[0]] + Filter(s[1..], p);
        FindStep(Filter(s, p), q);
        assert Filter(s, p)[1..] == Filter(s[1..], p);
      }
    }
  }

  /** `reduce((acc, x) => acc + f(x), 0)`: a left-to-right sum. */
  function SumBy<T>(s: seq<T>, f: T -> int): int
  {
    if s == [] then 0 else SumBy(s[..|s| - 1], f) + f(s[|s| - 1])
  }

  lemma SumBySingle<T>(x: T, f: T -> int)
    ensures SumBy([x], f) == f(x)
  {
    assert [x][..0] == [];
  }

  lemma {:induction false} SumByConcat<T>(a: seq<T>, b: seq<T>, f: T -> int)
    ensures SumBy(a + b, f) == SumBy(a, f) + SumBy(b, f)
    decreases |b|
  {
    if b == [] {
      assert a + b == a;
    } else {
      assert (a + b)[..|a + b| - 1] == a + b[..|b| - 1];
      SumByConcat(a, b[..|b| - 1], f);
    }
  }

  /** The sum splits around any element. */
  lemma SumBySplit<T>(s: seq<T>, i: nat, f: T -> int)
    requires i < |s|
    ensures SumBy(s, f) == SumBy(s[..i], f) + f(s[i]) + SumBy(s[i + 1..], f)
  {
    var a, b := s[..i], s[i + 1..];
    assert s == (a + [s[i]]) + b;
    SumByConcat(a + [s[i]], b, f);
    assert (a + [s[i]])[..|a|] == a;
  }

  /** Replacing one element changes the sum by the change of that element. */
  lemma SumByUpdate<T>(s: seq<T>, i: nat, x: T, f: T -> int)
    requires i < |s|
    ensures SumBy(s[i := x], f) == SumBy(s, f) - f(s[i]) + f(x)
  {
    SumBySplit(s, i, f);
    SumBySplit(s[i := x], i, f);
    assert s[i := x][..i] == s[..i] && s[i := x][i + 1..] == s[i + 1..];
  }

  /** Removing one element lowers the sum by that element. */
  lemma SumByRemove<T>(s: seq<T>, i: nat, f: T -> int)
    requires i < |s|
    ensures SumBy(s[..i] + s[i + 1..], f) == SumBy(s, f) - f(s[i])
  {
    SumBySplit(s, i, f);
    SumByConcat(s[..i], s[i + 1..], f);
  }

  // ---------------------------------------------------------------- strings

  predicate IsDigit(c: char) { '0' <= c <= '9' }

  /** The characters JavaScript's `trim` and the regular-expression class
      `\s` treat as white space, restricted to the ASCII and Latin-1 ones
      plus the byte-order mark. */
  predicate IsWhitespace(c: char)
  {
    c == ' ' || c == '\t' || c == '\n' || c == '\r' || c == '\U{000B}' || c == '\U{000C}'
    || c == '\U{00A0}' || c == '\U{FEFF}'
  }

  function TrimStart(s: string): (r: string)
    ensures |r| <= |s| && r == s[|s| - |r|..]
    ensures forall i :: 0 <= i < |s| - |r| ==> IsWhitespace(s[i])
    ensures r != [] ==> !IsWhitespace(r[0])
  {
    if s != [] && IsWhitespace(s[0]) then TrimStart(s[1..]) else s
  }

  function TrimEnd(s: string): (r: string)
    ensures |r| <= |s| && r == s[..|r|]
    ensures forall i :: |r| <= i < |s| ==> IsWhitespace(s[i])
    ensures r != [] ==> !IsWhitespace(r[|r| - 1])
  {
    if s != [] && IsWhitespace(s[|s| - 1]) then TrimEnd(s[..|s| - 1]) else s
  }

  /** `String.prototype.trim`. */
  function Trim(s: string): (r: string)
    ensures r != [] ==> !IsWhitespace(r[0]) && !IsWhitespace(r[|r| - 1])
    ensures |r| <= |s|
  {
    TrimEnd(TrimStart(s))
  }

  /** A string without white space at either end is its own trim. */
  lemma TrimNoWhitespace(s: string)
    requires s != [] ==> !IsWhitespace(s[0]) && !IsWhitespace(s[|s| - 1])
    ensures Trim(s) == s
  {
  }

  function LowerChar(c: char): char
  {
    if 'A' <= c <= 'Z' then (c as int + 32) as char else c
  }

  /** `toLowerCase`, on the ASCII letters. */
  function Lower(s: string): (r: string)
    ensures |r| == |s|
    ensures forall i :: 0 <= i < |s| ==> r[i] == LowerChar(s[i])
  {
    if s == [] then [] else [LowerChar(s[0])] + Lower(s[1..])
  }

  predicate IsPrefix(n: string, h: string)
  {
    |n| <= |h| && h[..|n|] == n
  }

  /** `h.includes(n)`: `n` occurs in `h` at some position. */
  predicate Contains(h: string, n: string)
  {
    IsPrefix(n, h) || (h != [] && Contains(h[1..], n))
  }

  /** The needle `n` starts at position `k` of `h`. */
  predicate OccursAt(h: string, n: string, k: int)
  {
    0 <= k <= |h| - |n| && h[k..k + |n|] == n
  }

  /** A match past the first position of `h` is a match in its tail. */
  lemma OccursShift(h: string, n: string, k: int)
    requires h != [] && k > 0
    ensures OccursAt(h, n, k) <==> OccursAt(h[1..], n, k - 1)
  {
    if 0 < k <= |h| - |n| {
      assert h[k..k + |n|] == h[1..][k - 1..k - 1 + |n|];
    }
  }

  /** `includes` agrees with "there is a position where the needle starts". */
  lemma {:induction false} ContainsAt(h: string, n: string)
    ensures Contains(h, n) <==> exists k :: OccursAt(h, n, k)
  {
    if h == [] {
      if Contains(h, n) {
        assert OccursAt(h, n, 0);
      }
    } else {
      ContainsAt(h[1..], n);
      if IsPrefix(n, h) {
        assert OccursAt(h, n, 0);
      } else if Contains(h, n) {
        var k :| OccursAt(h[1..], n, k);
        OccursShift(h, n, k + 1);
      } else {
        forall k | OccursAt(h, n, k)
          ensures false
        {
          if k > 0 {
            OccursShift(h, n, k);
          }
        }
      }
    }
  }

  function DigitChar(d: nat): (c: char)
    requires d < 10
    ensures IsDigit(c)
  {
    ('0' as int + d) as char
  }

  /** Decimal rendering of a natural number, as `String(n)` gives it. */
  function NatToString(n: nat): (r: string)
    ensures r != [] && forall i :: 0 <= i < |r| ==> IsDigit(r[i])
  {
    if n < 10 then [DigitChar(n)] else NatToString(n / 10) + [DigitChar(n % 10)]
  }
}
