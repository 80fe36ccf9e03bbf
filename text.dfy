/**
 * String operations the view-models rely on: case mapping, substring search and
 * case-insensitive ordering. Swift's Unicode-aware `lowercased()`, `uppercased()`
 * and `localizedCaseInsensitiveCompare` are modelled on ASCII letters only.
 */
module Text {

  function LowerChar(c: char): (r: char)
    ensures 'A' <= c <= 'Z' ==> r as int == c as int + 32
    ensures !('A' <= c <= 'Z') ==> r == c
    ensures !('A' <= r <= 'Z')
  {
    if 'A' <= c <= 'Z' then (c as int + 32) as char else c
  }

  function UpperChar(c: char): (r: char)
    ensures 'a' <= c <= 'z' ==> r as int == c as int - 32
    ensures !('a' <= c <= 'z') ==> r == c
    ensures !('a' <= r <= 'z')
  {
    if 'a' <= c <= 'z' then (c as int - 32) as char else c
  }

  /** `String.lowercased()`. */
  function Lower(s: string): (r: string)
    ensures |r| == |s|
    ensures forall i :: 0 <= i < |s| ==> r[i] == LowerChar(s[i])
  {
    if s == [] then [] else [LowerChar(s[0])] + Lower(s[1..])
  }

  /** `String.uppercased()`. */
  function Upper(s: string): (r: string)
    ensures |r| == |s|
    ensures forall i :: 0 <= i < |s| ==> r[i] == UpperChar(s[i])
  {
    if s == [] then [] else [UpperChar(s[0])] + Upper(s[1..])
  }

  predicate IsPrefix(p: string, s: string)
  {
    |p| <= |s| && s[..|p|] == p
  }

  /**
   * `String.contains(_:)` for a string argument: `q` occurs in `s` at some offset.
   * The empty string occurs everywhere, and an occurrence never outruns `s`.
   */
  predicate Contains(s: string, q: string): (b: bool)
    ensures q == [] ==> b
    ensures b ==> |q| <= |s|
    ensures |q| == |s| ==> (b <==> q == s)
    decreases |s|
  {
    IsPrefix(q, s) || (s != [] && Contains(s[1..], q))
  }

  /** `q` occurs in `s` starting at offset `k`. */
  predicate OccursAt(s: string, q: string, k: int)
  {
    0 <= k && k + |q| <= |s| && s[k..k + |q|] == q
  }

  /** `Contains(s, q)` holds exactly when `q` occurs in `s` at some offset. */
  lemma {:induction false} ContainsAt(s: string, q: string)
    ensures Contains(s, q) <==> exists k :: OccursAt(s, q, k)
    decreases |s|
  {
    if IsPrefix(q, s) {
      assert OccursAt(s, q, 0);
    } else if s != [] {
      ContainsAt(s[1..], q);
      if Contains(s[1..], q) {
        var k :| OccursAt(s[1..], q, k);
        assert s[k + 1..k + 1 + |q|] == s[1..][k..k + |q|];
        assert OccursAt(s, q, k + 1);
      }
      if exists k :: OccursAt(s, q, k) {
        var k :| OccursAt(s, q, k);
        assert k != 0;
        assert s[1..][k - 1..k - 1 + |q|] == s[k..k + |q|];
        assert OccursAt(s[1..], q, k - 1);
      }
    }
  }

  /** Lexicographic order on code points: the empty string comes first. */
  predicate LexLessEq(a: string, b: string)
  {
    a == [] || (b != [] && (a[0] < b[0] || (a[0] == b[0] && LexLessEq(a[1..], b[1..]))))
  }

  lemma {:induction false} LexTotal(a: string, b: string)
    ensures LexLessEq(a, b) || LexLessEq(b, a)
  {
    if a != [] && b != [] && a[0] == b[0] {
      LexTotal(a[1..], b[1..]);
    }
  }

  lemma {:induction false} LexTransitive(a: string, b: string, c: string)
    requires LexLessEq(a, b) && LexLessEq(b, c)
    ensures LexLessEq(a, c)
  {
    if a != [] && b != [] && c != [] && a[0] == b[0] && b[0] == c[0] {
      LexTransitive(a[1..], b[1..], c[1..]);
    }
  }

  /** `localizedCaseInsensitiveCompare(b) != .orderedDescending`: `a` may come before `b`. */
  predicate CaseInsensitiveLessEq(a: string, b: string)
  {
    LexLessEq(Lower(a), Lower(b))
  }

  /** Every element is case-insensitively at most its successor. */
  predicate Sorted(s: seq<string>)
  {
    forall i :: 0 <= i < |s| - 1 ==> CaseInsensitiveLessEq(s[i], s[i + 1])
  }

  /** Inserts `x` before the first element it may precede (after any equal ones it follows). */
  function Insert(x: string, ys: seq<string>): (r: seq<string>)
    requires Sorted(ys)
    ensures Sorted(r)
    ensures multiset(r) == multiset(ys) + multiset{x}
    ensures r[0] == x || (ys != [] && r[0] == ys[0])
  {
    if ys == [] || CaseInsensitiveLessEq(x, ys[0]) then [x] + ys
    else
      LexTotal(Lower(x), Lower(ys[0]));
      var rest := Insert(x, ys[1..]);
      assert ys == [ys[0]] + ys[1..];
      [ys[0]] + rest
  }

  /**
   * `tags.sorted { $0.localizedCaseInsensitiveCompare($1) == .orderedAscending }`:
   * an insertion sort by the case-folded strings, stable on ties as Swift's sort is.
   */
  function SortCaseInsensitive(xs: seq<string>): (r: seq<string>)
    ensures Sorted(r)
    ensures multiset(r) == multiset(xs)
    ensures |r| == |xs|
  {
    if xs == [] then []
    else
      assert xs == [xs[0]] + xs[1..];
      Insert(xs[0], SortCaseInsensitive(xs[1..]))
  }

  /** Adjacent order extends to every pair, by transitivity. */
  lemma {:induction false} SortedPairwise(s: seq<string>, i: int, j: int)
    requires Sorted(s)
    requires 0 <= i < j < |s|
    ensures CaseInsensitiveLessEq(s[i], s[j])
    decreases j - i
  {
    if i + 1 < j {
      SortedPairwise(s, i + 1, j);
      LexTransitive(Lower(s[i]), Lower(s[i + 1]), Lower(s[j]));
    }
  }
}
