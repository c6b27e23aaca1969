/**
 * Go's ordering of strings and `sort.Strings`.
 *
 * Go compares strings byte by byte and a proper prefix sorts first. Strings here are
 * sequences of Unicode scalar values; for well-formed UTF-8 comparing code points
 * gives the same order as comparing the encoded bytes.
 */
module StringSort {

  /** `a <= b` in Go's string order. */
  predicate LessEq(a: string, b: string)
  {
    |a| == 0 || (|b| > 0 && (a[0] < b[0] || (a[0] == b[0] && LessEq(a[1..], b[1..]))))
  }

  lemma {:induction false} LessEqReflexive(a: string)
    ensures LessEq(a, a)
  {
    if |a| > 0 { LessEqReflexive(a[1..]); }
  }

  lemma {:induction false} LessEqTotal(a: string, b: string)
    ensures LessEq(a, b) || LessEq(b, a)
  {
    if |a| > 0 && |b| > 0 && a[0] == b[0] { LessEqTotal(a[1..], b[1..]); }
  }

  lemma {:induction false} LessEqAntisymmetric(a: string, b: string)
    requires LessEq(a, b) && LessEq(b, a)
    ensures a == b
  {
    if |a| > 0 && |b| > 0 {
      LessEqAntisymmetric(a[1..], b[1..]);
      assert a == [a[0]] + a[1..] && b == [b[0]] + b[1..];
    }
  }

  lemma {:induction false} LessEqTransitive(a: string, b: string, c: string)
    requires LessEq(a, b) && LessEq(b, c)
    ensures LessEq(a, c)
  {
    if |a| > 0 && |b| > 0 && |c| > 0 && a[0] == b[0] == c[0] {
      LessEqTransitive(a[1..], b[1..], c[1..]);
    }
  }

  /** Every element is at most each element after it. */
  predicate Sorted(s: seq<string>)
  {
    forall i, j :: 0 <= i < j < |s| ==> LessEq(s[i], s[j])
  }

  /** `x` is at most every element of `s`. */
  predicate AtMostAll(x: string, s: seq<string>)
  {
    forall j :: 0 <= j < |s| ==> LessEq(x, s[j])
  }

  lemma SortedCons(x: string, s: seq<string>)
    requires Sorted(s) && AtMostAll(x, s)
    ensures Sorted([x] + s)
  {
    var t := [x] + s;
    forall i, j | 0 <= i < j < |t| ensures LessEq(t[i], t[j]) {
      if i > 0 { assert t[i] == s[i - 1] && t[j] == s[j - 1]; }
      else { assert t[j] == s[j - 1]; }
    }
  }

  /** Inserts `x` into the sorted `s` before the first element it does not exceed. */
  function Insert(x: string, s: seq<string>): (r: seq<string>)
    requires Sorted(s)
    ensures Sorted(r)
    ensures multiset(r) == multiset(s) + multiset{x}
  {
    if s == [] then [x]
    else if LessEq(x, s[0]) then
      assert AtMostAll(x, s) by {
        forall j | 0 <= j < |s| ensures LessEq(x, s[j]) {
          if j > 0 { LessEqTransitive(x, s[0], s[j]); }
        }
      }
      SortedCons(x, s);
      [x] + s
    else
      var t := Insert(x, s[1..]);
      assert s == [s[0]] + s[1..];
      assert AtMostAll(s[0], t) by {
        forall j | 0 <= j < |t| ensures LessEq(s[0], t[j]) {
          assert t[j] in multiset(t);
          if t[j] == x {
            LessEqTotal(x, s[0]);
          } else {
            assert t[j] in multiset(s[1..]);
            var k :| 0 <= k < |s[1..]| && s[1..][k] == t[j];
            assert s[k + 1] == t[j];
          }
        }
      }
      SortedCons(s[0], t);
      [s[0]] + t
  }

  /**
   * `sort.Strings`: the same strings, in ascending order. Go sorts the slice in place with
   * its own algorithm; since a sorted arrangement of given strings is unique
   * (SortedPermutationUnique), any correct sort gives this result.
   */
  function SortStrings(s: seq<string>): (r: seq<string>)
    ensures Sorted(r)
    ensures multiset(r) == multiset(s)
  {
    if s == [] then []
    else
      assert s == [s[0]] + s[1..];
      Insert(s[0], SortStrings(s[1..]))
  }

  /** The head of a sorted list is at most every string in it. */
  lemma SortedHeadIsLeast(a: seq<string>, x: string)
    requires Sorted(a) && x in a
    ensures LessEq(a[0], x)
  {
    var i :| 0 <= i < |a| && a[i] == x;
    if i == 0 { LessEqReflexive(x); }
  }

  /** Removing equal heads from equal multisets leaves equal multisets. */
  lemma TailsSameMultiset(a: seq<string>, b: seq<string>)
    requires a != [] && b != [] && a[0] == b[0] && multiset(a) == multiset(b)
    ensures multiset(a[1..]) == multiset(b[1..])
  {
    assert a == [a[0]] + a[1..] && b == [b[0]] + b[1..];
    assert multiset(a[1..]) == multiset(a) - multiset{a[0]};
    assert multiset(b[1..]) == multiset(b) - multiset{b[0]};
  }

  /** Two sorted arrangements of the same strings are equal. */
  lemma {:induction false} SortedPermutationUnique(a: seq<string>, b: seq<string>)
    requires Sorted(a) && Sorted(b)
    requires multiset(a) == multiset(b)
    ensures a == b
  {
    if a == [] {
      assert |multiset(b)| == 0;
    } else {
      assert |multiset(b)| == |multiset(a)| > 0;
      assert a[0] in multiset(b) && b[0] in multiset(a);
      SortedHeadIsLeast(b, a[0]);
      SortedHeadIsLeast(a, b[0]);
      LessEqAntisymmetric(a[0], b[0]);
      TailsSameMultiset(a, b);
      SortedPermutationUnique(a[1..], b[1..]);
      assert a == [a[0]] + a[1..] && b == [b[0]] + b[1..];
    }
  }

  /** Sorting returns the unique sorted arrangement of its input. */
  lemma SortStringsIsTheSortedPermutation(s: seq<string>, t: seq<string>)
    requires Sorted(t) && multiset(t) == multiset(s)
    ensures SortStrings(s) == t
  {
    SortedPermutationUnique(SortStrings(s), t);
  }

  /** Sorting an already sorted list changes nothing. */
  lemma SortStringsIdempotent(s: seq<string>)
    ensures SortStrings(SortStrings(s)) == SortStrings(s)
  {
    SortStringsIsTheSortedPermutation(SortStrings(s), SortStrings(s));
  }

  /** Sorting ["zeta", "alpha", "mu"] gives ["alpha", "mu", "zeta"]. */
  lemma SortStringsExample()
    ensures SortStrings(["zeta", "alpha", "mu"]) == ["alpha", "mu", "zeta"]
  {
    var s, t := ["zeta", "alpha", "mu"], ["alpha", "mu", "zeta"];
    assert LessEq("alpha", "mu") && LessEq("mu", "zeta");
    LessEqTransitive("alpha", "mu", "zeta");
    assert Sorted(t);
    assert multiset(s) == multiset{"zeta", "alpha", "mu"};
    assert multiset(t) == multiset{"alpha", "mu", "zeta"};
    assert multiset(t) == multiset(s);
    SortStringsIsTheSortedPermutation(s, t);
  }
}
