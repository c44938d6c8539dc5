/**
 * The part of a pandas table that both attribution formatters build and sort:
 * one row per feature with its display value and its ranking magnitude.
 * `SortByMagnitude` stands for `sort_values(by="absolute_values", ascending=False)`;
 * pandas' default sort is not stable, so its contract promises only what pandas
 * promises: the rows come out ordered and nothing is lost or added.
 */
module Frame {
  import opened Wrappers

  /** One row of the table before colouring: features, shap_values, absolute_values. */
  datatype Row = Row(feature: string, value: real, magnitude: real)

  /** Non-increasing in magnitude, the order `ascending=False` produces. */
  predicate SortedByMagnitude(s: seq<Row>)
  {
    forall i, j :: 0 <= i < j < |s| ==> s[i].magnitude >= s[j].magnitude
  }

  /** `ranked` is one of the outcomes a descending sort of `input` may have. */
  predicate IsRanking(ranked: seq<Row>, input: seq<Row>)
  {
    SortedByMagnitude(ranked) && multiset(ranked) == multiset(input)
  }

  /** `head(k)`: the first k rows, or all of them when there are fewer. */
  function Head<T>(s: seq<T>, k: nat): (r: seq<T>)
    ensures |r| == Min(k, |s|)
    ensures forall i :: 0 <= i < |r| ==> r[i] == s[i]
  {
    if |s| <= k then s else s[..k]
  }

  function Abs(x: real): real
  {
    if x < 0.0 then -x else x
  }

  /** `[::-1]`. */
  function Reverse<T>(s: seq<T>): (r: seq<T>)
    ensures |r| == |s|
    ensures forall i :: 0 <= i < |s| ==> r[i] == s[|s| - 1 - i]
  {
    if s == [] then [] else Reverse(s[1..]) + [s[0]]
  }

  function Magnitudes(s: seq<Row>): seq<real>
  {
    if s == [] then [] else [s[0].magnitude] + Magnitudes(s[1..])
  }

  lemma {:induction false} MagnitudesAt(s: seq<Row>)
    ensures |Magnitudes(s)| == |s|
    ensures forall i :: 0 <= i < |s| ==> Magnitudes(s)[i] == s[i].magnitude
  {
    if s != [] {
      MagnitudesAt(s[1..]);
    }
  }

  /** The table sorted in place by descending magnitude (an insertion sort stands for pandas' sort). */
  method SortByMagnitude(a: array<Row>)
    modifies a
    ensures IsRanking(a[..], old(a[..]))
  {
    if a.Length == 0 { return; }
    var i := 1;
    while i < a.Length
      invariant 1 <= i <= a.Length
      invariant SortedByMagnitude(a[..i])
      invariant multiset(a[..]) == multiset(old(a[..]))
    {
      InsertLast(a, i);
      i := i + 1;
    }
    assert a[..a.Length] == a[..];
  }

  /** Moves a[i] left past every smaller neighbour, so that a[..i+1] is sorted. */
  method InsertLast(a: array<Row>, i: nat)
    requires i < a.Length
    requires SortedByMagnitude(a[..i])
    modifies a
    ensures SortedByMagnitude(a[..i + 1])
    ensures multiset(a[..]) == multiset(old(a[..]))
    ensures a[i + 1..] == old(a[i + 1..])
  {
    var j := i;
    StartInsertion(a[..], i);
    while j > 0 && a[j - 1].magnitude < a[j].magnitude
      invariant 0 <= j <= i
      invariant SortedExcept(a[..], i, j)
      invariant multiset(a[..]) == multiset(old(a[..]))
      invariant a[i + 1..] == old(a[i + 1..])
    {
      SwapStep(a[..], i, j);
      a[j - 1], a[j] := a[j], a[j - 1];
      j := j - 1;
    }
    SettledIsSorted(a[..], i, j);
  }

  /** s[..i+1] is in order except possibly between the moving row s[j] and the rows before it. */
  predicate SortedExcept(s: seq<Row>, i: nat, j: nat)
  {
    forall p, q :: 0 <= p < q <= i && q < |s| && q != j ==> s[p].magnitude >= s[q].magnitude
  }

  lemma StartInsertion(s: seq<Row>, i: nat)
    requires i < |s| && SortedByMagnitude(s[..i])
    ensures SortedExcept(s, i, i)
  {
    forall p, q | 0 <= p < q <= i && q < |s| && q != i ensures s[p].magnitude >= s[q].magnitude {
      assert s[..i][p] == s[p] && s[..i][q] == s[q];
    }
  }

  lemma SwapStep(s: seq<Row>, i: nat, j: nat)
    requires 0 < j <= i < |s| && SortedExcept(s, i, j) && s[j - 1].magnitude < s[j].magnitude
    ensures SortedExcept(s[j - 1 := s[j]][j := s[j - 1]], i, j - 1)
    ensures multiset(s[j - 1 := s[j]][j := s[j - 1]]) == multiset(s)
  {
    SwapPermutes(s, j - 1, j);
  }

  lemma SettledIsSorted(s: seq<Row>, i: nat, j: nat)
    requires j <= i < |s| && SortedExcept(s, i, j)
    requires j == 0 || s[j - 1].magnitude >= s[j].magnitude
    ensures SortedByMagnitude(s[..i + 1])
  {
    forall p, q | 0 <= p < q < i + 1 ensures s[p].magnitude >= s[q].magnitude {
      if q == j && p < j - 1 {
        assert s[p].magnitude >= s[j - 1].magnitude;
      }
    }
  }

  lemma SwapPermutes(s: seq<Row>, i: nat, j: nat)
    requires i < j < |s|
    ensures multiset(s[i := s[j]][j := s[i]]) == multiset(s)
  {
    var t := s[i := s[j]][j := s[i]];
    assert s == s[..i] + [s[i]] + s[i + 1..j] + [s[j]] + s[j + 1..];
    assert t == s[..i] + [s[j]] + s[i + 1..j] + [s[i]] + s[j + 1..];
  }

  /** Mapping rows to their magnitudes keeps two permutations permutations. */
  lemma {:induction false} MagnitudesPermute(s: seq<Row>, t: seq<Row>)
    requires multiset(s) == multiset(t)
    ensures multiset(Magnitudes(s)) == multiset(Magnitudes(t))
    decreases |s|
  {
    if s == [] {
      assert t == [] by { assert |multiset(t)| == 0; }
    } else {
      assert s[0] in multiset(t);
      var j :| 0 <= j < |t| && t[j] == s[0];
      var a, b := t[..j], t[j + 1..];
      assert t == a + [t[j]] + b;
      assert s == [s[0]] + s[1..];
      assert multiset(t) == multiset([s[0]] + (a + b));
      ConsCancel(s[0], s[1..], a + b);
      MagnitudesPermute(s[1..], a + b);
      MagnitudesAround(a, t[j], b);
    }
  }

  /** Taking one row out of the middle moves its magnitude to the front, up to order. */
  lemma MagnitudesAround(a: seq<Row>, x: Row, b: seq<Row>)
    ensures multiset(Magnitudes(a + [x] + b)) == multiset([x.magnitude] + Magnitudes(a + b))
  {
    MagnitudesConcat(a + [x], b);
    MagnitudesConcat(a, [x]);
    MagnitudesConcat(a, b);
    assert Magnitudes([x]) == [x.magnitude];
  }

  lemma {:induction false} MagnitudesConcat(s: seq<Row>, t: seq<Row>)
    ensures Magnitudes(s + t) == Magnitudes(s) + Magnitudes(t)
  {
    if s != [] {
      assert (s + t)[1..] == s[1..] + t;
      MagnitudesConcat(s[1..], t);
    } else {
      assert s + t == t;
    }
  }

  lemma ConsCancel<T>(a: T, r: seq<T>, r': seq<T>)
    requires multiset([a] + r) == multiset([a] + r')
    ensures multiset(r) == multiset(r')
  {
    assert multiset([a] + r) == multiset([a]) + multiset(r);
    assert multiset([a] + r') == multiset([a]) + multiset(r');
    forall e ensures multiset(r)[e] == multiset(r')[e] {
      assert (multiset([a]) + multiset(r))[e] == multiset([a])[e] + multiset(r)[e];
      assert (multiset([a]) + multiset(r'))[e] == multiset([a])[e] + multiset(r')[e];
    }
  }

  /** Two non-increasing sequences of reals with the same elements are equal. */
  lemma {:induction false} SortedPermutationsEqual(x: seq<real>, y: seq<real>)
    requires forall i, j :: 0 <= i < j < |x| ==> x[i] >= x[j]
    requires forall i, j :: 0 <= i < j < |y| ==> y[i] >= y[j]
    requires multiset(x) == multiset(y)
    ensures x == y
    decreases |x|
  {
    if x != [] {
      assert |y| == |x| by { assert |multiset(y)| == |multiset(x)|; }
      assert x[0] in multiset(y);
      var k :| 0 <= k < |y| && y[k] == x[0];
      assert y[0] in multiset(x);
      var l :| 0 <= l < |x| && x[l] == y[0];
      assert x[0] == y[0];
      assert x == [x[0]] + x[1..];
      assert y == [y[0]] + y[1..];
      ConsCancel(x[0], x[1..], y[1..]);
      SortedPermutationsEqual(x[1..], y[1..]);
    }
  }

  /**
   * Whatever order the sort leaves ties in, every position holds the same
   * magnitude: two rankings of one table differ only by reordering equal magnitudes.
   */
  lemma RankingsAgreeOnMagnitudes(s: seq<Row>, t: seq<Row>, input: seq<Row>)
    requires IsRanking(s, input) && IsRanking(t, input)
    ensures |s| == |t| == |input|
    ensures forall i :: 0 <= i < |s| ==> s[i].magnitude == t[i].magnitude
  {
    assert |s| == |input| by { assert |multiset(s)| == |multiset(input)|; }
    assert |t| == |input| by { assert |multiset(t)| == |multiset(input)|; }
    MagnitudesPermute(s, t);
    MagnitudesAt(s);
    MagnitudesAt(t);
    SortedPermutationsEqual(Magnitudes(s), Magnitudes(t));
  }

  /**
   * `kept` are rows of `input` (with multiplicity) and no row of `input` left
   * out of `kept` has a larger magnitude than a row in it.
   */
  predicate IsTopOf(kept: seq<Row>, input: seq<Row>)
  {
    && multiset(kept) <= multiset(input)
    && forall x, i | x in multiset(input) - multiset(kept) && 0 <= i < |kept| :: x.magnitude <= kept[i].magnitude
  }

  /** The head of a ranking holds the k largest magnitudes of the ranked table. */
  lemma HeadIsTopK(ranked: seq<Row>, input: seq<Row>, k: nat)
    requires IsRanking(ranked, input)
    ensures IsTopOf(Head(ranked, k), input)
  {
    var m := Min(k, |ranked|);
    var kept := Head(ranked, k);
    assert ranked == kept + ranked[m..];
    assert multiset(ranked) == multiset(kept) + multiset(ranked[m..]);
    forall x, i | x in multiset(input) - multiset(kept) && 0 <= i < |kept|
      ensures x.magnitude <= kept[i].magnitude
    {
      assert x in multiset(ranked[m..]);
      var p :| 0 <= p < |ranked[m..]| && ranked[m..][p] == x;
      assert ranked[m + p] == x;
    }
  }
}
