/** Feedstock accounting over the tanks connected to a Replimat terminal.

    The stocks of the connected tanks are a sequence of reals (one entry per
    tank, in the order the power network lists them). The terminal's drain
    loop visits the tanks in a shuffled order; `DrawInOrder` is the reference
    definition of what that loop does to the stocks, and the lemmas below
    state what the terminal relies on: the total drops by exactly the amount
    asked for, no tank gains and no tank goes below zero. */
module Feedstock {

  /** Sum of the stored feedstock of all tanks (the LINQ `Sum` over the tank list). */
  function Sum(s: seq<real>): real
  {
    if |s| == 0 then 0.0 else s[0] + Sum(s[1..])
  }

  /** A feed tank never stores a negative amount. */
  predicate NonNegative(s: seq<real>)
  {
    forall i :: 0 <= i < |s| ==> s[i] >= 0.0
  }

  /** Every entry of `order` indexes a tank, and none is listed twice. */
  predicate DistinctIndices(order: seq<nat>, n: nat)
  {
    && (forall k :: 0 <= k < |order| ==> order[k] < n)
    && (forall k, l :: 0 <= k < l < |order| ==> order[k] != order[l])
  }

  /** `order` lists every tank index below `n` exactly once: a shuffle of the tank list. */
  predicate IsPermutation(order: seq<nat>, n: nat)
  {
    && |order| == n
    && DistinctIndices(order, n)
    && (forall t :: 0 <= t < n ==> t in order)
  }

  /** `Math.Min` on feedstock amounts. */
  function Min(a: real, b: real): (m: real)
    ensures m <= a && m <= b
    ensures m == a || m == b
  {
    if a <= b then a else b
  }

  /** What the drain loop actually takes out of the tanks when enough is stored:
      a request of zero or less stops the loop before its first draw. */
  function DrawTarget(need: real): (d: real)
    ensures d >= 0.0
    ensures d >= need
    ensures d == need || d == 0.0
  {
    if need > 0.0 then need else 0.0
  }

  /** The drain loop: visit the tanks in `order`; while some feedstock is left to
      consume, draw `Min(left, stock)` from the current tank. */
  function DrawInOrder(stocks: seq<real>, order: seq<nat>, left: real): (r: seq<real>)
    requires forall k :: 0 <= k < |order| ==> order[k] < |stocks|
    ensures |r| == |stocks|
    decreases |order|
  {
    if |order| == 0 || left <= 0.0 then stocks
    else
      var j := order[0];
      var num := Min(left, stocks[j]);
      DrawInOrder(stocks[j := stocks[j] - num], order[1..], left - num)
  }

  /** Overwriting one tank's stock changes the total by the difference. */
  lemma {:induction false} SumUpdate(s: seq<real>, j: nat, v: real)
    requires j < |s|
    ensures Sum(s[j := v]) == Sum(s) - s[j] + v
  {
    if j > 0 {
      assert s[j := v][1..] == s[1..][j - 1 := v];
      SumUpdate(s[1..], j - 1, v);
    }
  }

  /** Empty tanks hold nothing in total. */
  lemma {:induction false} SumAllEmpty(s: seq<real>)
    requires forall i :: 0 <= i < |s| ==> s[i] == 0.0
    ensures Sum(s) == 0.0
  {
    if |s| > 0 {
      SumAllEmpty(s[1..]);
    }
  }

  /** The total of non-negative stocks is non-negative. */
  lemma {:induction false} SumNonNegative(s: seq<real>)
    requires NonNegative(s)
    ensures Sum(s) >= 0.0
  {
    if |s| > 0 {
      SumNonNegative(s[1..]);
    }
  }

  /** No draw makes a tank gain or go negative, and a tank the order does not
      visit keeps its stock. */
  lemma {:induction false} DrawBounds(s: seq<real>, order: seq<nat>, left: real)
    requires NonNegative(s)
    requires forall k :: 0 <= k < |order| ==> order[k] < |s|
    ensures |DrawInOrder(s, order, left)| == |s|
    ensures forall i :: 0 <= i < |s| ==> 0.0 <= DrawInOrder(s, order, left)[i] <= s[i]
    ensures forall i :: 0 <= i < |s| && i !in order ==> DrawInOrder(s, order, left)[i] == s[i]
    decreases |order|
  {
    if |order| > 0 && left > 0.0 {
      var j := order[0];
      var num := Min(left, s[j]);
      var s' := s[j := s[j] - num];
      DrawBounds(s', order[1..], left - num);
      forall i | 0 <= i < |s| && i !in order
        ensures DrawInOrder(s, order, left)[i] == s[i]
      {
        assert i !in order[1..];
      }
    }
  }

  /** How much one pass takes: never more than the positive part of the request,
      and exactly that much unless every visited tank has been emptied. */
  lemma {:induction false} DrawAmount(s: seq<real>, order: seq<nat>, left: real)
    requires NonNegative(s)
    requires DistinctIndices(order, |s|)
    ensures Sum(s) - Sum(DrawInOrder(s, order, left)) <= DrawTarget(left)
    ensures || Sum(s) - Sum(DrawInOrder(s, order, left)) == DrawTarget(left)
            || forall k :: 0 <= k < |order| ==> DrawInOrder(s, order, left)[order[k]] == 0.0
    decreases |order|
  {
    if |order| > 0 && left > 0.0 {
      var j := order[0];
      var num := Min(left, s[j]);
      var s' := s[j := s[j] - num];
      var r := DrawInOrder(s, order, left);
      assert r == DrawInOrder(s', order[1..], left - num);
      SumUpdate(s, j, s[j] - num);
      DrawAmount(s', order[1..], left - num);
      DrawBounds(s', order[1..], left - num);
      assert j !in order[1..] by {
        forall k | 0 <= k < |order[1..]| ensures order[1..][k] != j {
          assert order[1..][k] == order[k + 1];
        }
      }
      assert r[j] == s'[j];
      if Sum(s) - Sum(r) != DrawTarget(left) {
        // The rest of the pass fell short, so it had something left to take:
        // the current tank gave all it had.
        assert left - num > 0.0;
        assert num == s[j];
        forall k | 0 <= k < |order| ensures r[order[k]] == 0.0 {
          if k > 0 {
            assert order[1..][k - 1] == order[k];
          }
        }
      }
    }
  }

  /** When the tanks hold at least the request and the order visits every tank,
      the pass takes exactly the request (its positive part), whatever the order. */
  lemma {:induction false} DrawExact(s: seq<real>, order: seq<nat>, need: real)
    requires NonNegative(s)
    requires IsPermutation(order, |s|)
    requires Sum(s) >= need
    ensures Sum(DrawInOrder(s, order, need)) == Sum(s) - DrawTarget(need)
  {
    var r := DrawInOrder(s, order, need);
    DrawAmount(s, order, need);
    DrawBounds(s, order, need);
    if Sum(s) - Sum(r) != DrawTarget(need) {
      forall i | 0 <= i < |r| ensures r[i] == 0.0 {
        assert i in order;
        var k :| 0 <= k < |order| && order[k] == i;
      }
      SumAllEmpty(r);
      SumNonNegative(s);
      assert false;
    }
  }

  /** The two-tank case: stocks 1.0 and 4.0, a draw of 2.0 leaves 3.0 in total
      whichever tank is visited first. */
  lemma TwoTankDraw(order: seq<nat>)
    requires IsPermutation(order, 2)
    ensures Sum(DrawInOrder([1.0, 4.0], order, 2.0)) == 3.0
  {
    DrawExact([1.0, 4.0], order, 2.0);
  }
}
