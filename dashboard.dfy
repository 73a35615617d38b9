/** What the Tasks and Projects pages share: `Array.prototype.filter` for the status
    buckets, the rounded percentage on each progress ring, and the priority colour. */
module Dashboard {
  import opened Js
  import opened Fallback

  // ---------------------------------------------------------------- filter

  /** `xs.filter(p)` */
  function Filter<T>(xs: seq<T>, p: T -> bool): (r: seq<T>)
    ensures |r| <= |xs|
    ensures forall k :: 0 <= k < |r| ==> p(r[k])
  {
    if xs == [] then []
    else Filter(xs[..|xs| - 1], p) + (if p(xs[|xs| - 1]) then [xs[|xs| - 1]] else [])
  }

  /** The positions `filter` keeps, in increasing order. */
  function Kept<T>(xs: seq<T>, p: T -> bool): seq<nat> {
    if xs == [] then []
    else Kept(xs[..|xs| - 1], p) + (if p(xs[|xs| - 1]) then [|xs| - 1] else [])
  }

  predicate Increasing(idx: seq<nat>) {
    forall k, l :: 0 <= k < l < |idx| ==> idx[k] < idx[l]
  }

  /** A filtered list is an order-preserving subsequence of its input: it is the
      elements at the kept positions, those positions increase, and a position is
      kept exactly when its element satisfies the predicate. */
  lemma {:induction false} FilterIsSubsequence<T>(xs: seq<T>, p: T -> bool)
    ensures |Kept(xs, p)| == |Filter(xs, p)|
    ensures Increasing(Kept(xs, p))
    ensures forall k :: 0 <= k < |Kept(xs, p)| ==>
      Kept(xs, p)[k] < |xs| && Filter(xs, p)[k] == xs[Kept(xs, p)[k]]
    ensures forall i :: 0 <= i < |xs| ==> (p(xs[i]) <==> i in Kept(xs, p))
  {
    if xs != [] {
      var init := xs[..|xs| - 1];
      FilterIsSubsequence(init, p);
      forall i | 0 <= i < |init|
        ensures xs[i] == init[i]
      {
      }
    }
  }

  /** `filter` keeps exactly the elements that satisfy the predicate. */
  lemma {:induction false} FilterMembers<T>(xs: seq<T>, p: T -> bool)
    ensures forall k :: 0 <= k < |Filter(xs, p)| ==> Filter(xs, p)[k] in xs
    ensures forall i :: 0 <= i < |xs| && p(xs[i]) ==> xs[i] in Filter(xs, p)
  {
    if xs != [] {
      var init := xs[..|xs| - 1];
      FilterMembers(init, p);
      assert forall i :: 0 <= i < |init| ==> init[i] == xs[i];
    }
  }

  /** Two predicates that never hold together keep as many elements between them as
      their disjunction does. */
  lemma {:induction false} FilterDisjointUnion<T>(xs: seq<T>, p: T -> bool, q: T -> bool, either: T -> bool)
    requires forall x :: !(p(x) && q(x))
    requires forall x :: either(x) == (p(x) || q(x))
    ensures |Filter(xs, p)| + |Filter(xs, q)| == |Filter(xs, either)|
  {
    if xs != [] {
      FilterDisjointUnion(xs[..|xs| - 1], p, q, either);
    }
  }

  /** Nothing is dropped exactly when every element satisfies the predicate. */
  lemma {:induction false} FilterKeepsAll<T>(xs: seq<T>, p: T -> bool)
    ensures |Filter(xs, p)| == |xs| <==> forall i :: 0 <= i < |xs| ==> p(xs[i])
  {
    if xs != [] {
      var init := xs[..|xs| - 1];
      FilterKeepsAll(init, p);
      if |Filter(xs, p)| == |xs| {
        assert p(xs[|xs| - 1]);
        forall i | 0 <= i < |xs|
          ensures p(xs[i])
        {
          if i < |init| {
            assert xs[i] == init[i];
          }
        }
      } else if p(xs[|xs| - 1]) {
        var i :| 0 <= i < |init| && !p(init[i]);
        assert xs[i] == init[i];
      }
    }
  }

  // ---------------------------------------------------------------- percentages

  /** The label of a progress ring: `total > 0 ? Math.round((count / total) * 100) : 0`,
      with the rounding done exactly (halves round up, as `Math.round` does). */
  function Percent(count: nat, total: nat): (p: nat)
    ensures total == 0 ==> p == 0
    ensures total > 0 ==> 2 * total * p <= 200 * count + total < 2 * total * p + 2 * total
    ensures count <= total ==> p <= 100
  {
    if total == 0 then 0
    else
      RoundedPercent(count, total);
      (200 * count + total) / (2 * total)
  }

  lemma RoundedPercent(count: nat, total: nat)
    requires total > 0
    ensures var p := (200 * count + total) / (2 * total);
      2 * total * p <= 200 * count + total < 2 * total * p + 2 * total
      && (count <= total ==> p <= 100)
  {
    var x, d := 200 * count + total, 2 * total;
    var q := x / d;
    assert d * q + x % d == x;
    if count <= total {
      assert x < d * 101;
      MulLess(d, q, 101);
    }
  }

  lemma MulLess(t: nat, a: nat, b: nat)
    requires t > 0 && t * a < t * b
    ensures a < b
  {
    if a >= b {
      assert false;
    }
  }

  lemma Distribute(t: nat, x: nat, y: nat)
    ensures t * (x + y) == t * x + t * y
  {
  }

  lemma Regroup(t: nat, x: nat)
    ensures t * (2 * x) == 2 * t * x
  {
  }

  /** Cancelling a positive factor on both sides of `<=`. */
  lemma MulCancel(t: nat, a: nat, b: nat)
    requires t > 0 && t * a <= t * b
    ensures a <= b
  {
    if a > b {
      assert false;
    }
  }

  /** Rings over buckets that share no element add up to at most 100 plus the
      rounding: each label is at most half a point above its exact value, so three
      rings can show 101 in total and four rings 102. */
  lemma ThreePercents(a: nat, b: nat, c: nat, total: nat)
    requires total > 0 && a + b + c <= total
    ensures Percent(a, total) + Percent(b, total) + Percent(c, total) <= 101
  {
    var pa, pb, pc := Percent(a, total), Percent(b, total), Percent(c, total);
    var t2 := 2 * total;
    assert t2 * pa <= 200 * a + total && t2 * pb <= 200 * b + total && t2 * pc <= 200 * c + total;
    Distribute(t2, pa, pb + pc);
    Distribute(t2, pb, pc);
    Regroup(total, pa + pb + pc);
    MulCancel(total, 2 * (pa + pb + pc), 203);
  }

  lemma FourPercents(a: nat, b: nat, c: nat, d: nat, total: nat)
    requires total > 0 && a + b + c + d <= total
    ensures Percent(a, total) + Percent(b, total) + Percent(c, total) + Percent(d, total) <= 102
  {
    var pa, pb, pc, pd := Percent(a, total), Percent(b, total), Percent(c, total), Percent(d, total);
    var t2 := 2 * total;
    assert t2 * pa <= 200 * a + total && t2 * pb <= 200 * b + total;
    assert t2 * pc <= 200 * c + total && t2 * pd <= 200 * d + total;
    Distribute(t2, pa, pb + pc + pd);
    Distribute(t2, pb, pc + pd);
    Distribute(t2, pc, pd);
    Regroup(total, pa + pb + pc + pd);
    MulCancel(total, 2 * (pa + pb + pc + pd), 204);
  }

  // ---------------------------------------------------------------- colours

  /** A Chakra colour scheme name. */
  datatype Color = Red | Yellow | Green | Gray | Blue | Orange

  /** `getPriorityColor`: a `switch`, so the comparison is `===`. */
  function PriorityColor(priority: Json): (c: Color)
    ensures c == Red <==> priority == Str(LabelText(MostImportant))
    ensures c == Yellow <==> priority == Str(LabelText(Important))
    ensures c == Green <==> priority == Str(LabelText(LeastImportant))
    ensures c == Gray <==> !(priority.Str? && IsLabelText(priority.s))
  {
    if StrictEq(priority, Str("Most Important")) then Red
    else if StrictEq(priority, Str("Important")) then Yellow
    else if StrictEq(priority, Str("Least Important")) then Green
    else Gray
  }

  /** The colour tells the labels apart, and no label is shown gray. */
  lemma PriorityColorIdentifiesLabel(a: Label, b: Label)
    ensures PriorityColor(Str(LabelText(a))) != Gray
    ensures PriorityColor(Str(LabelText(a))) == PriorityColor(Str(LabelText(b))) ==> a == b
  {
  }
}
