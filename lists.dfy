// Sequence helpers for the game's sprite lists, and a model of what a Python
// `for x in xs:` loop visits when its body removes `x` from `xs`.
module Lists {

  /** `xs` without the elements in `gone`, in the same order. */
  function Drop<T>(xs: seq<T>, gone: set<T>): (r: seq<T>)
    ensures |r| <= |xs|
    ensures forall i :: 0 <= i < |r| ==> r[i] in xs && r[i] !in gone
    ensures forall i :: 0 <= i < |xs| && xs[i] !in gone ==> xs[i] in r
  {
    if xs == [] then []
    else (if xs[0] in gone then [] else [xs[0]]) + Drop(xs[1..], gone)
  }

  lemma {:induction false} DropAppend<T>(xs: seq<T>, ys: seq<T>, gone: set<T>)
    ensures Drop(xs + ys, gone) == Drop(xs, gone) + Drop(ys, gone)
  {
    if xs == [] {
      assert xs + ys == ys;
    } else {
      assert (xs + ys)[1..] == xs[1..] + ys;
      DropAppend(xs[1..], ys, gone);
    }
  }

  lemma {:induction false} DropNothing<T>(xs: seq<T>, gone: set<T>)
    requires forall i :: 0 <= i < |xs| ==> xs[i] !in gone
    ensures Drop(xs, gone) == xs
  {
    if xs != [] {
      DropNothing(xs[1..], gone);
    }
  }

  lemma DropAbsent<T>(xs: seq<T>, x: T)
    requires x !in xs
    ensures Drop(xs, {x}) == xs
  {
    DropNothing(xs, {x});
  }

  /** In a list without repeats, the element at `i` occurs neither before nor after `i`. */
  lemma DistinctSplit<T>(xs: seq<T>, i: nat)
    requires Distinct(xs) && i < |xs|
    ensures xs[i] !in xs[..i] && xs[i] !in xs[i + 1..]
  {
  }

  lemma {:induction false} DropTwice<T>(xs: seq<T>, a: set<T>, b: set<T>)
    ensures Drop(Drop(xs, a), b) == Drop(xs, a + b)
  {
    if xs != [] {
      DropTwice(xs[1..], a, b);
      var head := if xs[0] in a then [] else [xs[0]];
      DropAppend(head, Drop(xs[1..], a), b);
    }
  }

  /** Removing the element just after the prefix already handled. */
  lemma DropStep<T>(xs: seq<T>, i: nat, gone: set<T>, x: T)
    requires i < |xs| && x == xs[i]
    ensures Drop(xs[..i + 1], gone + {x}) == Drop(xs[..i], gone + {x})
    ensures x !in gone ==> Drop(xs[..i + 1], gone) == Drop(xs[..i], gone) + [x]
  {
    assert xs[..i + 1] == xs[..i] + [x];
    DropAppend(xs[..i], [x], gone + {x});
    DropAppend(xs[..i], [x], gone);
  }

  /** The elements of `xs`, as a set. */
  function Elements<T>(xs: seq<T>): set<T> {
    set i | 0 <= i < |xs| :: xs[i]
  }

  lemma ElementsSnoc<T>(xs: seq<T>, x: T)
    ensures Elements(xs + [x]) == Elements(xs) + {x}
  {
    forall a | a in Elements(xs + [x])
      ensures a in Elements(xs) + {x}
    {
      var i :| 0 <= i < |xs| + 1 && (xs + [x])[i] == a;
      if i < |xs| {
        assert xs[i] == a;
      }
    }
    forall a | a in Elements(xs) + {x}
      ensures a in Elements(xs + [x])
    {
      if a in Elements(xs) {
        var i :| 0 <= i < |xs| && xs[i] == a;
        assert (xs + [x])[i] == a;
      } else {
        assert (xs + [x])[|xs|] == a;
      }
    }
  }

  /** Dropping every element of a list leaves nothing. */
  lemma DropEverything<T>(xs: seq<T>, gone: set<T>)
    requires forall i :: 0 <= i < |xs| ==> xs[i] in gone
    ensures Drop(xs, gone) == []
  {
  }

  ghost predicate Distinct<T>(xs: seq<T>) {
    forall i, j :: 0 <= i < j < |xs| ==> xs[i] != xs[j]
  }

  lemma {:induction false} DropKeepsDistinct<T>(xs: seq<T>, gone: set<T>)
    requires Distinct(xs)
    ensures Distinct(Drop(xs, gone))
  {
    if xs != [] {
      DropKeepsDistinct(xs[1..], gone);
    }
  }

  /** Two duplicate-free lists with no element in common concatenate to a duplicate-free list. */
  lemma DistinctConcat<T>(xs: seq<T>, ys: seq<T>)
    requires Distinct(xs) && Distinct(ys)
    requires forall i, j :: 0 <= i < |xs| && 0 <= j < |ys| ==> xs[i] != ys[j]
    ensures Distinct(xs + ys)
  {
  }

  /**
   * The elements a Python `for x in xs:` loop reaches when its body removes
   * `x` from `xs` exactly when `hit(x)` holds: the list iterator advances by
   * index, so the element right after a removed one slides under the cursor
   * and is never reached.
   */
  function Visited<T>(xs: seq<T>, hit: T -> bool): (r: seq<T>)
    ensures |r| <= |xs|
    ensures xs != [] ==> r != [] && r[0] == xs[0]
    ensures forall k :: 0 <= k < |r| ==> r[k] in xs
  {
    if xs == [] then []
    else if hit(xs[0]) && |xs| >= 2 then [xs[0]] + Visited(xs[2..], hit)
    else [xs[0]] + Visited(xs[1..], hit)
  }

  /** A loop that removes nothing reaches every element. */
  lemma {:induction false} VisitedWithoutRemoval<T>(xs: seq<T>, hit: T -> bool)
    requires forall i :: 0 <= i < |xs| ==> !hit(xs[i])
    ensures Visited(xs, hit) == xs
  {
    if xs != [] {
      VisitedWithoutRemoval(xs[1..], hit);
    }
  }

  /** A loop that removes everything reaches only every other element. */
  lemma {:induction false} VisitedRemovingAll<T>(xs: seq<T>, hit: T -> bool)
    requires forall i :: 0 <= i < |xs| ==> hit(xs[i])
    ensures |Visited(xs, hit)| == (|xs| + 1) / 2
    ensures forall k :: 0 <= k < |Visited(xs, hit)| ==> Visited(xs, hit)[k] == xs[2 * k]
  {
    if |xs| >= 2 {
      VisitedRemovingAll(xs[2..], hit);
    }
  }

  /**
   * When the loop reaches `xs[i]` and removes it, the next element is never
   * reached (in a list without duplicates, where nothing before `xs[i]` was
   * removed).
   */
  lemma {:induction false} VisitedSkipsNext<T>(xs: seq<T>, hit: T -> bool, i: nat)
    requires i + 1 < |xs| && Distinct(xs)
    requires forall j :: 0 <= j < i ==> !hit(xs[j])
    requires hit(xs[i])
    ensures xs[i] in Visited(xs, hit) && xs[i + 1] !in Visited(xs, hit)
  {
    if i == 0 {
      assert xs[1] !in xs[2..] by {
        forall k | 2 <= k < |xs| ensures xs[k] != xs[1] { }
      }
    } else {
      var ys := xs[1..];
      assert Distinct(ys) by {
        forall a, b | 0 <= a < b < |ys| ensures ys[a] != ys[b] {
          assert ys[a] == xs[a + 1] && ys[b] == xs[b + 1];
        }
      }
      assert !hit(xs[0]);
      VisitedSkipsNext(ys, hit, i - 1);
      assert ys[i - 1] == xs[i] && ys[i] == xs[i + 1];
      assert xs[i + 1] != xs[0];
    }
  }
}
