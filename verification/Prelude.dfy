/**
 * Wrappers and sequence facts shared by the other modules: optional values and
 * results, how many positions of a sequence hold a member of a set, sequences
 * without repeats and their sets of elements, the pigeonhole principle, and the
 * concatenation of a sequence of sequences.
 */
module Prelude {
  type Id = string

  datatype Option<+T> = None | Some(value: T)

  datatype Result<+T, +E> = Success(value: T) | Failure(error: E)

  /** How many positions of `xs` hold a member of `keep`. */
  function CountIn<T>(xs: seq<T>, keep: set<T>): (n: nat)
    ensures n <= |xs|
  {
    if xs == [] then 0 else (if xs[0] in keep then 1 else 0) + CountIn(xs[1..], keep)
  }

  lemma {:induction false} CountInZero<T>(xs: seq<T>, keep: set<T>)
    ensures CountIn(xs, keep) == 0 <==> forall x :: x in xs ==> x !in keep
  {
    if xs != [] {
      CountInZero(xs[1..], keep);
      assert xs == [xs[0]] + xs[1..];
    }
  }

  lemma {:induction false} CountInAll<T>(xs: seq<T>, keep: set<T>)
    ensures CountIn(xs, keep) == |xs| <==> forall x :: x in xs ==> x in keep
  {
    if xs != [] {
      CountInAll(xs[1..], keep);
      assert xs == [xs[0]] + xs[1..];
    }
  }

  lemma {:induction false} CountInSplit<T>(xs: seq<T>, keep: set<T>, drop: set<T>)
    requires drop <= keep
    ensures CountIn(xs, keep - drop) == CountIn(xs, keep) - CountIn(xs, drop)
  {
    if xs != [] {
      CountInSplit(xs[1..], keep, drop);
    }
  }

  lemma {:induction false} CountInSnoc<T>(xs: seq<T>, x: T, keep: set<T>)
    ensures CountIn(xs + [x], keep) == CountIn(xs, keep) + (if x in keep then 1 else 0)
  {
    if xs == [] {
      assert [] + [x] == [x];
    } else {
      assert (xs + [x])[1..] == xs[1..] + [x];
      CountInSnoc(xs[1..], x, keep);
    }
  }

  /** The distinct elements of a sequence. */
  function Elements<T>(xs: seq<T>): set<T> {
    set x | x in xs
  }

  /** No element occurs twice. */
  ghost predicate NoDup<T>(xs: seq<T>) {
    forall i, j :: 0 <= i < j < |xs| ==> xs[i] != xs[j]
  }

  lemma {:induction false} ElementsSize<T>(xs: seq<T>)
    ensures |Elements(xs)| <= |xs|
    ensures |Elements(xs)| == |xs| <==> NoDup(xs)
  {
    if xs != [] {
      var rest := xs[1..];
      ElementsSize(rest);
      assert xs == [xs[0]] + rest;
      assert Elements(xs) == {xs[0]} + Elements(rest);
      if xs[0] in rest {
        assert Elements(xs) == Elements(rest);
        var j :| 0 <= j < |rest| && rest[j] == xs[0];
        assert xs[0] == xs[j + 1];
      } else {
        assert |Elements(xs)| == 1 + |Elements(rest)|;
        if NoDup(rest) {
          forall i, j | 0 <= i < j < |xs| ensures xs[i] != xs[j] {
            if i > 0 {
              assert rest[i - 1] != rest[j - 1];
            }
          }
        } else {
          var i, j :| 0 <= i < j < |rest| && rest[i] == rest[j];
          assert xs[i + 1] == xs[j + 1];
        }
      }
    }
  }

  /** Pigeonhole: a sequence longer than the set it draws from repeats an element. */
  lemma {:induction false} Pigeonhole<T>(xs: seq<T>, holes: set<T>) returns (i: nat, j: nat)
    requires Elements(xs) <= holes && |holes| < |xs|
    ensures i < j < |xs| && xs[i] == xs[j]
  {
    SubsetSize(Elements(xs), holes);
    ElementsSize(xs);
    i, j :| 0 <= i < j < |xs| && xs[i] == xs[j];
  }

  lemma {:induction false} SubsetSize<T>(small: set<T>, big: set<T>)
    requires small <= big
    ensures |small| <= |big|
    ensures |small| == |big| ==> small == big
  {
    if small != {} {
      var x :| x in small;
      SubsetSize(small - {x}, big - {x});
    }
  }

  /** The concatenation of a sequence of sequences. */
  function Flatten<T>(xss: seq<seq<T>>): seq<T> {
    if xss == [] then [] else xss[0] + Flatten(xss[1..])
  }

  lemma {:induction false} FlattenSnoc<T>(xss: seq<seq<T>>, xs: seq<T>)
    ensures Flatten(xss + [xs]) == Flatten(xss) + xs
  {
    if xss == [] {
      assert [] + [xs] == [xs];
    } else {
      assert (xss + [xs])[1..] == xss[1..] + [xs];
      FlattenSnoc(xss[1..], xs);
    }
  }
}
