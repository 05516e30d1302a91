// Small helpers shared by every component.
module Basics {

  datatype Option<+T> = None | Some(value: T)

  function Min(a: int, b: int): int {
    if a <= b then a else b
  }

  function Max(a: int, b: int): int {
    if a >= b then a else b
  }

  /** The concatenation of a sequence of sequences, first to last. */
  function Flatten<T>(ss: seq<seq<T>>): seq<T> {
    if ss == [] then [] else ss[0] + Flatten(ss[1..])
  }

  lemma {:induction false} FlattenConcat<T>(a: seq<seq<T>>, b: seq<seq<T>>)
    ensures Flatten(a + b) == Flatten(a) + Flatten(b)
  {
    if a == [] {
      assert a + b == b;
    } else {
      assert (a + b)[1..] == a[1..] + b;
      FlattenConcat(a[1..], b);
    }
  }

  lemma FlattenSnoc<T>(a: seq<seq<T>>, x: seq<T>)
    ensures Flatten(a + [x]) == Flatten(a) + x
  {
    FlattenConcat(a, [x]);
    assert [x][1..] == [];
    assert Flatten([x]) == x + Flatten([x][1..]);
  }

  lemma FlattenHead<T>(a: seq<seq<T>>)
    requires a != []
    ensures Flatten(a) == a[0] + Flatten(a[1..])
  {
  }

  lemma Nonempty(s: set<int>)
    requires s != {}
    ensures exists x :: x in s
  {
    if forall x :: x !in s {
      assert false;
    }
  }

  lemma {:induction false} MinBelow(s: set<int>, x: int)
    requires x in s
    ensures exists m :: m in s && forall y :: y in s ==> m <= y
    decreases |s|
  {
    if z :| z in s && z < x {
      MinBelow(s - {x}, z);
      var n :| n in s - {x} && forall y :: y in s - {x} ==> n <= y;
      assert forall y :: y in s ==> y == x || y in s - {x};
      assert n in s && forall y :: y in s ==> n <= y;
    } else {
      assert x in s && forall y :: y in s ==> x <= y;
    }
  }

  /** The least element: begin() of a std::map with these keys. */
  function First(s: set<int>): (m: int)
    requires s != {}
    ensures m in s && forall x :: x in s ==> m <= x
  {
    assert exists m :: m in s && forall x :: x in s ==> m <= x by {
      Nonempty(s);
      var x :| x in s;
      MinBelow(s, x);
    }
    var m :| m in s && forall x :: x in s ==> m <= x;
    m
  }

  function Elements(s: seq<int>): set<int> {
    set i | 0 <= i < |s| :: s[i]
  }

  /** A sequence without repetition has as many elements as places. */
  lemma {:induction false} DistinctCount(s: seq<int>)
    requires forall i, j :: 0 <= i < j < |s| ==> s[i] != s[j]
    ensures |Elements(s)| == |s|
  {
    if s != [] {
      var rest, last := s[..|s| - 1], s[|s| - 1];
      DistinctCount(rest);
      assert Elements(s) == Elements(rest) + {last} by {
        assert forall i :: 0 <= i < |rest| ==> rest[i] == s[i];
      }
      assert last !in Elements(rest);
    }
  }

  /** An entry taken out of a vector by moving the last one into its place. */
  function SwapOut<T>(v: seq<T>, index: nat): seq<T>
    requires index < |v|
  {
    if index == |v| - 1 then v[..index] else v[index := v[|v| - 1]][..|v| - 1]
  }
}
