/** Lists that hold each element once. */
module Lists {
  predicate NoRepeats<T(==)>(s: seq<T>) { forall i, j :: 0 <= i < j < |s| ==> s[i] != s[j] }

  function Pushed<T(==)>(s: seq<T>, x: T): seq<T> { if x in s then s else s + [x] }

  function PushedAll<T(==)>(s: seq<T>, xs: seq<T>): seq<T> {
    if xs == [] then s else Pushed(PushedAll(s, xs[..|xs| - 1]), xs[|xs| - 1])
  }

  /** Pushing many elements: all are there afterwards, nothing is lost or moved, nothing repeats. */
  lemma {:induction false} PushedAllIsUnion<T>(s: seq<T>, xs: seq<T>)
    ensures forall x :: x in PushedAll(s, xs) <==> x in s || x in xs
    ensures NoRepeats(s) ==> NoRepeats(PushedAll(s, xs))
    ensures s <= PushedAll(s, xs)
  {
    if xs != [] {
      PushedAllIsUnion(s, xs[..|xs| - 1]);
      assert xs == xs[..|xs| - 1] + [xs[|xs| - 1]];
    }
  }

  /** The elements for which `p` holds, in order and as often as they stand there. */
  function Filtered<T(!new)>(s: seq<T>, p: T -> bool): (r: seq<T>)
    ensures forall x :: x in r <==> x in s && p(x)
  {
    if s == [] then []
    else
      var last := s[|s| - 1];
      Filtered(s[..|s| - 1], p) + (if p(last) then [last] else [])
  }

  /** Filtering is piecewise. With single elements it says what filtering is. */
  lemma {:induction false} FilteredConcat<T(!new)>(a: seq<T>, b: seq<T>, p: T -> bool)
    ensures Filtered(a + b, p) == Filtered(a, p) + Filtered(b, p)
  {
    if b == [] {
      assert a + b == a;
    } else {
      var init, last := b[..|b| - 1], b[|b| - 1];
      FilteredConcat(a, init, p);
      assert (a + b)[..|a + b| - 1] == a + init && (a + b)[|a + b| - 1] == last;
      var tail := if p(last) then [last] else [];
      assert Filtered(a, p) + (Filtered(init, p) + tail) == (Filtered(a, p) + Filtered(init, p)) + tail;
    }
  }

  lemma FilteredOne<T(!new)>(x: T, p: T -> bool)
    ensures Filtered([x], p) == if p(x) then [x] else []
  {
    assert [x][..0] == [];
  }
}
