/** Flattening of sequences, defined from the back because every loop of the model appends. */
module Sequences {

  function Concat<T>(ss: seq<seq<T>>): seq<T> {
    if |ss| == 0 then [] else Concat(ss[..|ss| - 1]) + ss[|ss| - 1]
  }

  lemma ConcatSnoc<T>(ss: seq<seq<T>>, s: seq<T>)
    ensures Concat(ss + [s]) == Concat(ss) + s
  {
  }

  lemma {:induction false} ConcatAppend<T>(a: seq<seq<T>>, b: seq<seq<T>>)
    ensures Concat(a + b) == Concat(a) + Concat(b)
  {
    if b == [] {
      assert a + b == a;
    } else {
      var n := |b| - 1;
      assert a + b == (a + b[..n]) + [b[n]];
      ConcatSnoc(a + b[..n], b[n]);
      ConcatAppend(a, b[..n]);
    }
  }

  /** The items of the containers `cs`, in order. */
  function Flat<T, C>(cs: seq<C>, accessor: C -> seq<T>): seq<T> {
    if |cs| == 0 then [] else Flat(cs[..|cs| - 1], accessor) + accessor(cs[|cs| - 1])
  }

  lemma FlatSnoc<T, C>(cs: seq<C>, c: C, accessor: C -> seq<T>)
    ensures Flat(cs + [c], accessor) == Flat(cs, accessor) + accessor(c)
  {
  }

  lemma {:induction false} FlatAppend<T, C>(a: seq<C>, b: seq<C>, accessor: C -> seq<T>)
    ensures Flat(a + b, accessor) == Flat(a, accessor) + Flat(b, accessor)
  {
    if b == [] {
      assert a + b == a;
    } else {
      var n := |b| - 1;
      assert a + b == (a + b[..n]) + [b[n]];
      FlatSnoc(a + b[..n], b[n], accessor);
      FlatAppend(a, b[..n], accessor);
    }
  }

  lemma FlatPrefix<T, C>(cs: seq<C>, i: nat, accessor: C -> seq<T>)
    requires i <= |cs|
    ensures Flat(cs[..i], accessor) <= Flat(cs, accessor)
    ensures |Flat(cs[..i], accessor)| + |Flat(cs[i..], accessor)| == |Flat(cs, accessor)|
  {
    assert cs == cs[..i] + cs[i..];
    FlatAppend(cs[..i], cs[i..], accessor);
  }
}
