/** `Array.prototype.flat()` on an array of arrays. */
module Seqs {

  function Flatten<T>(xss: seq<seq<T>>): seq<T> {
    if xss == [] then [] else xss[0] + Flatten(xss[1..])
  }

  /** Flattening distributes over concatenation of the outer sequence. */
  lemma {:induction false} FlattenAppend<T>(a: seq<seq<T>>, b: seq<seq<T>>)
    ensures Flatten(a + b) == Flatten(a) + Flatten(b)
  {
    if a == [] {
      assert a + b == b;
    } else {
      assert (a + b)[1..] == a[1..] + b;
      FlattenAppend(a[1..], b);
    }
  }

  /** Flattening around one position: what comes before it, its own block,
      then what comes after it. */
  lemma FlattenSplit<T>(xss: seq<seq<T>>, i: nat)
    requires i < |xss|
    ensures Flatten(xss) == Flatten(xss[..i]) + xss[i] + Flatten(xss[i + 1..])
  {
    var tail := xss[i..];
    assert xss == xss[..i] + tail;
    FlattenAppend(xss[..i], tail);
    assert tail[0] == xss[i] && tail[1..] == xss[i + 1..];
  }

  /** Three blocks flatten to their concatenation. */
  lemma FlattenOfThree<T>(a: seq<T>, b: seq<T>, c: seq<T>)
    ensures Flatten([a, b, c]) == a + b + c
  {
    assert [a, b, c][1..] == [b, c] && [b, c][1..] == [c] && [c][1..] == [];
    assert Flatten([c]) == c + Flatten([]);
    assert a + (b + c) == a + b + c;
  }

  /** Flattening one more block appends that block. */
  lemma FlattenSnoc<T>(xss: seq<seq<T>>, k: nat)
    requires k < |xss|
    ensures Flatten(xss[..k + 1]) == Flatten(xss[..k]) + xss[k]
  {
    assert xss[..k + 1] == xss[..k] + [xss[k]];
    FlattenAppend(xss[..k], [xss[k]]);
    assert [xss[k]][1..] == [];
  }

  /** The length of a flattening is the sum of the block lengths. */
  function TotalLength<T>(xss: seq<seq<T>>): nat {
    if xss == [] then 0 else |xss[0]| + TotalLength(xss[1..])
  }

  lemma {:induction false} FlattenLength<T>(xss: seq<seq<T>>)
    ensures |Flatten(xss)| == TotalLength(xss)
  {
    if xss != [] {
      FlattenLength(xss[1..]);
    }
  }
}
