/** Option and Result, used wherever the source returns None or raises. */
module Wrappers {
  datatype Option<+T> = None | Some(value: T)

  datatype Result<+T, +E> = Ok(value: T) | Err(error: E)
}

/** Small facts about sequences shared by the pipeline stages. */
module SeqUtil {

  /** The concatenation of a sequence of batches, as a consumer of a batch generator sees it. */
  function Flatten<T>(bs: seq<seq<T>>): seq<T>
  {
    if bs == [] then [] else Flatten(bs[..|bs| - 1]) + bs[|bs| - 1]
  }

  /** No element occurs twice. */
  predicate NoDup<T(==)>(s: seq<T>)
  {
    forall i, j :: 0 <= i < j < |s| ==> s[i] != s[j]
  }

  function ToSet<T>(s: seq<T>): set<T>
  {
    set x | x in s
  }

  lemma PrefixSnoc<T>(done: seq<T>, b: seq<T>, j: nat)
    requires j < |b|
    ensures done + b[..j + 1] == (done + b[..j]) + [b[j]]
  {
    assert b[..j + 1] == b[..j] + [b[j]];
  }

  lemma FlattenSnoc<T>(bs: seq<seq<T>>, i: nat)
    requires i < |bs|
    ensures Flatten(bs[..i + 1]) == Flatten(bs[..i]) + bs[i]
  {
    assert bs[..i + 1][..i] == bs[..i];
  }

  lemma {:induction false} FlattenAppend<T>(bs: seq<seq<T>>, cs: seq<seq<T>>)
    ensures Flatten(bs + cs) == Flatten(bs) + Flatten(cs)
    decreases |cs|
  {
    if cs == [] {
      assert bs + cs == bs;
    } else {
      var n := |cs| - 1;
      assert (bs + cs)[..|bs + cs| - 1] == bs + cs[..n];
      FlattenAppend(bs, cs[..n]);
    }
  }

  lemma FlattenCons<T>(b: seq<T>, cs: seq<seq<T>>)
    ensures Flatten([b] + cs) == b + Flatten(cs)
  {
    FlattenAppend([b], cs);
    assert [b][..0] == [];
  }
}
