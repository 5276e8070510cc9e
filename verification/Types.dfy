/** Vocabulary shared by the three layers. */
module Types {

  type BlockId = nat
  type TierIndex = nat
  type TokenId = int

  /** One byte of key/value data. */
  newtype Byte = b: int | 0 <= b < 256

  /** One block's worth of token ids: what a tree edge is compared by. */
  type Chunk = seq<TokenId>

  datatype Option<+T> = None | Some(value: T)

  ghost predicate NoDup<T>(xs: seq<T>) {
    forall i, j :: 0 <= i < j < |xs| ==> xs[i] != xs[j]
  }

  function Last<T>(xs: seq<T>): T
    requires xs != []
  {
    xs[|xs| - 1]
  }

  function ButLast<T>(xs: seq<T>): seq<T>
    requires xs != []
  {
    xs[..|xs| - 1]
  }

  /** Popping and pushing at the back of a duplicate-free list. */
  lemma NoDupPop<T>(xs: seq<T>)
    requires NoDup(xs) && xs != []
    ensures NoDup(ButLast(xs)) && Last(xs) !in ButLast(xs)
    ensures forall x :: x in xs <==> x in ButLast(xs) || x == Last(xs)
  {
    assert xs == ButLast(xs) + [Last(xs)];
  }

  lemma NoDupPush<T>(xs: seq<T>, x: T)
    requires NoDup(xs) && x !in xs
    ensures NoDup(xs + [x])
    ensures forall y :: y in xs + [x] <==> y in xs || y == x
  {
  }

  lemma NoDupConcat<T>(xs: seq<T>, ys: seq<T>)
    requires NoDup(xs) && NoDup(ys) && forall x :: x in xs ==> x !in ys
    ensures NoDup(xs + ys)
  {
    var zs := xs + ys;
    forall i, j | 0 <= i < j < |zs| ensures zs[i] != zs[j] {
      if i < |xs| <= j {
        assert xs[i] in xs && ys[j - |xs|] in ys;
      }
    }
  }

  /** Total length of a list of lists: all free slots of all tiers. */
  ghost function SumLen(xss: seq<seq<nat>>): nat {
    if xss == [] then 0 else |xss[0]| + SumLen(xss[1..])
  }

  lemma {:induction false} SumLenUpdate(xss: seq<seq<nat>>, t: nat, xs: seq<nat>)
    requires t < |xss|
    ensures SumLen(xss[t := xs]) == SumLen(xss) - |xss[t]| + |xs|
  {
    if t == 0 {
      assert xss[t := xs][1..] == xss[1..];
    } else {
      assert xss[t := xs][1..] == xss[1..][t - 1 := xs];
      SumLenUpdate(xss[1..], t - 1, xs);
    }
  }

  lemma {:induction false} SumLenBounds(xss: seq<seq<nat>>, t: nat)
    requires t < |xss|
    ensures |xss[t]| <= SumLen(xss)
  {
    if t > 0 {
      SumLenBounds(xss[1..], t - 1);
    }
  }

  lemma {:induction false} SumLenAppend(xss: seq<seq<nat>>, xs: seq<nat>)
    ensures SumLen(xss + [xs]) == SumLen(xss) + |xs|
  {
    if xss != [] {
      assert (xss + [xs])[1..] == xss[1..] + [xs];
      SumLenAppend(xss[1..], xs);
    }
  }
}
