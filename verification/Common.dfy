/** Small vocabulary shared by the models: optional values, bytes and injectivity. */
module Common {

  datatype Option<+T> = None | Some(value: T)

  newtype Byte = b: int | 0 <= b < 256

  type Bytes = seq<Byte>

  /** No two inputs of `f` share an output: what a collision-free digest is assumed to be. */
  ghost predicate Injective<A(!new), B(!new)>(f: A -> B) {
    forall x, y :: f(x) == f(y) ==> x == y
  }

  function Max(a: int, b: int): int {
    if a < b then b else a
  }

  function Last<T>(xs: seq<T>): T
    requires xs != []
  {
    xs[|xs| - 1]
  }

  function Front<T>(xs: seq<T>): seq<T>
    requires xs != []
  {
    xs[..|xs| - 1]
  }

  ghost predicate Distinct<T>(xs: seq<T>) {
    forall i, j :: 0 <= i < j < |xs| ==> xs[i] != xs[j]
  }

  /** The pigeonhole principle: a sequence without repetitions is no longer than the set it draws from. */
  lemma {:induction false} DistinctFits<T>(xs: seq<T>, s: set<T>)
    requires Distinct(xs) && forall x <- xs :: x in s
    ensures |xs| <= |s|
  {
    if xs != [] {
      DistinctFits(xs[1..], s - {xs[0]});
    }
  }
}
