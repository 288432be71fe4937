/** Definitions shared by the models of the individual source files. */
module Common {

  /** A JavaScript value that may be absent. Where the source tests a value for truth,
      `Some` stands for a truthy value and `None` for every falsy one. */
  datatype Option<+T> = None | Some(value: T)

  function Or<T>(o: Option<T>, default: T): T {
    if o.Some? then o.value else default
  }

  /** The outcome of a call that may throw. */
  datatype Result<+T> = Ok(value: T) | Throws

  function Min(a: int, b: int): int { if a < b then a else b }

  function Max(a: int, b: int): int { if a > b then a else b }

  function Newer<T>(before: Option<T>, after: Option<T>): Option<T> {
    if after.Some? then after else before
  }

  /** The last of those that are there. */
  function Newest<T>(xs: seq<Option<T>>): Option<T> {
    if xs == [] then None else Newer(Newest(xs[..|xs| - 1]), xs[|xs| - 1])
  }

  lemma {:induction false} NewestConcat<T>(xs: seq<Option<T>>, ys: seq<Option<T>>)
    ensures Newest(xs + ys) == Newer(Newest(xs), Newest(ys))
  {
    if ys == [] {
      assert xs + ys == xs;
    } else {
      NewestConcat(xs, ys[..|ys| - 1]);
      assert (xs + ys)[..|xs + ys| - 1] == xs + ys[..|ys| - 1];
    }
  }

  function Lookup<K, V>(m: map<K, V>, k: K): Option<V> {
    if k in m then Some(m[k]) else None
  }
}
