/** The two failure-carrying shapes used across the model: an absent value, and the outcome of an
    operation that may throw (TypeScript) or return an error (Rust). */
module Results {

  datatype Option<+T> = None | Some(value: T)

  datatype Result<+T, +E> = Ok(value: T) | Err(error: E)

  function Max(a: int, b: int): int { if a >= b then a else b }

  function Min(a: int, b: int): int { if a <= b then a else b }

  /** The last `n` elements of `s`, or all of `s` when it is shorter. */
  function Last<T>(s: seq<T>, n: nat): seq<T> {
    if |s| <= n then s else s[|s| - n..]
  }

  /** `n * k` as repeated addition. */
  function Multiple(n: nat, k: nat): nat { if n == 0 then 0 else Multiple(n - 1, k) + k }

  lemma {:induction false} MultipleIsProduct(n: nat, k: nat)
    ensures Multiple(n, k) == n * k
  {
    if n > 0 { MultipleIsProduct(n - 1, k); }
  }
}
