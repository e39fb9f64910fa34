/** Types shared by every part of the model. */
module Common {

  type byte = x: int | 0 <= x < 256 witness 0

  type bytes = seq<byte>

  datatype Option<+T> = None | Some(value: T)

  datatype Result<+T, +E> = Ok(value: T) | Err(error: E)

  function Min(a: int, b: int): int { if a <= b then a else b }

  function Max(a: int, b: int): int { if a >= b then a else b }

  lemma Regroup<T>(a: seq<T>, b: seq<T>, c: seq<T>)
    ensures a + (b + c) == (a + b) + c
    ensures a <= a + b + c
  {
  }

  /** A prefix and the piece behind it make a longer prefix. */
  lemma PrefixGrows<T>(s: seq<T>, n: nat, more: nat)
    requires n + more <= |s|
    ensures s[..n] + s[n..n + more] == s[..n + more]
    ensures n == |s| ==> s[..n] == s
  {
  }
}
