/** Small vocabulary shared by the models. */
module Prelude {

  /** JavaScript's Number.MAX_SAFE_INTEGER. */
  const MAX_SAFE_INTEGER: int := 9007199254740991

  datatype Option<+T> = None | Some(value: T)

  /** No value occurs twice. */
  ghost predicate Distinct<T>(s: seq<T>) {
    forall i, j :: 0 <= i < j < |s| ==> s[i] != s[j]
  }

  function Max(a: int, b: int): int { if a < b then b else a }

  function Min(a: int, b: int): int { if a < b then a else b }

  /** The last n elements, or all when there are fewer. */
  function LastOf<T>(s: seq<T>, n: nat): seq<T> {
    if |s| <= n then s else s[|s| - n..]
  }
}
