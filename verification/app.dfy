/**
 * `sample` of kl/app.py: take items from an iterable until `n` have been
 * taken. The iterable is a sequence; `consumed` is how many items the loop
 * pulled from it.
 */
module App {

  function Min(a: int, b: int): int { if a <= b then a else b }

  function Max(a: int, b: int): int { if a >= b then a else b }

  method Sample<T>(items: seq<T>, n: int) returns (result: seq<T>, consumed: nat)
    // a prefix of the items, in their order, and exactly the items pulled
    ensures consumed <= |items| && result == items[..consumed]
    // the check runs after the append, so at least one item is taken if there is one
    ensures consumed == if |items| == 0 then 0 else Min(|items|, Max(n, 1))
    ensures n >= 1 ==> |result| == Min(n, |items|)
    ensures n <= 0 && |items| > 0 ==> result == [items[0]]
  {
    result := [];
    var idx := 0;
    consumed := 0;
    while consumed < |items|
      invariant consumed <= |items|
      invariant result == items[..consumed]
      invariant idx == consumed
      invariant consumed == 0 || consumed < n
    {
      result := result + [items[consumed]];
      consumed := consumed + 1;
      idx := idx + 1;
      if idx >= n {
        break;
      }
    }
  }
}
