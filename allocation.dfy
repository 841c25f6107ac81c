/** The C allocator (`calloc`, `realloc`) as far as the string builder relies on it. */
module Allocation {
  import opened CStrings

  datatype Option<T> = None | Some(value: T)

  function Min(a: nat, b: nat): nat
  {
    if a <= b then a else b
  }

  /** An allocator that grants every request of at most `limit` bytes and refuses larger ones,
      the way `calloc` and `realloc` return NULL once memory is exhausted. Dafny arrays cannot
      change size, so a reallocation is a fresh block plus a copy. */
  class Allocator {
    const limit: nat

    constructor (limit: nat)
      ensures this.limit == limit
    {
      this.limit := limit;
    }

    /** `calloc(n, 1)`: a fresh block of `n` zero bytes, or nothing. */
    method Calloc(n: nat) returns (r: Option<array<Byte>>)
      ensures r.None? <==> n > limit
      ensures r.Some? ==> fresh(r.value) && r.value.Length == n
      ensures r.Some? ==> forall i :: 0 <= i < n ==> r.value[i] == NUL
    {
      if n > limit {
        return None;
      }
      var block := new Byte[n](_ => NUL);
      return Some(block);
    }

    /** `realloc(block, n)`: a block of `n` bytes whose first `min(n, block.Length)` bytes are
        those of `block`, or nothing. */
    method Realloc(block: array<Byte>, n: nat) returns (r: Option<array<Byte>>)
      ensures r.None? <==> n > limit
      ensures r.Some? ==> fresh(r.value) && r.value.Length == n
      ensures r.Some? ==> forall i :: 0 <= i < Min(n, block.Length) ==> r.value[i] == block[i]
    {
      if n > limit {
        return None;
      }
      var moved := new Byte[n];
      var kept := Min(n, block.Length);
      var k := 0;
      while k < kept
        invariant 0 <= k <= kept
        invariant forall i :: 0 <= i < k ==> moved[i] == block[i]
      {
        moved[k] := block[k];
        k := k + 1;
      }
      return Some(moved);
    }
  }
}
