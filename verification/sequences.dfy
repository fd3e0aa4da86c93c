/** Sequences and the arrays that hold them. */
module Sequences {

  lemma ConcatAssociative<T>(a: seq<T>, b: seq<T>, c: seq<T>)
    ensures a + (b + c) == (a + b) + c
  {
  }

  /** Copies elements into a buffer, as `memcpy` does. */
  method CopyInto<T>(buffer: array<T>, at: nat, items: seq<T>)
    requires at + |items| <= buffer.Length
    modifies buffer
    ensures buffer[..] == old(buffer[..at]) + items + old(buffer[at + |items|..])
  {
    for i := 0 to |items|
      invariant forall j | 0 <= j < i :: buffer[at + j] == items[j]
      invariant forall j | 0 <= j < buffer.Length && (j < at || at + i <= j) :: buffer[j] == old(buffer[j])
    {
      buffer[at + i] := items[i];
    }
  }
}
