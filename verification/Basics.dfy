/** What every part of the model shares: results that may be missing or abandoned, and least and greatest. */
module Basics {

  datatype Option<+T> = None | Some(value: T) {
    predicate IsFailure() {
      None?
    }

    function PropagateFailure<U>(): Option<U>
      requires None?
    {
      None
    }

    function Extract(): T
      requires Some?
    {
      value
    }
  }

  /** A transaction that ends by an exception saves nothing: it is Abandoned. */
  datatype Result<+T> = Done(value: T) | Abandoned {
    predicate IsFailure() {
      Abandoned?
    }

    function PropagateFailure<U>(): Result<U>
      requires Abandoned?
    {
      Abandoned
    }

    function Extract(): T
      requires Done?
    {
      value
    }
  }

  function Min(a: int, b: int): int {
    if a <= b then a else b
  }

  function Max(a: int, b: int): int {
    if a >= b then a else b
  }

  /** The position of the first such character, or the end. */
  function FindChar(line: string, c: char): (at: nat)
    ensures at <= |line|
    ensures at < |line| ==> line[at] == c
    ensures forall k | 0 <= k < at :: line[k] != c
  {
    if line == "" || line[0] == c then 0 else 1 + FindChar(line[1..], c)
  }

  lemma FoundAt(word: string, rest: string, c: char)
    requires c !in word && (rest == "" || rest[0] == c)
    ensures FindChar(word + rest, c) == |word|
  {
    forall k | 0 <= k < |word|
      ensures (word + rest)[k] != c
    {
      assert word[k] in word;
    }
    assert rest != "" ==> (word + rest)[|word|] == c;
  }
}
