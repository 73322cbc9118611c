/** Value types shared by every component: an optional value and the outcome of an
    operation that may throw. */
module Common {

  /** A value that may be missing (JavaScript's null/undefined, or a record not found). */
  datatype Option<+T> = None | Some(value: T)

  /** The outcome of an operation that either returns a value or throws an error whose
      message is `error`. */
  datatype Result<+T> = Ok(value: T) | Err(error: string)

  /** One more element of a sequence's prefix; the loops that build a sequence element by
      element use it to keep their invariant. */
  lemma TakeOneMore<T>(s: seq<T>, j: nat)
    requires j < |s|
    ensures s[..j + 1] == s[..j] + [s[j]]
  {
  }

  /** The last element of a concatenation with a non-empty right operand comes from that
      operand, and what precedes it is the left operand followed by the rest. */
  lemma DropLastOfConcat<T>(a: seq<T>, b: seq<T>)
    requires b != []
    ensures (a + b)[..|a + b| - 1] == a + b[..|b| - 1]
    ensures (a + b)[|a + b| - 1] == b[|b| - 1]
  {
  }

  /** Concatenation regroups. */
  /** Taking behind a head element takes from the tail. */
  lemma ConsTake<T>(x: T, s: seq<T>, k: nat)
    requires k <= |s|
    ensures ([x] + s)[..k + 1] == [x] + s[..k]
  {
  }

  /** A sequence is its first `k` elements followed by the rest. */
  lemma TakeThenDrop<T>(s: seq<T>, u: seq<T>, k: nat)
    requires k <= |s| && s[..k] == u
    ensures s == u + s[k..]
  {
    assert s == s[..k] + s[k..];
  }

  lemma AppendAssoc<T>(a: seq<T>, b: seq<T>, c: seq<T>)
    ensures a + b + c == a + (b + c)
  {
  }

  /** The prefix one longer, seen from its own prefix and its last element. */
  lemma LongerTake<T>(s: seq<T>, j: nat)
    requires j < |s|
    ensures s[..j + 1][..j] == s[..j] && s[..j + 1][j] == s[j] && |s[..j + 1]| == j + 1
  {
  }

  /** The middle operand of a concatenation is the slice at its offset. */
  lemma MiddleSlice<T>(a: seq<T>, b: seq<T>, c: seq<T>)
    ensures |a| + |b| <= |a + b + c| && (a + b + c)[|a|..|a| + |b|] == b
  {
  }

  /** A sequence is what follows its own first element. */
  lemma DropHead<T>(x: T, s: seq<T>)
    ensures ([x] + s)[1..] == s
  {
  }

  /** A slice of a sequence is the slice one further on once an element is put in front. */
  lemma SliceAfterHead<T>(x: T, s: seq<T>, i: nat, j: nat)
    requires i <= j <= |s|
    ensures ([x] + s)[i + 1..j + 1] == s[i..j]
  {
  }
}
