// Small shared vocabulary: optional values, results, and facts about sequences and
// sets that several components of the model use.
module Prelude {

  datatype Option<+T> = None | Some(value: T)

  datatype Result<+T, +E> = Ok(value: T) | Err(error: E)

  // The fate of one write of a durable value: it may fail before or after the atomic
  // replace.
  datatype Io = Stored | Lost | StoredThenLost {
    predicate Raises() { !Stored? }
    predicate Lands() { !Lost? }
  }

  predicate Distinct<T(==)>(s: seq<T>) {
    forall i, j :: 0 <= i < j < |s| ==> s[i] != s[j]
  }

  function Elements<T>(s: seq<T>): set<T> {
    set x | x in s
  }

  lemma SubsetSize<T>(a: set<T>, b: set<T>)
    requires a <= b
    ensures |a| <= |b|
  {
    assert b == a + (b - a);
  }
}
