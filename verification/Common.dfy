/** Small datatypes shared by every module. */
module Common {

  datatype Option<+T> = None | Some(value: T)

  /** A computed value, or the reason there is none. */
  datatype Result<+T, +E> = Ok(value: T) | Err(error: E)

  /** Extending a prefix by one element. */
  lemma TakeOneMore<T>(s: seq<T>, i: nat)
    requires i < |s|
    ensures s[..i + 1] == s[..i] + [s[i]]
    ensures forall x :: x in s[..i + 1] <==> x in s[..i] || x == s[i]
  {
    assert s[..i + 1] == s[..i] + [s[i]];
  }
}
