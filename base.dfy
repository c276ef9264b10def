/** Values that stand for Python's None and for the exceptions the dispatch code raises. */
module Base {

  /** A handler: the name of the bound method the dispatch code calls. */
  type HandlerId = string

  /** A value or Python's None. */
  datatype Option<+T> = None | Some(value: T)

  /** The exceptions the modelled code can raise; none of them is caught inside the core. */
  datatype Exception =
    | AssertionError
    | AttributeError
    | IndexError
    | KeyError
    | NameError
    | TypeError

  /** How a call ended: normally, or by raising. */
  datatype Outcome = Done | Raised(error: Exception)

  /** A returned value, or the exception raised instead. */
  datatype Result<+T> = Ok(value: T) | Err(error: Exception)

  // ----- Sequence facts the proofs of the loops lean on -----

  lemma AppendAssoc<T>(a: seq<T>, b: seq<T>, c: seq<T>)
    ensures a + (b + c) == (a + b) + c
  {
  }

  /** Where the second of four concatenated parts sits, and what empty
      trailing parts leave. */
  lemma ConcatParts<T>(a: seq<T>, b: seq<T>, c: seq<T>, d: seq<T>)
    ensures |a| + |b| <= |a + b + c + d|
    ensures (a + b + c + d)[|a|..|a| + |b|] == b
    ensures a + b + c + [] == a + b + c
    ensures a + b + [] + [] == a + b
  {
    assert a + b + c + d == a + (b + (c + d));
  }

  lemma EndsWith<T>(a: seq<T>, b: seq<T>)
    ensures |b| <= |a + b| && (a + b)[|a + b| - |b|..] == b
  {
    assert (a + b)[|a|..] == b;
  }

  lemma SplitLast<T>(s: seq<T>)
    requires s != []
    ensures s == s[..|s| - 1] + [s[|s| - 1]]
  {
  }

  lemma PrefixGrows<T>(s: seq<T>, i: nat)
    requires i < |s|
    ensures s[..i + 1] == s[..i] + [s[i]]
  {
  }
}
