/** `keyisset` and `keypresent`, the dictionary probes used throughout. */
module Common {
  import opened PyValues

  /** `keyisset(x, y)`: y is a dict, x is one of its keys and `y[x]` is truthy. */
  predicate KeyIsSet(x: string, y: Value)
    ensures KeyIsSet(x, y) <==> KeyPresent(x, y) && Truthy(y.entries[x])
  {
    y.PyDict? && x in y.entries && Truthy(y.entries[x])
  }

  /** `keypresent(x, y)`: y is a dict and x is one of its keys. */
  predicate KeyPresent(x: string, y: Value)
    ensures KeyPresent(x, y) ==> y.PyDict? && |y.entries| > 0
  {
    y.PyDict? && x in y.entries
  }

  /** A set key is a present key, and the two differ exactly on a present
      key whose value is falsy; neither holds of something that is not a dict. */
  lemma KeyIsSetVersusKeyPresent(x: string, y: Value)
    ensures KeyIsSet(x, y) ==> KeyPresent(x, y)
    ensures KeyPresent(x, y) && !KeyIsSet(x, y) <==> y.PyDict? && x in y.entries && !Truthy(y.entries[x])
    ensures !y.PyDict? ==> !KeyIsSet(x, y) && !KeyPresent(x, y)
  {
  }

  /** The two probes agree with a dict lookup. */
  lemma {:induction false} KeyIsSetMeansLookupTruthy(x: string, y: Value)
    ensures KeyIsSet(x, y) <==> GetItem(y, x).Success? && Truthy(GetItem(y, x).value)
  {
  }
}
