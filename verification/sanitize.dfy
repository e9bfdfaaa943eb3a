/** The attribute sanitiser pair used when the fitted object is stored as a
    netCDF-backed dataset: netCDF attributes cannot hold None, sets or
    functions, so those are encoded on the way out and None is decoded on the
    way back in. */
module Sanitize {

  /** The Python values a keyword argument can hold, as far as the pair tells
      them apart.  A set is kept in its iteration order; an array is anything
      with a `shape`. */
  datatype PyValue =
    | PyNone
    | PyBool(b: bool)
    | PyInt(i: int)
    | PyFloat(f: real)
    | PyStr(s: string)
    | PyList(items: seq<PyValue>)
    | PySet(members: seq<PyValue>)
    | PyCallable(name: string)
    | PyArray(cells: seq<real>)

  /** A value netCDF can store as an attribute. */
  predicate Storable(x: PyValue)
  {
    !x.PyNone? && !x.PySet? && !x.PyCallable?
  }

  const NoneText: string := "None"

  /** `_xarray_sanitize`: None becomes the text "None", a set becomes a list of
      its members, a function is replaced by a description naming it, and
      anything else passes through.  Only the top level is looked at. */
  function Sanitize(x: PyValue): (r: PyValue)
    ensures Storable(r)
    ensures Storable(x) ==> r == x
    ensures x.PyNone? ==> r == PyStr(NoneText)
    ensures x.PySet? ==> r == PyList(x.members)
    ensures x.PyCallable? ==> r.PyStr? && |r.s| > |x.name| && r.s[|r.s| - |x.name|..] == x.name
  {
    match x
    case PyNone => PyStr(NoneText)
    case PySet(m) => PyList(m)
    case PyCallable(n) => PyStr("Custom function " + n)
    case _ => x
  }

  /** `_xarray_unsanitize`: the text "None" becomes None again; arrays, and
      everything else, pass through. */
  function Unsanitize(x: PyValue): (r: PyValue)
    ensures r.PyNone? <==> x.PyNone? || x == PyStr(NoneText)
    ensures x != PyStr(NoneText) ==> r == x
  {
    if x.PyArray? then x
    else if x == PyStr(NoneText) then PyNone
    else x
  }

  /** None survives the round trip. */
  lemma NoneRoundTrip()
    ensures Unsanitize(Sanitize(PyNone)) == PyNone
  {
  }

  /** A set comes back as the list of its members. */
  lemma SetComesBackAsList(m: seq<PyValue>)
    ensures Unsanitize(Sanitize(PySet(m))) == PyList(m)
  {
  }

  /** The round trip gives back exactly the values that are neither a set, a
      function nor the text "None". */
  lemma RoundTripExactly(x: PyValue)
    ensures Unsanitize(Sanitize(x)) == x <==> !x.PySet? && !x.PyCallable? && x != PyStr(NoneText)
  {
    if x.PyCallable? {
      assert Sanitize(x).PyStr? && Sanitize(x).s != NoneText by {
        assert Sanitize(x).s[..16] == "Custom function ";
      }
    }
  }

  /** The encoding is not injective: None and the text "None" are stored alike,
      and both come back as None. */
  lemma NoneTextCollapses()
    ensures Sanitize(PyNone) == Sanitize(PyStr(NoneText))
    ensures Unsanitize(Sanitize(PyStr(NoneText))) == PyNone
  {
  }
}
