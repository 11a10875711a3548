/** Values shared by the page models: JavaScript's `undefined`/`null` and
    Python's `None` are all modelled as the absent case of an Option. */
module Common {

  datatype Option<+T> = None | Some(value: T)

  /** How a page callback's promise ends: normally, or rejected by an
      exception the callback throws. */
  datatype Completion = Resolved | Rejected

  /** Number of elements of `s` that satisfy `p`. */
  function CountWhere<T>(s: seq<T>, p: T -> bool): (n: nat)
    ensures n <= |s|
    ensures n == 0 <==> forall i :: 0 <= i < |s| ==> !p(s[i])
  {
    if s == [] then 0 else CountWhere(s[..|s| - 1], p) + (if p(s[|s| - 1]) then 1 else 0)
  }

  lemma {:induction false} CountWhereAppend<T>(s: seq<T>, t: seq<T>, p: T -> bool)
    ensures CountWhere(s + t, p) == CountWhere(s, p) + CountWhere(t, p)
  {
    if t == [] {
      assert s + t == s;
    } else {
      assert (s + t)[..|s + t| - 1] == s + t[..|t| - 1];
      CountWhereAppend(s, t[..|t| - 1], p);
    }
  }
}
