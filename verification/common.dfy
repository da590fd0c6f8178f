/** Failure-carrying wrappers and the one list search the application relies on. */
module Common {

  /** A field or lookup that may come back empty: `None` plays JavaScript's
      `undefined`/`null`. */
  datatype Option<+T> = None | Some(value: T) {

    /** What the application writes as `x ?? fallback` or `x || fallback` on an
        optional field: the field when it is there, the fallback otherwise. */
    function OrElse(fallback: T): T {
      if Some? then value else fallback
    }
  }

  /** The outcome of a call that may throw: a value, or the thrown error. */
  datatype Result<+T, +E> = Success(value: T) | Failure(error: E)

  /** The index of the first element of `s` that satisfies `p` — JavaScript's
      `Array.prototype.findIndex`, with `None` standing for its `-1`. */
  function FirstIndex<T>(s: seq<T>, p: T -> bool): (r: Option<nat>)
    ensures r.Some? ==> r.value < |s| && p(s[r.value])
    ensures r.Some? ==> forall j :: 0 <= j < r.value ==> !p(s[j])
    ensures r.None? <==> forall j :: 0 <= j < |s| ==> !p(s[j])
  {
    if |s| == 0 then None
    else if p(s[0]) then Some(0)
    else match FirstIndex(s[1..], p)
      case None => None
      case Some(i) => Some(i + 1)
  }

  /** Searching a list extended at the end finds the old match if there was one,
      and otherwise tries only the new element. */
  lemma {:induction false} FirstIndexAppend<T>(s: seq<T>, x: T, p: T -> bool)
    ensures FirstIndex(s + [x], p) ==
      (if FirstIndex(s, p).Some? then FirstIndex(s, p)
       else if p(x) then Some(|s|) else None)
  {
    var t := s + [x];
    match FirstIndex(s, p)
    case Some(i) =>
      assert t[i] == s[i];
      assert forall j :: 0 <= j < i ==> t[j] == s[j];
    case None =>
      assert forall j :: 0 <= j < |s| ==> t[j] == s[j];
      assert t[|s|] == x;
  }
}
