/** Option and Result values shared by every module of the model. */
module Wrappers {

  /** A value that may be absent: a JavaScript `null` or `undefined`. */
  datatype Option<+T> = None | Some(value: T)

  /** The outcome of an operation that can fail with an error of type `E`. */
  datatype Result<+T, +E> = Ok(value: T) | Err(error: E)

  /**
   * Every value present, or the 1-based position of the first missing one:
   * what a `map` whose callback throws on a missing value returns.
   */
  function Collect<T>(rs: seq<Option<T>>): (r: Result<seq<T>, nat>)
    ensures r.Ok? <==> forall i :: 0 <= i < |rs| ==> rs[i].Some?
    ensures r.Ok? ==> |r.value| == |rs| && forall i :: 0 <= i < |rs| ==> rs[i] == Some(r.value[i])
    ensures r.Err? ==> 1 <= r.error <= |rs| && rs[r.error - 1].None?
                       && forall i :: 0 <= i < r.error - 1 ==> rs[i].Some?
  {
    if rs == [] then Ok([])
    else
      match Collect(rs[..|rs| - 1])
      case Err(k) => Err(k)
      case Ok(vs) =>
        match rs[|rs| - 1]
        case None => Err(|rs|)
        case Some(v) => Ok(vs + [v])
  }
}
