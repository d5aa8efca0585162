/** Failure-carrying values for the two Python exceptions the generator can
    raise internally: `ValueError` from building an impossible calendar date
    and `IndexError` from indexing a list out of range. */
module Results {

  datatype Error = ValueError | IndexError

  datatype Option<+T> = None | Some(value: T)

  datatype Result<+T> = Ok(value: T) | Err(error: Error)

  /** Python's `xs[k]` on a list: negative indices count from the end,
      anything else outside the list raises `IndexError`. */
  function PyIndex<T>(xs: seq<T>, k: int): (r: Result<T>)
    ensures r.Ok? <==> -|xs| <= k < |xs|
    ensures 0 <= k < |xs| ==> r == Ok(xs[k])
    ensures -|xs| <= k < 0 ==> r == Ok(xs[|xs| + k])
    ensures r.Err? ==> r.error == IndexError
  {
    if 0 <= k < |xs| then Ok(xs[k])
    else if -|xs| <= k < 0 then Ok(xs[|xs| + k])
    else Err(IndexError)
  }
}
