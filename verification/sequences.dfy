/** Searches over sequences shared by the chaincode models. */
module Sequences {
  import opened Wrappers

  /** Index of the first element whose key is `h`. Every lookup by hash in
      the chaincodes (getRequest, getProperty and findHouse) is this loop
      with a break on the first match. */
  function FirstMatch<T>(xs: seq<T>, key: T -> string, h: string): (r: Option<nat>)
    ensures r.None? <==> forall i | 0 <= i < |xs| :: key(xs[i]) != h
    ensures r.Some? ==> r.value < |xs| && key(xs[r.value]) == h
    ensures r.Some? ==> forall j | 0 <= j < r.value :: key(xs[j]) != h
    decreases |xs|
  {
    if |xs| == 0 then None
    else if key(xs[0]) == h then Some(0)
    else
      match FirstMatch(xs[1..], key, h)
      case None =>
        assert forall i | 1 <= i < |xs| :: xs[i] == xs[1..][i - 1];
        None
      case Some(i) => Some(i + 1)
  }
}
