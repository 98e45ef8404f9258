/** First-match lookup over the host's element collections: a filtered
    collector scanned in catalog order, then `FirstOrDefault()`. */
module Lookup {

  /** The absent result (`null` from `FirstOrDefault`) or a found value. */
  datatype Option<+T> = None | Some(value: T)

  /** The position of the first element of `s` that passes the filter `p`,
      or None when no element passes. */
  function FirstMatch<T>(s: seq<T>, p: T -> bool): (r: Option<nat>)
    ensures r.Some? ==> r.value < |s| && p(s[r.value])
    ensures r.Some? ==> forall j :: 0 <= j < r.value ==> !p(s[j])
    ensures r.None? <==> forall j :: 0 <= j < |s| ==> !p(s[j])
    decreases |s|
  {
    if |s| == 0 then None
    else if p(s[0]) then Some(0)
    else match FirstMatch(s[1..], p)
      case None => None
      case Some(i) => Some(i + 1)
  }

  /** The converse: a passing element with no passing element before it is
      exactly what FirstMatch returns, so the result is determined by the
      catalog order alone. */
  lemma FirstMatchIsFirst<T>(s: seq<T>, p: T -> bool, i: nat)
    requires i < |s| && p(s[i])
    requires forall j :: 0 <= j < i ==> !p(s[j])
    ensures FirstMatch(s, p) == Some(i)
  {
  }
}
