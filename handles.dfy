/** Opaque values shared by every component: C pointers whose target the
    model never inspects (service instances, callbacks, textures, fonts, mixer
    handles) and the usual Option type. */
module Handles {

  /** A C pointer the model treats as an identity only: `Null` or the address
      of some object it never looks into. Function pointers (computation
      functions, render functions, listeners, callbacks) are such identities too. */
  datatype Ptr = Null | Ref(id: nat)

  datatype Option<T> = None | Some(value: T) {
    function GetOr(default: T): T {
      match this
      case Some(v) => v
      case None => default
    }
  }

  /** Position of the first element of `s` that satisfies `p`, or `|s|`
      when none does: the scan every lookup by name or identity makes. */
  function FirstIndex<T>(s: seq<T>, p: T -> bool): (k: nat)
    ensures k <= |s|
    ensures forall j :: 0 <= j < k ==> !p(s[j])
    ensures k < |s| ==> p(s[k])
  {
    if s == [] then 0 else if p(s[0]) then 0 else 1 + FirstIndex(s[1..], p)
  }

  /** The first `n` characters of `s`: what a bounded `strncpy`/`snprintf` keeps,
      one byte per character. */
  function Truncate(s: string, n: nat): (r: string)
    ensures |r| <= n && |r| <= |s| && r == s[..|r|]
    ensures |s| <= n ==> r == s
    ensures |s| > n ==> |r| == n
  {
    if |s| <= n then s else s[..n]
  }
}
