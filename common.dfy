/** Small building blocks shared by the phase runner and the named-slice utility:
    optional values, results with an error side, and the case-insensitive name
    comparison (`a.lower() == b.lower()`) that every name lookup uses. */
module Common {

  datatype Option<+T> = None | Some(value: T)

  datatype Result<+T, +E> = Ok(value: T) | Err(error: E)

  /** Python 2 `str.lower()` on a byte string: only the ASCII capitals change. */
  function LowerChar(c: char): (r: char)
    ensures !('A' <= r <= 'Z')
    ensures r == c || 'A' <= c <= 'Z'
  {
    if 'A' <= c <= 'Z' then (c as int + 32) as char else c
  }

  function Lower(s: string): (r: string)
    ensures |r| == |s|
  {
    seq(|s|, i requires 0 <= i < |s| => LowerChar(s[i]))
  }

  /** The comparison `a.lower() == b.lower()`. */
  predicate SameName(a: string, b: string)
  {
    Lower(a) == Lower(b)
  }

  /** The position of the first name equal to `name` up to ASCII case, if any:
      the linear search with early return that both lookups perform. */
  function FirstMatch(names: seq<string>, name: string): (r: Option<nat>)
    ensures r.Some? ==> r.value < |names| && SameName(names[r.value], name)
    ensures r.Some? ==> forall j :: 0 <= j < r.value ==> !SameName(names[j], name)
    ensures r.None? <==> forall j :: 0 <= j < |names| ==> !SameName(names[j], name)
  {
    if names == [] then None
    else if SameName(names[0], name) then Some(0)
    else
      match FirstMatch(names[1..], name)
      case None => None
      case Some(k) => Some(k + 1)
  }
}
