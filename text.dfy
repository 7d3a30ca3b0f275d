/** Small string helpers shared by the URL and footprint modules. */
module Text {

  datatype Option<+T> = None | Some(value: T)

  /** Position of the first occurrence of `c` in `s`, or None when `c` does not occur. */
  function IndexOf(s: string, c: char): (r: Option<nat>)
    ensures r.Some? ==> r.value < |s| && s[r.value] == c && c !in s[..r.value]
    ensures r.None? <==> c !in s
  {
    if s == [] then None
    else if s[0] == c then Some(0)
    else match IndexOf(s[1..], c)
      case None => None
      case Some(k) =>
        assert s[1..][..k] == s[1..k + 1];
        Some(k + 1)
  }

  /** A separator placed right after a separator-free prefix is the first one found. */
  lemma IndexOfAfterPrefix(a: string, c: char, b: string)
    requires c !in a
    ensures IndexOf(a + [c] + b, c) == Some(|a|)
  {
    var s := a + [c] + b;
    assert s[|a|] == c;
  }

  /** `sub` occurs verbatim somewhere inside `s`. */
  predicate Occurs(sub: string, s: string)
  {
    exists k :: 0 <= k <= |s| && sub <= s[k..]
  }
}
