/** String helpers shared by the generator: `capitalize` (src/run.ts, and the
    identical helper that src/generateEndpoint.ts and src/prepareEndpoints.ts import). */
module Text {

  /** The upper-case mapping of `String.prototype.toUpperCase`, restricted to ASCII. */
  function UpperChar(c: char): (u: char)
    ensures 'a' <= c <= 'z' ==> 'A' <= u <= 'Z' && u as int == c as int - 32
    ensures !('a' <= c <= 'z') ==> u == c
    ensures !('a' <= u <= 'z')
  {
    if 'a' <= c <= 'z' then (c as int - 32) as char else c
  }

  /** `str.replace(str[0], str[0].toUpperCase())`: the first occurrence of the
      first character is the character at index 0, so only it changes.  The
      source throws on the empty string (`str[0]` is undefined), hence the
      precondition; callers model that throw themselves. */
  function Capitalize(s: string): (r: string)
    requires |s| > 0
    ensures |r| == |s|
    ensures r[0] == UpperChar(s[0]) && !('a' <= r[0] <= 'z')
    ensures forall i :: 1 <= i < |s| ==> r[i] == s[i]
  {
    [UpperChar(s[0])] + s[1..]
  }

  /** Capitalizing twice is capitalizing once. */
  lemma {:induction false} CapitalizeIdempotent(s: string)
    requires |s| > 0
    ensures Capitalize(Capitalize(s)) == Capitalize(s)
  {
    var c := Capitalize(s);
    assert UpperChar(c[0]) == c[0];
    assert c[1..] == s[1..];
  }
}
