/**
 * Lower-casing of strings, the one piece of the JavaScript runtime both
 * the source filter and the badge lookup rely on.
 *
 * The mapping covers the letters the outlet names use: ASCII `A`-`Z` and
 * the Latin-1 capitals U+00C0..U+00DE (except the sign U+00D7) move up by
 * 0x20, as `String.prototype.toLowerCase` does; every other character is
 * kept. The filter and state properties use only that `Lower` is a
 * function; the badge lookups of concrete outlet names compute it.
 */
module Text {

  predicate IsUpper(c: char) {
    ('A' <= c <= 'Z') || ('\U{C0}' <= c <= '\U{DE}' && c != '\U{D7}')
  }

  function LowerChar(c: char): (d: char)
    ensures !IsUpper(d)
    ensures IsUpper(c) || d == c
  {
    if IsUpper(c) then (c as int + 0x20) as char else c
  }

  /**
   * `s.toLowerCase()`: keeps the length, keeps every character that is not
   * a capital and leaves no capital behind.
   */
  function Lower(s: string): (r: string)
    ensures |r| == |s|
    ensures forall i :: 0 <= i < |s| && !IsUpper(s[i]) ==> r[i] == s[i]
    ensures forall i :: 0 <= i < |r| ==> !IsUpper(r[i])
  {
    seq(|s|, i requires 0 <= i < |s| => LowerChar(s[i]))
  }

  /** Lower-casing twice is lower-casing once. */
  lemma LowerIdempotent(s: string)
    ensures Lower(Lower(s)) == Lower(s)
  {
  }
}
