/** The two string operations the search filters use: `toLowerCase`, on the
    ASCII letters only, and `includes`. */
module Text {

  function LowerChar(c: char): char
  {
    if 'A' <= c <= 'Z' then c - 'A' + 'a' else c
  }

  /** `s.toLowerCase()` restricted to ASCII: no character is an upper-case
      ASCII letter afterwards. */
  function Lower(s: string): (r: string)
    ensures |r| == |s|
    ensures forall i :: 0 <= i < |r| ==> !('A' <= r[i] <= 'Z')
    ensures forall i :: 0 <= i < |s| && !('A' <= s[i] <= 'Z') ==> r[i] == s[i]
  {
    seq(|s|, i requires 0 <= i < |s| => LowerChar(s[i]))
  }

  /** `haystack.includes(needle)`: `needle` starts at some position of `haystack`. */
  predicate Contains(haystack: string, needle: string)
  {
    (|needle| <= |haystack| && haystack[..|needle|] == needle)
    || (|haystack| > 0 && Contains(haystack[1..], needle))
  }

  /** Case-insensitive `includes`, as the search boxes use it. */
  predicate Matches(text: string, term: string)
  {
    Contains(Lower(text), Lower(term))
  }
}
