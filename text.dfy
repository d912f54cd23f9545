/** String helpers used by the wallet app: substring search (JavaScript's
    `String.prototype.includes`) and upper-casing (`toUpperCase`), the latter
    restricted to the ASCII letters. */
module Text {

  /** `sub` occurs in `s` starting at position `i`. */
  predicate OccursAt(s: string, sub: string, i: nat)
  {
    i + |sub| <= |s| && s[i..i + |sub|] == sub
  }

  /** `s.includes(sub)`: scans the start positions of `s` from left to right. */
  function Contains(s: string, sub: string): (r: bool)
    ensures r <==> exists i: nat :: i <= |s| && OccursAt(s, sub, i)
  {
    if |sub| <= |s| && s[..|sub|] == sub then
      assert OccursAt(s, sub, 0);
      true
    else if s == [] then
      false
    else
      var r := Contains(s[1..], sub);
      if r then
        var i: nat :| i <= |s[1..]| && OccursAt(s[1..], sub, i);
        assert OccursAt(s, sub, i + 1);
        true
      else
        assert forall i: nat :: 1 <= i <= |s| && OccursAt(s, sub, i) ==> OccursAt(s[1..], sub, i - 1);
        false
  }

  predicate IsLower(c: char)
  {
    'a' <= c <= 'z'
  }

  /** Upper-case of one character: the 26 ASCII lower-case letters move to
      their capitals, every other character is left alone. */
  function UpperChar(c: char): (u: char)
    ensures !IsLower(u)
    ensures IsLower(c) ==> u as int == c as int - 32
    ensures !IsLower(c) ==> u == c
  {
    if IsLower(c) then (c as int - 32) as char else c
  }

  /** `s.toUpperCase()` over ASCII: position by position. */
  function Upper(s: string): (r: string)
    ensures |r| == |s|
    ensures forall i :: 0 <= i < |s| ==> r[i] == UpperChar(s[i])
  {
    if s == [] then [] else [UpperChar(s[0])] + Upper(s[1..])
  }

  /** Upper-casing twice is upper-casing once. */
  lemma UpperIdempotent(s: string)
    ensures Upper(Upper(s)) == Upper(s)
  {
  }

  /** The result of upper-casing holds no lower-case ASCII letter, and a
      string without any is left unchanged. */
  lemma UpperFixesCapitals(s: string)
    ensures forall i :: 0 <= i < |s| ==> !IsLower(Upper(s)[i])
    ensures (forall i :: 0 <= i < |s| ==> !IsLower(s[i])) ==> Upper(s) == s
  {
  }
}
