/** The string operations of the main page's search: `toLowerCase` and
    `includes`. Lower-casing is modelled on ASCII letters only. */
module Text {

  predicate IsUpper(c: char)
  {
    'A' <= c <= 'Z'
  }

  function LowerChar(c: char): (d: char)
    ensures !IsUpper(d)
    ensures IsUpper(c) ==> d as int == c as int + 32
    ensures !IsUpper(c) ==> d == c
  {
    if IsUpper(c) then (c as int + 32) as char else c
  }

  /** `String.prototype.toLowerCase` restricted to ASCII: every upper-case
      letter becomes its lower-case letter, every other character stays. */
  function ToLower(s: string): (r: string)
    ensures |r| == |s|
    ensures forall i :: 0 <= i < |s| ==> r[i] == LowerChar(s[i])
  {
    seq(|s|, i requires 0 <= i < |s| => LowerChar(s[i]))
  }

  /** Lower-casing twice is lower-casing once. */
  lemma ToLowerIdempotent(s: string)
    ensures ToLower(ToLower(s)) == ToLower(s)
  {
  }

  /** `needle` occurs in `hay` starting at position `i`. */
  ghost predicate OccursAt(hay: string, needle: string, i: int)
  {
    0 <= i && i + |needle| <= |hay| && hay[i..i + |needle|] == needle
  }

  /** `String.prototype.includes`: `needle` is a substring of `hay`. */
  function Includes(hay: string, needle: string): (r: bool)
    ensures r <==> exists i :: OccursAt(hay, needle, i)
    decreases |hay|
  {
    if |needle| > |hay| then false
    else if hay[..|needle|] == needle then
      assert OccursAt(hay, needle, 0);
      true
    else if Includes(hay[1..], needle) then
      assert exists j :: OccursAt(hay, needle, j) by {
        var i :| OccursAt(hay[1..], needle, i);
        OccursShift(hay, needle, i + 1);
      }
      true
    else
      assert forall i :: !OccursAt(hay, needle, i) by {
        forall i ensures !OccursAt(hay, needle, i) {
          if i > 0 {
            OccursShift(hay, needle, i);
          }
        }
      }
      false
  }

  /** An occurrence past the first character is an occurrence in the tail. */
  lemma OccursShift(hay: string, needle: string, i: int)
    requires |hay| > 0 && i > 0
    ensures OccursAt(hay, needle, i) <==> OccursAt(hay[1..], needle, i - 1)
  {
    if i + |needle| <= |hay| {
      assert hay[1..][i - 1..i - 1 + |needle|] == hay[i..i + |needle|];
    }
  }

  /** The empty string is a substring of every string. */
  lemma IncludesEmpty(hay: string)
    ensures Includes(hay, "")
  {
    assert OccursAt(hay, "", 0);
  }
}
