/** The string operations the catalogue search relies on: `toLowerCase` (as ASCII
    case folding) and `includes` (substring search), each with its reference definition. */
module Text {

  /** ASCII case folding of one character. */
  function LowerChar(c: char): char {
    if 'A' <= c <= 'Z' then (c as int + 32) as char else c
  }

  /** `s.toLowerCase()`, restricted to ASCII letters. */
  function Lower(s: string): (r: string)
    ensures |r| == |s|
    ensures forall i :: 0 <= i < |s| ==> r[i] == LowerChar(s[i])
  {
    if s == [] then [] else [LowerChar(s[0])] + Lower(s[1..])
  }

  /** Folding twice is folding once. */
  lemma LowerIdempotent(s: string)
    ensures Lower(Lower(s)) == Lower(s)
  {
    assert forall i :: 0 <= i < |s| ==> Lower(Lower(s))[i] == Lower(s)[i];
  }

  /** Reference definition: `needle` occurs somewhere in `hay`. */
  ghost predicate IsInfix(needle: string, hay: string) {
    exists i :: 0 <= i <= |hay| && needle <= hay[i..]
  }

  /** `hay.includes(needle)`: try every start position from the left. */
  function Includes(hay: string, needle: string): bool
    decreases |hay|
  {
    if needle <= hay then true
    else if hay == [] then false
    else Includes(hay[1..], needle)
  }

  /** The search agrees with the reference definition on every input. */
  lemma {:induction false} IncludesIsInfix(hay: string, needle: string)
    ensures Includes(hay, needle) <==> IsInfix(needle, hay)
    decreases |hay|
  {
    if needle <= hay {
      assert hay[0..] == hay;
    } else if hay == [] {
      assert forall i :: 0 <= i <= |hay| ==> hay[i..] == hay;
    } else {
      IncludesIsInfix(hay[1..], needle);
      if IsInfix(needle, hay) {
        var i :| 0 <= i <= |hay| && needle <= hay[i..];
        assert hay[0..] == hay;
        assert i != 0;
        assert hay[1..][i - 1..] == hay[i..];
      }
      if IsInfix(needle, hay[1..]) {
        var j :| 0 <= j <= |hay[1..]| && needle <= hay[1..][j..];
        assert hay[1..][j..] == hay[j + 1..];
      }
    }
  }
}
