/** Query strings as ordered key/value lists: `URLSearchParams.toString` without
    percent-encoding (`Join`) and its splitting back into pairs at the separators
    (`Parse`). Neither encodes nor decodes: `+`, `%xx` and a `#` fragment are plain
    characters here. */
module Query {

  type Pair = (string, string)

  function Entry(p: Pair): string {
    p.0 + "=" + p.1
  }

  /** `k1=v1&k2=v2&...`; the empty list gives the empty string. */
  function Join(pairs: seq<Pair>): string {
    if pairs == [] then ""
    else if |pairs| == 1 then Entry(pairs[0])
    else Entry(pairs[0]) + "&" + Join(pairs[1..])
  }

  /** The first position of `c` in `s`, or `|s|` when there is none. */
  function IndexOf(s: string, c: char): (i: nat)
    ensures i <= |s|
    ensures i < |s| ==> s[i] == c
    ensures forall j :: 0 <= j < i ==> s[j] != c
  {
    if s == [] || s[0] == c then 0 else 1 + IndexOf(s[1..], c)
  }

  /** The text between the `&` separators. */
  function Pieces(s: string): seq<string>
    decreases |s|
  {
    var i := IndexOf(s, '&');
    if i == |s| then [s] else [s[..i]] + Pieces(s[i + 1..])
  }

  /** One piece split at its first `=`; a piece without `=` is a key with an empty value. */
  function SplitEntry(piece: string): Pair {
    var i := IndexOf(piece, '=');
    if i == |piece| then (piece, "") else (piece[..i], piece[i + 1..])
  }

  /** The pairs of the non-empty pieces, in order. */
  function Entries(pieces: seq<string>): seq<Pair> {
    if pieces == [] then []
    else if pieces[0] == "" then Entries(pieces[1..])
    else [SplitEntry(pieces[0])] + Entries(pieces[1..])
  }

  /** Query text split back into pairs at `&` and the first `=` of each piece, with no
      `+` or `%xx` decoding. */
  function Parse(s: string): seq<Pair> {
    Entries(Pieces(s))
  }

  /** A pair that survives the trip through unencoded text: no separator in the
      key, no `&` in the value. */
  predicate Plain(p: Pair) {
    '&' !in p.0 && '=' !in p.0 && '&' !in p.1
  }

  lemma IndexOfAbsent(a: string, c: char)
    requires c !in a
    ensures IndexOf(a, c) == |a|
  {
  }

  lemma IndexOfAfter(a: string, c: char, b: string)
    requires c !in a
    ensures IndexOf(a + [c] + b, c) == |a|
  {
    var s := a + [c] + b;
    assert s[|a|] == c;
  }

  /** Cutting at the first `&`. */
  lemma PiecesCons(a: string, b: string)
    requires '&' !in a
    ensures Pieces(a + "&" + b) == [a] + Pieces(b)
  {
    var s := a + "&" + b;
    IndexOfAfter(a, '&', b);
    assert s[..|a|] == a;
    assert s[|a| + 1..] == b;
  }

  lemma EntryRoundTrip(p: Pair)
    requires Plain(p)
    ensures Entry(p) != "" && '&' !in Entry(p)
    ensures SplitEntry(Entry(p)) == p
  {
    var s := Entry(p);
    IndexOfAfter(p.0, '=', p.1);
    assert s == p.0 + ['='] + p.1;
    assert s[..|p.0|] == p.0;
    assert s[|p.0| + 1..] == p.1;
  }

  lemma ParseSingle(e: string)
    requires e != "" && '&' !in e
    ensures Parse(e) == [SplitEntry(e)]
  {
    IndexOfAbsent(e, '&');
    assert Pieces(e) == [e];
    assert [e][1..] == [];
    assert Entries([e]) == [SplitEntry(e)] + Entries([]);
  }

  lemma ParseCons(e: string, rest: string)
    requires e != "" && '&' !in e
    ensures Parse(e + "&" + rest) == [SplitEntry(e)] + Parse(rest)
  {
    PiecesCons(e, rest);
    var ps := [e] + Pieces(rest);
    assert ps[0] == e && ps[1..] == Pieces(rest);
  }

  /** Joining pairs that hold no separators and parsing the result gives the pairs back. */
  lemma {:induction false} ParseJoin(pairs: seq<Pair>)
    requires forall i :: 0 <= i < |pairs| ==> Plain(pairs[i])
    ensures Parse(Join(pairs)) == pairs
    decreases |pairs|
  {
    if pairs == [] {
      IndexOfAbsent("", '&');
      assert Pieces("") == [""];
    } else {
      EntryRoundTrip(pairs[0]);
      if |pairs| == 1 {
        ParseSingle(Entry(pairs[0]));
        assert pairs == [pairs[0]];
      } else {
        ParseCons(Entry(pairs[0]), Join(pairs[1..]));
        ParseJoin(pairs[1..]);
        assert pairs == [pairs[0]] + pairs[1..];
      }
    }
  }
}
