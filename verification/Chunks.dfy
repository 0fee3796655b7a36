/** Pseudo-streaming cuts every text into pieces of 200 characters. */
module Chunks {

  const Width := 200

  /** `s[i : i + 200] for i in range(0, len(s), 200)` */
  function Pieces(s: string): seq<string> {
    if s == "" then [] else if |s| <= Width then [s] else [s[..Width]] + Pieces(s[Width..])
  }

  /** `... for i in range(0, max(len(s), 1), 200)`: the empty text still gives one piece. */
  function AtLeastOne(s: string): seq<string> {
    if s == "" then [""] else Pieces(s)
  }

  function Folded(pieces: seq<string>): string {
    if pieces == [] then "" else pieces[0] + Folded(pieces[1..])
  }

  /** Folding the pieces gives the text back; none is longer than 200, and all but the last are full. */
  lemma {:induction false} PiecesFold(s: string)
    ensures Folded(Pieces(s)) == s
    ensures |Pieces(s)| == (|s| + 199) / 200
    ensures forall i | 0 <= i < |Pieces(s)| ::
      0 < |Pieces(s)[i]| <= 200 && (i + 1 < |Pieces(s)| ==> |Pieces(s)[i]| == 200)
  {
    if |s| > Width {
      PiecesFold(s[Width..]);
      assert Pieces(s)[1..] == Pieces(s[Width..]);
      assert s == s[..Width] + s[Width..];
    } else if s != "" {
      assert Pieces(s)[1..] == [] && s + "" == s;
    }
  }

  lemma AtLeastOneFolds(s: string)
    ensures Folded(AtLeastOne(s)) == s && AtLeastOne(s) != []
  {
    PiecesFold(s);
    if s == "" { assert [""][1..] == []; }
  }

  /** One round of the slicing loop. */
  lemma SliceOf(s: string, i: nat)
    requires i < |s|
    ensures
      var upto := if i + Width <= |s| then i + Width else |s|;
      Pieces(s[i..]) == [s[i..upto]] + Pieces(if i + Width <= |s| then s[i + Width..] else "")
  {
    var rest := s[i..];
    if |rest| > Width {
      assert rest[..Width] == s[i..i + Width] && rest[Width..] == s[i + Width..];
    } else {
      assert rest == s[i..|s|];
      assert |rest| == Width ==> s[i + Width..] == "";
      assert [rest] + [] == [rest];
    }
  }
}
