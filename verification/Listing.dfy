/** Words listed in one text with ", " between them, and how a reader takes the text apart. */
module Listing {

  const SEPARATOR := ", "

  /** `words.join(', ')` */
  function JoinComma(words: seq<string>): string {
    if words == [] then ""
    else if |words| == 1 then words[0]
    else words[0] + SEPARATOR + JoinComma(words[1..])
  }

  /** The text is these words, all of them and in this order, with ", " between them. */
  predicate Spells(text: string, words: seq<string>)
    decreases |words|
  {
    && words != [] && words[0] <= text
    && var rest := text[|words[0]|..];
       if |words| == 1 then rest == ""
       else |rest| >= 2 && rest[0] == ',' && rest[1] == ' ' && Spells(rest[2..], words[1..])
  }

  lemma {:induction false} JoinSpells(words: seq<string>)
    requires words != []
    ensures Spells(JoinComma(words), words)
    decreases |words|
  {
    if |words| > 1 {
      JoinSpells(words[1..]);
      assert JoinComma(words)[|words[0]|..] == SEPARATOR + JoinComma(words[1..]);
    }
  }

  // ---------- taking it apart ----------

  predicate SeparatorAt(s: string, i: nat) {
    i + 2 <= |s| && s[i] == ',' && s[i + 1] == ' '
  }

  predicate NoSeparator(s: string) {
    forall i: nat :: i < |s| ==> !SeparatorAt(s, i)
  }

  /** The place of the first separator, or the end. */
  function FirstSeparator(s: string): (i: nat)
    ensures i <= |s|
    ensures i < |s| ==> SeparatorAt(s, i)
    ensures forall j: nat :: j < i ==> !SeparatorAt(s, j)
  {
    if s == [] || SeparatorAt(s, 0) then 0
    else
      var i := FirstSeparator(s[1..]);
      assert forall j: nat :: 0 < j && SeparatorAt(s, j) ==> SeparatorAt(s[1..], j - 1);
      i + 1
  }

  /** `text.split(', ')` */
  function Pieces(s: string): seq<string>
    decreases |s|
  {
    var i := FirstSeparator(s);
    if i == |s| then [s] else [s[..i]] + Pieces(s[i + 2..])
  }

  /** Words without a separator come back out of the text as they went in. */
  lemma {:induction false} PiecesOfJoin(words: seq<string>)
    requires words != [] && forall k :: 0 <= k < |words| ==> NoSeparator(words[k])
    ensures Pieces(JoinComma(words)) == words
    decreases |words|
  {
    var text, word := JoinComma(words), words[0];
    var i := FirstSeparator(text);
    if |words| == 1 {
      assert i == |text|;
    } else {
      var rest := JoinComma(words[1..]);
      assert text == word + SEPARATOR + rest;
      assert SeparatorAt(text, |word|);
      forall j: nat | j < |word| ensures !SeparatorAt(text, j) {
        assert !SeparatorAt(word, j);
      }
      assert i == |word| && text[..i] == word && text[i + 2..] == rest;
      PiecesOfJoin(words[1..]);
    }
  }
}
