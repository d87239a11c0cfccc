/** The text of the word area: the masked word while a round is played, the
    spelled-out word when it is revealed. */
module Display {
  import opened Text

  /** What one position of the word shows: the letter once it is guessed, `_` before. */
  function Token(c: char, guessed: set<char>): char {
    if c in guessed then c else '_'
  }

  /** The masked word: one token per letter of `word`, joined by single spaces. */
  function Masked(word: string, guessed: set<char>): string {
    if |word| == 0 then []
    else if |word| == 1 then [Token(word[0], guessed)]
    else Masked(word[..|word| - 1], guessed) + [' ', Token(word[|word| - 1], guessed)]
  }

  /** The layout of the masked word: even positions hold the tokens of the word's
      letters in order, odd positions single spaces, and nothing trails. */
  lemma {:induction false} MaskedLayout(word: string, guessed: set<char>)
    ensures |Masked(word, guessed)| == if word == [] then 0 else 2 * |word| - 1
    ensures forall k :: 0 <= k < |Masked(word, guessed)| ==>
      Masked(word, guessed)[k] == if k % 2 == 0 then Token(word[k / 2], guessed) else ' '
  {
    if |word| > 1 {
      var w := word[..|word| - 1];
      MaskedLayout(w, guessed);
      var m := Masked(word, guessed);
      forall k | 0 <= k < |m|
        ensures m[k] == if k % 2 == 0 then Token(word[k / 2], guessed) else ' '
      {
        if k < |Masked(w, guessed)| {
          assert m[k] == Masked(w, guessed)[k];
          assert k / 2 < |w| && w[k / 2] == word[k / 2];
        }
      }
    }
  }

  /** The string the display loop accumulates before trimming: every token followed by a space. */
  function Spaced(word: string, guessed: set<char>): string {
    if word == [] then []
    else Spaced(word[..|word| - 1], guessed) + [Token(word[|word| - 1], guessed), ' ']
  }

  lemma {:induction false} SpacedIsMaskedPlusSpace(word: string, guessed: set<char>)
    requires word != []
    ensures Spaced(word, guessed) == Masked(word, guessed) + [' ']
  {
    if |word| > 1 {
      SpacedIsMaskedPlusSpace(word[..|word| - 1], guessed);
    }
  }

  /** No character of `word` is white space. */
  predicate NoSpace(word: string) {
    forall i :: 0 <= i < |word| ==> !IsSpace(word[i])
  }

  /** A word of lower-case letters holds no white space. */
  lemma WordHasNoSpace(word: string)
    requires IsWord(word)
    ensures NoSpace(word)
  {
    forall i | 0 <= i < |word|
      ensures !IsSpace(word[i])
    {
      assert IsLowerLetter(word[i]);
    }
  }

  /** `updateWordDisplay`: the loop that builds the word area's text. */
  method WordDisplay(word: string, guessed: set<char>) returns (display: string)
    ensures NoSpace(word) ==> display == Masked(word, guessed)
  {
    var acc := "";
    for i := 0 to |word|
      invariant acc == Spaced(word[..i], guessed)
    {
      assert word[..i + 1][..i] == word[..i];
      acc := acc + (if word[i] in guessed then [word[i], ' '] else "_ ");
    }
    assert word[..|word|] == word;
    display := Trim(acc);
    if NoSpace(word) {
      TrimSpaced(word, guessed);
    }
  }

  /** Trimming the accumulated string drops exactly the one trailing space. */
  lemma TrimSpaced(word: string, guessed: set<char>)
    requires NoSpace(word)
    ensures Trim(Spaced(word, guessed)) == Masked(word, guessed)
  {
    if word != [] {
      SpacedIsMaskedPlusSpace(word, guessed);
      MaskedLayout(word, guessed);
      var m := Masked(word, guessed);
      var acc := Spaced(word, guessed);
      assert m[0] == Token(word[0], guessed);
      assert !IsSpace(acc[0]);
      assert TrimStart(acc) == acc;
      assert m[|m| - 1] == Token(word[|word| - 1], guessed);
      assert acc[..|m|] == m;
      assert TrimEnd(m) == m;
    }
  }

  /** `revealWord`: the letters of the word joined by single spaces. */
  function Revealed(word: string): string {
    if |word| <= 1 then word
    else Revealed(word[..|word| - 1]) + [' ', word[|word| - 1]]
  }

  /** Once every letter is guessed the masked word reads exactly as the revealed word. */
  lemma {:induction false} RevealedWhenAllGuessed(word: string, guessed: set<char>)
    requires forall i :: 0 <= i < |word| ==> word[i] in guessed
    ensures Masked(word, guessed) == Revealed(word)
  {
    if |word| > 1 {
      RevealedWhenAllGuessed(word[..|word| - 1], guessed);
    }
  }
}
