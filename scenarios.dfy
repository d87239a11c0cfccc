/** Clients of the game's contracts: a reset fed by `fetchRandomWord` itself, the
    word "cat" guessed letter by letter, and the same word lost to its fifth and
    sixth wrong letters. */
module Scenarios {
  import opened Wrappers
  import opened Definitions
  import opened Words
  import opened Hangman
  import Display

  /** `resetGame(difficulty)` with each of its calls of `fetchRandomWord` made by
      `Words.FetchRandomWord` on one attempt: the word adopted is the normalised
      first word of the service's reply for that attempt. */
  method ResetFromService(g: Game, difficulty: string, attempts: seq<Attempt>)
    returns (tries: nat, loaded: bool)
    requires g.Valid() && |attempts| >= MaxAttempts
    requires forall j :: 0 <= j < |attempts| ==> IsRandom(attempts[j].random)
    modifies g
    ensures g.Valid() && !g.Won() && !g.Lost()
    ensures 1 <= tries <= MaxAttempts
    ensures forall j :: 0 <= j < tries - 1 ==> !Loaded(FetchRandomWord(difficulty, attempts[j]))
    ensures g.guessedLetters == {} && g.wrongGuesses == 0 && g.shownParts == {}
    ensures g.pressed == {} && !g.allDisabled && g.hint == None
    ensures g.wins == old(g.wins) && g.losses == old(g.losses) && g.storage == old(g.storage)
    ensures loaded <==> Loaded(FetchRandomWord(difficulty, attempts[tries - 1]))
    ensures loaded ==> g.chosenWord == FetchRandomWord(difficulty, attempts[tries - 1]).value
    ensures loaded ==> g.wordText == Display.Masked(g.chosenWord, {})
    ensures !loaded ==> tries == MaxAttempts && g.chosenWord == old(g.chosenWord)
    ensures !loaded ==> g.wordText == old(g.wordText)
  {
    var results := seq(|attempts|, j requires 0 <= j < |attempts| && IsRandom(attempts[j].random) =>
      FetchRandomWord(difficulty, attempts[j]));
    assert forall j :: 0 <= j < |attempts| ==> results[j] == FetchRandomWord(difficulty, attempts[j]);
    tries, loaded := g.Reset(results);
  }

  method WinScenario(store: map<string, string>, dictionary: string -> DictReply) {
    var g := new Game(store);
    var w0 := g.wins;
    var results := [Some("cat"), None, None, None, None];
    assert Loaded(results[0]);
    var tries, loaded := g.Reset(results);
    assert tries == 1 && loaded && g.chosenWord == "cat";
    var h := g.HandleGuess('t', dictionary);
    assert !g.Won() by { assert g.chosenWord[1] !in g.guessedLetters; }
    h := g.HandleGuess('c', dictionary);
    assert !g.Won() by { assert g.chosenWord[1] !in g.guessedLetters; }
    h := g.HandleGuess('a', dictionary);
    assert g.Won() && g.wins == w0 + 1 && g.wrongGuesses == 0;
  }

  /** The end of a lost round: "cat" with four wrong guesses made, then two more. */
  method LossScenario(g: Game, dictionary: string -> DictReply)
    requires g.Valid() && g.chosenWord == "cat" && g.wrongGuesses == 4
    requires g.Enabled('v') && g.Enabled('b')
    modifies g
  {
    var l0 := g.losses;
    var h := g.HandleGuess('v', dictionary);
    assert h && g.hint == Some(Hint(dictionary("cat"))) && g.wrongGuesses == 5 && g.losses == l0;
    h := g.HandleGuess('b', dictionary);
    assert !h && g.Lost() && g.losses == l0 + 1 && g.wordText == Display.Revealed("cat");
  }
}
