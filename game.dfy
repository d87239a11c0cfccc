/** The round state machine of the game: the secret word, the guessed letters,
    the wrong-guess counter and the two score counters, updated in place by a
    guess and by the start of a new round. */
module Hangman {
  import opened Wrappers
  import opened Text
  import opened Words
  import opened Display
  import opened Definitions
  import opened Scores

  /** Wrong guesses that lose a round. */
  const MaxWrong := 6
  /** Parts of the hangman drawing. */
  const PartCount := 6
  /** Calls of the word source before a new round is given up. */
  const MaxAttempts := 5

  /** Every letter of `word` is among `guessed` (the win test of a guess). */
  predicate AllGuessed(word: string, guessed: set<char>) {
    forall i :: 0 <= i < |word| ==> word[i] in guessed
  }

  /** A non-empty word is not guessed before any letter is. */
  lemma NothingGuessedYet(word: string)
    requires word != ""
    ensures !AllGuessed(word, {})
  {
    var none: set<char> := {};
    assert word[0] !in none;
    assert !AllGuessed(word, none);
  }

  /** A round is won when every letter of a non-empty word is guessed. */
  predicate IsWon(word: string, guessed: set<char>) {
    word != "" && AllGuessed(word, guessed)
  }

  /** A round is lost when the wrong guesses reach the limit. */
  predicate IsLost(wrong: nat) {
    wrong >= MaxWrong
  }

  /** What holds of a round between two events: the word is lower-case, every
      guessed letter is in it and its button is pressed, the drawing shows one
      part per wrong guess, and a finished round (won or lost, never both) has
      every button disabled. */
  ghost predicate RoundInvariant(word: string, guessed: set<char>, pressed: set<char>,
                                 allDisabled: bool, wrong: nat, parts: set<nat>)
  {
    && IsWord(word)
    && (forall c :: c in guessed ==> c in word)
    && guessed <= pressed
    && wrong <= MaxWrong
    && parts == PartsUpTo(wrong)
    && (IsWon(word, guessed) || IsLost(wrong) ==> allDisabled)
    && !(IsWon(word, guessed) && IsLost(wrong))
  }

  /** The hangman parts shown after `n` wrong guesses: the first `n`. */
  function PartsUpTo(n: nat): set<nat> {
    if n == 0 then {} else PartsUpTo(n - 1) + {n - 1}
  }

  /** A value `fetchRandomWord` can return: `null` or a lower-case word. */
  predicate IsFetchResult(r: Option<string>) {
    r.Some? ==> IsWord(r.value)
  }

  /** The retry loop of `resetGame`: call the word source until it gives a
      non-empty word, at most `MaxAttempts` times; `results[j]` is what the
      `j`-th call returns. Returns the number of calls made and the last result. */
  method FetchWithRetry(results: seq<Option<string>>) returns (tries: nat, word: Option<string>)
    requires |results| >= MaxAttempts
    ensures 1 <= tries <= MaxAttempts
    ensures word == results[tries - 1]
    ensures forall j :: 0 <= j < tries - 1 ==> !Loaded(results[j])
    ensures !Loaded(word) ==> tries == MaxAttempts
  {
    word := None;
    tries := 0;
    while tries < MaxAttempts
      invariant 0 <= tries <= MaxAttempts
      invariant forall j :: 0 <= j < tries ==> !Loaded(results[j])
      invariant tries > 0 ==> word == results[tries - 1]
    {
      word := results[tries];
      tries := tries + 1;
      if Loaded(word) {
        break;
      }
    }
  }

  class Game {
    var chosenWord: string
    var guessedLetters: set<char>
    var wrongGuesses: nat
    var wins: int
    var losses: int
    /** The browser's local storage. */
    var storage: map<string, string>
    /** The text of the word area. */
    var wordText: string
    /** The text of the hint area; `None` when it is cleared. */
    var hint: Option<string>
    /** The letters whose buttons were disabled one by one when pressed. */
    var pressed: set<char>
    /** Every letter button is disabled (or none exists yet). */
    var allDisabled: bool
    /** The hangman parts made visible. */
    var shownParts: set<nat>

    /** The button of `c` can be pressed. */
    predicate Enabled(c: char)
      reads this
    {
      !allDisabled && c !in pressed
    }

    /** Every letter of a non-empty word is guessed. */
    ghost predicate Won()
      reads this
    {
      IsWon(chosenWord, guessedLetters)
    }

    /** The wrong guesses have used up the drawing. */
    ghost predicate Lost()
      reads this
    {
      IsLost(wrongGuesses)
    }

    ghost predicate Valid()
      reads this
    {
      RoundInvariant(chosenWord, guessedLetters, pressed, allDisabled, wrongGuesses, shownParts)
    }

    /** The module-level state at page load followed by `loadScores`; no letter
        button exists until the first round is started. */
    constructor (store: map<string, string>)
      ensures Valid()
      ensures chosenWord == "" && guessedLetters == {} && wrongGuesses == 0
      ensures storage == store
      ensures wins == LoadCounter(store, WinsKey) && losses == LoadCounter(store, LossesKey)
      ensures allDisabled && pressed == {} && shownParts == {} && hint == None && wordText == ""
    {
      chosenWord := "";
      guessedLetters := {};
      wrongGuesses := 0;
      wins := 0;
      losses := 0;
      storage := store;
      wordText := "";
      hint := None;
      pressed := {};
      allDisabled := true;
      shownParts := {};
      new;
      LoadScores();
    }

    /** `loadScores`: read both counters from the store. */
    method LoadScores()
      modifies this`wins, this`losses
      ensures wins == LoadCounter(storage, WinsKey)
      ensures losses == LoadCounter(storage, LossesKey)
    {
      wins := LoadCounter(storage, WinsKey);
      losses := LoadCounter(storage, LossesKey);
    }

    /** `saveScores`: write both counters to the store. */
    method SaveScores()
      modifies this`storage
      ensures storage == Scores.SaveScores(old(storage), wins, losses)
    {
      storage := Scores.SaveScores(storage, wins, losses);
    }

    /** `handleGuess`: the player pressed the enabled button of `letter`; `dictionary`
        is what the dictionary service answers for each word it is asked about;
        a requested hint is about `chosenWord`. Returns whether
        a hint was requested. */
    method HandleGuess(letter: char, dictionary: string -> DictReply) returns (hintRequested: bool)
      requires Valid()
      requires Enabled(letter)
      modifies this
      ensures Valid()
      ensures old(!Won() && !Lost())
      ensures chosenWord == old(chosenWord)
      // a correct guess adds a new letter and leaves the wrong counter alone
      ensures letter in chosenWord ==>
        && letter !in old(guessedLetters)
        && guessedLetters == old(guessedLetters) + {letter}
        && wrongGuesses == old(wrongGuesses)
        && shownParts == old(shownParts)
      // a wrong guess adds exactly one to the counter and shows one more part
      ensures letter !in chosenWord ==>
        && guessedLetters == old(guessedLetters)
        && wrongGuesses == old(wrongGuesses) + 1
        && 0 <= wrongGuesses - 1 < PartCount
        && shownParts == old(shownParts) + {wrongGuesses - 1}
      // the hint is requested exactly at the wrong guess that leaves one try
      ensures hintRequested <==> letter !in chosenWord && MaxWrong - wrongGuesses == 1
      ensures hint == if hintRequested then Some(Hint(dictionary(chosenWord))) else None
      // the round is won exactly when a correct guess completes the word
      ensures Won() <==> letter in chosenWord && AllGuessed(chosenWord, guessedLetters)
      ensures Lost() <==> wrongGuesses == MaxWrong
      // a finished round adds one to exactly one counter
      ensures wins == old(wins) + (if Won() then 1 else 0)
      ensures losses == old(losses) + (if Lost() then 1 else 0)
      ensures pressed == old(pressed) + {letter}
      ensures allDisabled <==> Won() || Lost()
      ensures storage == if Won() || Lost() then Scores.SaveScores(old(storage), wins, losses) else old(storage)
      ensures wordText ==
        if letter in chosenWord then Masked(chosenWord, guessedLetters)
        else if Lost() then Revealed(chosenWord)
        else old(wordText)
      ensures Won() || Lost() ==> wordText == Revealed(chosenWord)
    {
      assert !IsWon(chosenWord, guessedLetters) && !IsLost(wrongGuesses);
      assert RoundInvariant(chosenWord, guessedLetters, pressed + {letter}, allDisabled, wrongGuesses, shownParts);
      pressed, hint := pressed + {letter}, None;
      if letter in chosenWord {
        CorrectGuess(letter);
        hintRequested := false;
      } else {
        hintRequested := WrongGuess(letter, dictionary(chosenWord));
      }
    }

    /** The branch of `handleGuess` for a letter of the word, entered once the
        letter's button is disabled. */
    method CorrectGuess(letter: char)
      requires Valid() && !Won() && !Lost()
      requires letter in chosenWord && letter !in guessedLetters && letter in pressed && !allDisabled
      modifies this
      ensures Valid()
      ensures chosenWord == old(chosenWord) && wrongGuesses == old(wrongGuesses)
      ensures shownParts == old(shownParts) && hint == old(hint)
      ensures guessedLetters == old(guessedLetters) + {letter}
      ensures Won() <==> AllGuessed(chosenWord, guessedLetters)
      ensures !Lost()
      ensures wins == old(wins) + (if Won() then 1 else 0) && losses == old(losses)
      ensures pressed == old(pressed) && (allDisabled <==> Won())
      ensures storage == if Won() then Scores.SaveScores(old(storage), wins, losses) else old(storage)
      ensures wordText == Masked(chosenWord, guessedLetters)
      ensures Won() ==> wordText == Revealed(chosenWord)
    {
      var guessed := guessedLetters + {letter};
      WordHasNoSpace(chosenWord);
      var text := WordDisplay(chosenWord, guessed);
      var won := AllGuessed(chosenWord, guessed);
      assert RoundInvariant(chosenWord, guessed, pressed, won, wrongGuesses, shownParts);
      guessedLetters, wordText := guessed, text;
      if won {
        RevealedWhenAllGuessed(chosenWord, guessed);
        allDisabled, wins := true, wins + 1;
        SaveScores();
      }
    }

    /** The branch of `handleGuess` for a letter not in the word, entered once
        the letter's button is disabled; `reply` is the dictionary's answer about
        `chosenWord`. Returns whether a hint was requested. */
    method WrongGuess(letter: char, reply: DictReply) returns (hintRequested: bool)
      requires Valid() && !Won() && !Lost()
      requires letter !in chosenWord && !allDisabled
      modifies this
      ensures Valid()
      ensures chosenWord == old(chosenWord) && guessedLetters == old(guessedLetters)
      ensures wrongGuesses == old(wrongGuesses) + 1
      ensures 0 <= wrongGuesses - 1 < PartCount
      ensures shownParts == old(shownParts) + {wrongGuesses - 1}
      ensures hintRequested <==> MaxWrong - wrongGuesses == 1
      ensures hint == if hintRequested then Some(Hint(reply)) else old(hint)
      ensures !Won()
      ensures Lost() <==> wrongGuesses == MaxWrong
      ensures wins == old(wins) && losses == old(losses) + (if Lost() then 1 else 0)
      ensures pressed == old(pressed) && (allDisabled <==> Lost())
      ensures storage == if Lost() then Scores.SaveScores(old(storage), wins, losses) else old(storage)
      ensures wordText == if Lost() then Revealed(chosenWord) else old(wordText)
    {
      var wrong := wrongGuesses + 1;
      var parts := shownParts;
      if wrong <= PartCount {
        parts := parts + {wrong - 1};
      }
      assert RoundInvariant(chosenWord, guessedLetters, pressed, wrong >= MaxWrong, wrong, parts);
      hintRequested := MaxWrong - wrong == 1;
      if hintRequested {
        hint := Some(Hint(reply));
      }
      wrongGuesses, shownParts := wrong, parts;
      if wrong >= MaxWrong {
        wordText, allDisabled, losses := Revealed(chosenWord), true, losses + 1;
        SaveScores();
      }
    }

    /** `resetGame`: clear the round, re-create the letter buttons and ask the
        word source up to `MaxAttempts` times for a non-empty word; `results[j]`
        is what the `j`-th call of `fetchRandomWord(difficulty)` returns. Returns the number of calls
        made and whether a word was loaded. */
    method Reset(results: seq<Option<string>>) returns (tries: nat, loaded: bool)
      requires Valid()
      requires |results| >= MaxAttempts
      requires forall j :: 0 <= j < |results| ==> IsFetchResult(results[j])
      modifies this
      ensures Valid()
      ensures !Won() && !Lost()
      ensures guessedLetters == {} && wrongGuesses == 0 && shownParts == {}
      ensures pressed == {} && !allDisabled && hint == None
      ensures wins == old(wins) && losses == old(losses) && storage == old(storage)
      // calls stop at the first non-empty word, and there are at most MaxAttempts
      ensures 1 <= tries <= MaxAttempts
      ensures forall j :: 0 <= j < tries - 1 ==> !Loaded(results[j])
      ensures loaded <==> Loaded(results[tries - 1])
      ensures loaded ==>
        && chosenWord == results[tries - 1].value
        && wordText == Masked(chosenWord, {})
      // after MaxAttempts failures the old word stays
      ensures !loaded ==> tries == MaxAttempts && chosenWord == old(chosenWord) && wordText == old(wordText)
    {
      ClearRound();
      var word;
      tries, word := FetchWithRetry(results);
      loaded := Loaded(word);
      if loaded {
        WordHasNoSpace(word.value);
        var text := WordDisplay(word.value, {});
        NothingGuessedYet(word.value);
        assert RoundInvariant(word.value, {}, {}, false, 0, {});
        chosenWord, wordText := word.value, text;
      }
    }

    /** The first part of `resetGame`: clear the hint, the guesses, the wrong
        counter and the drawing, and re-create all letter buttons enabled. */
    method ClearRound()
      requires Valid()
      modifies this
      ensures Valid()
      ensures guessedLetters == {} && wrongGuesses == 0 && shownParts == {}
      ensures pressed == {} && !allDisabled && hint == None
      ensures chosenWord == old(chosenWord) && wordText == old(wordText)
      ensures wins == old(wins) && losses == old(losses) && storage == old(storage)
    {
      if chosenWord != "" {
        NothingGuessedYet(chosenWord);
      }
      assert RoundInvariant(chosenWord, {}, {}, false, 0, {});
      hint, guessedLetters, wrongGuesses, shownParts, pressed, allDisabled := None, {}, 0, {}, {}, false;
    }
  }
}
