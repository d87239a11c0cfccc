# Hangman round logic in Dafny

This project models the game logic of a browser hangman game (`script.js`).
The player guesses letters of a hidden word. Each wrong guess shows one more of
the six parts of the hangman drawing. The round is won when every letter of the
word is guessed and lost at the sixth wrong guess. A dictionary hint is fetched
when one try is left. Wins and losses are counted in the browser's local storage.

Modules, one per component of the script:

- `Text`: JavaScript white space, `trim`, and the character classes used elsewhere.
- `Words`: the word source. It maps a difficulty to word lengths and picks one with
  `Math.random()`. It turns the word-list service's reply into a lower-case word.
- `Display`: the word area. This is the masked word built by `updateWordDisplay`
  and the spelled-out word of `revealWord`.
- `Definitions`: how `fetchDefinition` picks the hint text from the dictionary reply.
- `Scores`: `loadScores` / `saveScores` over a string-to-string store. Counters are
  written as decimal text and read back with `parseInt(...) || 0`.
- `Hangman`: the module-level round state as a `Game` class. `HandleGuess` models
  `handleGuess` and `Reset` models `resetGame`. `RoundInvariant` is the invariant every
  method keeps: the word is lower-case; guessed letters are in it and their buttons
  are pressed; one drawing part is shown per wrong guess; a won or lost round (never
  both) has all buttons disabled.
- `Scenarios`: three client methods. One resets a round with words drawn by
  `Words.FetchRandomWord`. One plays a round of "cat" to a win. The other
  makes the fifth and sixth wrong guesses of a lost round. All use only the contracts.

Inputs from outside the script are parameters:

- the word-list service's reply and the random number (`Words.Attempt`);
- the results of the five `fetchRandomWord` calls that `resetGame` may make (`Reset`'s `results`);
- the dictionary service, as its reply for each word (`HandleGuess`'s `dictionary`);
- the initial local storage (the `Game` constructor's `store`).

The letter buttons are modelled as two fields. `pressed` holds the buttons disabled
one at a time when clicked. `allDisabled` records `disableAllButtons`. Before the
first `resetGame` no button exists, so the constructor sets `allDisabled`.
`HandleGuess` requires the letter's button to be enabled, because `handleGuess` is
only ever called from the click handler of an enabled button.

Behaviours of the script the model follows, which a reader might not expect:

- A failed `resetGame` (five empty or missing words) still clears the guesses, the
  wrong counter and the drawing, and re-creates all 26 buttons enabled. It returns
  before `updateWordDisplay`, so `chosenWord` and the word area's text both keep their
  old values. After a finished round the old revealed word stays on screen while every
  button is enabled again, and that old word can be played again. At page load the old
  word is empty, so every guess is wrong and six clicks record a loss.
- The loaded word's length is not checked against the difficulty. Only the requested
  length is in the tier's set (`Words.ChosenLength`). Normalisation can shorten the word.
- `fetchDefinition` has two placeholders: "No definition available." and "No
  definition found.". A first meaning without a `definitions` list throws inside the
  loop, so it gives the first placeholder.
- A loaded counter can be negative (`parseInt("-3")`). The counters are `int`.

## Model

| member | source | states |
|---|---|---|
| `Text.Trim` | script.js:97 | The result is the part of the input between a prefix and a suffix made only of white space, and has no white space at either end. A string that has none at its ends is unchanged. |
| `Words.LengthOptions` | script.js:66-69 | Every tier gets 2 to 4 consecutive lengths, all in 3..10. |
| `Words.TiersPartitionLengths` | script.js:66-69 | Each length 3..10 belongs to exactly one of easy {3,4}, medium {5,6}, hard {7..10}. Any other selector value gets the hard lengths. |
| `Words.RandomIndex` | script.js:71 | `Math.floor(u * k)` with `0 <= u < 1` is a valid index: at least 0 and below `k`. |
| `Words.ChosenLength` | script.js:66-71 | The requested length is always a member of the tier's length list. |
| `Words.Normalize` | script.js:83 | The result has only the letters a-z and is no longer than the input. |
| `Words.NormalizeKeepsWord` | script.js:83 | A string of a-z letters is left unchanged. |
| `Words.NormalizeIdempotent` | script.js:83 | Normalising twice gives the same result as normalising once. |
| `Words.NormalizeConcat` | script.js:83 | Normalisation works character by character: the result for `a + b` is the result for `a` followed by the result for `b`. |
| `Words.NormalizeLetters` | script.js:83 | A character is in the result if and only if it is in a-z and some input character lower-cases to it. |
| `Words.WordFromReply` | script.js:76-89 | A word comes back exactly when the reply is a non-empty array. It is then the first element lower-cased with everything outside a-z removed, so an a-z word no longer than that element; otherwise the result is `null`. |
| `Words.FetchRandomWord` | script.js:65-90 | One call returns `null` or a lower-case word. It is non-null exactly when the service's reply for the chosen length is a non-empty array, and it is then that reply's first word, normalised. |
| `Display.MaskedLayout` | script.js:92-98 | The masked word has `2n-1` characters for `n` letters. Even positions hold, in order, each letter if guessed or `_` if not. Odd positions hold single spaces, and there is no trailing space. |
| `Display.TrimSpaced` | script.js:94-97 | Trimming the accumulated "token + space" string removes exactly the final space and leaves the masked word. |
| `Display.WordDisplay` | script.js:92-98 | The loop of `updateWordDisplay` followed by `trim()` produces the masked word for any word without white space. |
| `Display.RevealedWhenAllGuessed` | script.js:166-168 | Once every letter is guessed, the masked word reads exactly as `revealWord`'s text. |
| `Definitions.FirstTruthy` | script.js:55-57 | The search finds the first definition with non-empty text: all earlier ones are empty. No result means all are empty. |
| `Definitions.Hint` | script.js:44-63 | The hint is never empty. A failed request, or a first meaning without a definitions list, gives "No definition available.". A non-array, an empty array or an empty meanings list gives "No definition found.". |
| `Definitions.HintIsFirstDefinition` | script.js:53-57 | When the first meaning has a definitions list, the hint is its first definition with non-empty text. |
| `Definitions.HintWithoutDefinition` | script.js:53-59 | When every definition of the first meaning is empty, the hint is "No definition found.". |
| `Scores.IntToString` | script.js:36-37 | The stored text of a counter is non-empty. It starts with `-` exactly when the counter is negative and is all digits otherwise. |
| `Scores.LoadCounter` | script.js:31-32 | A value `parseInt` can read loads as that number. A missing key or a value `parseInt` cannot read loads as 0. |
| `Scores.SaveScores` | script.js:35-37 | Saving writes both counter keys and leaves every other key of the store as it was. |
| `Scores.ParseIntOfString` | script.js:31-37 | `parseInt` of a stored counter, followed by any non-digit text, gives back the counter. |
| `Scores.LoadAfterSave` | script.js:30-37 | Loading both counters right after saving them gives back the saved values. |
| `Hangman.FetchWithRetry` | script.js:182-186 | At most 5 calls are made. Every call before the last returned `null` or "". The loop stops at the first non-empty word, and uses all 5 calls only when none was loaded. |
| `Hangman.Game.constructor` | script.js:1-6 | The game starts with an empty word, no guesses, no wrong guesses, counters loaded from the store, and no usable button. |
| `Hangman.Game.LoadScores` | script.js:30-34 | Both counters are set to what the store holds under their keys, with missing or unreadable values read as 0. |
| `Hangman.Game.SaveScores` | script.js:35-39 | The store becomes the old store with both counters written. |
| `Hangman.Game.HandleGuess` | script.js:116-160 | Takes a guess on a round in progress and keeps the invariant. A correct guess adds a new letter and leaves the wrong counter and drawing alone. A wrong guess adds exactly 1 to the counter and shows part `wrongGuesses - 1`, which lies in [0, 6). The hint is requested exactly when one try is left, and it is the dictionary's hint for the secret word. The round is won exactly when a correct guess completes the word, and lost exactly when the counter reaches 6. A win adds 1 to wins only and a loss adds 1 to losses only. A finished round disables all buttons, saves both counters and shows the revealed word. |
| `Hangman.Game.CorrectGuess` | script.js:120-134 | Adds the letter, redraws the masked word, and wins (all buttons disabled, wins + 1, scores saved) exactly when every letter is guessed. |
| `Hangman.Game.WrongGuess` | script.js:135-159 | Adds 1 to the wrong counter and shows the next part. Fetches the hint exactly at 5 wrong guesses. Loses (word revealed, all buttons disabled, losses + 1, scores saved) exactly at 6. |
| `Hangman.Game.ClearRound` | script.js:171-179 | Clears the hint, the guesses, the wrong counter and the drawing, and enables all buttons. Word, scores and store are untouched. |
| `Hangman.Game.Reset` | script.js:170-194 | Starts a fresh round that is neither won nor lost. Makes 1 to 5 fetch calls, stopping at the first non-empty word, which becomes the word with an all-`_` display. After 5 failures the old word and display stay. Scores are untouched. |
| `Scenarios.ResetFromService` | script.js:181-191 | With every call of `fetchRandomWord(difficulty)` made by `Words.FetchRandomWord`, the reset makes 1 to 5 calls, every call before the last gave no word, and the word adopted is the normalised first word of the service's reply to the last call. The round is cleared as by `Reset`: no guesses, no wrong guesses, no drawing, no hint, all buttons enabled, scores and store untouched. A loaded word is shown all `_`; after 5 failures the old word and its display stay. |

## Left out

- Presentation: messages, the text of the scoreboard, CSS classes and visibility of the drawing, and button creation. The drawing is the set of shown part indices. The buttons are the `pressed` set and the `allDisabled` flag.
- Audio cues: these are side effects only.
- Network requests and JSON parsing: the replies are abstract inputs (`WordReply`, `DictReply`, `Option<string>` results).
- `Math.random()`: it is a real number in [0, 1) given as input.
- Asynchronous interleaving: the model runs each event to completion. In the script, a sixth wrong guess clicked while the fifth guess is still waiting for its hint records the loss twice, because the fifth guess's continuation also sees 6 wrong guesses. A late hint can also overwrite the hint area of a finished round. And `resetGame` enables all 26 buttons before it waits for the word: guesses clicked while it loads act on the old `chosenWord` and can record a win or a loss, and those guesses, the wrong counter and the drawing then carry into the new round, so a guessed letter need not be in the new word. None of these is modelled.
- Changing the difficulty selector: it calls `resetGame` the same way the reset button does. `difficulty` only feeds `fetchRandomWord`, which is modelled on its own (`Words.FetchRandomWord`).
- Words.Normalize: `toLowerCase` is modelled for ASCII letters only. A non-ASCII character that lower-cases to a-z (the Kelvin sign, the dotted capital I) is dropped rather than kept.
- Scores.LoadCounter: `parseInt` is modelled for decimal text only. A `0x` hexadecimal prefix, and numbers too large to be exact in floating point, are not modelled.
- JSON `null` inside a dictionary reply: a `null` first meaning or a `null` definition record makes `fetchDefinition` throw and show "No definition available.". `Definitions.Meaning` and `Definitions.Def` cannot represent `null`, so this path is not modelled. A `null` first entry behaves like an entry without meanings, which is modelled.
- Scores.IntToString: the exponent notation JavaScript uses for integers of 10^21 and above is not modelled.
