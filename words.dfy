/** The word source: length tiers, the random length pick, normalisation of the
    word-list service's reply, and one fetch attempt. */
module Words {
  import opened Wrappers
  import opened Text

  /** The word lengths a difficulty asks for: "easy" and "medium" have their own,
      every other value of the selector gets the hard lengths. */
  function LengthOptions(difficulty: string): (r: seq<nat>)
    ensures 2 <= |r| <= 4
    ensures forall i :: 0 <= i < |r| ==> 3 <= r[i] <= 10
    ensures forall i :: 0 < i < |r| ==> r[i] == r[i - 1] + 1
  {
    if difficulty == "easy" then [3, 4]
    else if difficulty == "medium" then [5, 6]
    else [7, 8, 9, 10]
  }

  /** The three tiers split the lengths 3..10 between them: each such length
      belongs to exactly one tier, and an unknown tier behaves as "hard". */
  lemma TiersPartitionLengths(n: nat, other: string)
    requires other != "easy" && other != "medium"
    ensures 3 <= n <= 10 <==> n in LengthOptions("easy") || n in LengthOptions("medium") || n in LengthOptions("hard")
    ensures !(n in LengthOptions("easy") && n in LengthOptions("medium"))
    ensures !(n in LengthOptions("easy") && n in LengthOptions("hard"))
    ensures !(n in LengthOptions("medium") && n in LengthOptions("hard"))
    ensures LengthOptions(other) == LengthOptions("hard")
  {
  }

  /** A value `Math.random()` can return. */
  predicate IsRandom(u: real) { 0.0 <= u < 1.0 }

  /** `Math.floor(u * k)`: the index picked with a random number `u`. */
  function RandomIndex(u: real, k: nat): (i: nat)
    requires IsRandom(u) && 0 < k
    ensures i < k
  {
    var x := u * k as real;
    assert 0.0 <= x < k as real;
    x.Floor
  }

  /** The word length requested from the service for a difficulty and a random number. */
  function ChosenLength(difficulty: string, u: real): (n: nat)
    requires IsRandom(u)
    ensures n in LengthOptions(difficulty)
    ensures 3 <= n <= 10
  {
    var options := LengthOptions(difficulty);
    options[RandomIndex(u, |options|)]
  }

  /** Lower-casing of one character (ASCII letters only). */
  function Lower(c: char): char {
    if 'A' <= c <= 'Z' then (c as int + 32) as char else c
  }

  /** `toLowerCase()` followed by removing every character outside a-z. */
  function Normalize(s: string): (r: string)
    ensures IsWord(r)
    ensures |r| <= |s|
  {
    if s == [] then []
    else
      var c := Lower(s[0]);
      (if IsLowerLetter(c) then [c] else []) + Normalize(s[1..])
  }

  /** A word is left alone by normalisation. */
  lemma {:induction false} NormalizeKeepsWord(s: string)
    requires IsWord(s)
    ensures Normalize(s) == s
  {
    if s != [] {
      NormalizeKeepsWord(s[1..]);
    }
  }

  /** Normalising twice is normalising once. */
  lemma NormalizeIdempotent(s: string)
    ensures Normalize(Normalize(s)) == Normalize(s)
  {
    NormalizeKeepsWord(Normalize(s));
  }

  /** Normalisation works character by character. */
  lemma {:induction false} NormalizeConcat(a: string, b: string)
    ensures Normalize(a + b) == Normalize(a) + Normalize(b)
  {
    if a != [] {
      assert (a + b)[1..] == a[1..] + b;
      NormalizeConcat(a[1..], b);
    } else {
      assert a + b == b;
    }
  }

  /** A character survives normalisation exactly when it is a lower-case letter
      that some character of the input lower-cases to. */
  lemma {:induction false} NormalizeLetters(s: string, c: char)
    ensures c in Normalize(s) <==> IsLowerLetter(c) && exists i :: 0 <= i < |s| && Lower(s[i]) == c
  {
    if s != [] {
      NormalizeLetters(s[1..], c);
      if exists i :: 0 <= i < |s[1..]| && Lower(s[1..][i]) == c {
        var i :| 0 <= i < |s[1..]| && Lower(s[1..][i]) == c;
        assert Lower(s[i + 1]) == c;
      }
      if exists i :: 0 <= i < |s| && Lower(s[i]) == c {
        var i :| 0 <= i < |s| && Lower(s[i]) == c;
        if i > 0 {
          assert Lower(s[1..][i - 1]) == c;
        }
      }
    }
  }

  /** What the word-list service answered: `Failed` when the request was rejected,
      the body was not JSON or not an array, or its first element was not a string;
      otherwise the array of words. */
  datatype WordReply = Failed | Words(items: seq<string>)

  /** The word `fetchRandomWord` returns for a reply; `None` stands for `null`. */
  function WordFromReply(reply: WordReply): (r: Option<string>)
    ensures r.Some? <==> reply.Words? && reply.items != []
    ensures r.Some? ==> IsWord(r.value) && |r.value| <= |reply.items[0]|
    ensures r.Some? ==> r.value == Normalize(reply.items[0])
  {
    if reply.Words? && |reply.items| > 0 then Some(Normalize(reply.items[0])) else None
  }

  /** One call of `fetchRandomWord`: the random number it draws and the service's
      reply to a request for each length. */
  datatype Attempt = Attempt(random: real, service: nat -> WordReply)

  /** The result of one call of `fetchRandomWord(difficulty)`. */
  function FetchRandomWord(difficulty: string, a: Attempt): (r: Option<string>)
    requires IsRandom(a.random)
    ensures r.Some? ==> IsWord(r.value)
    ensures var reply := a.service(ChosenLength(difficulty, a.random));
      && (r.Some? <==> reply.Words? && reply.items != [])
      && (r.Some? ==> r.value == Normalize(reply.items[0]))
  {
    WordFromReply(a.service(ChosenLength(difficulty, a.random)))
  }

  /** JavaScript truthiness of the value `fetchRandomWord` returns: neither `null` nor "". */
  predicate Loaded(w: Option<string>) { w.Some? && w.value != "" }
}
