/**
 * The typewriter effect of src/components/sections/HeroSection.tsx. Each
 * timeout tick types one more character of the current word, or deletes
 * one; a fully typed word switches to deleting, and a fully deleted word
 * switches back to typing the next word, wrapping around the list.
 */
module Typewriter {

  /** `typingWords`. */
  const TypingWords: seq<string> := ["an Engineer", "a Developer", "a Gamer"]

  /** The four state variables of the effect. */
  datatype TypeState = TypeState(wordIndex: nat, charIndex: nat, isDeleting: bool, text: string)

  /** The initial state: word 0, no characters, typing. */
  const Initial: TypeState := TypeState(0, 0, false, "")

  /**
   * The invariant: the word index is in range, the character index is
   * within the current word, and the text shown is the current word cut to
   * the character index.
   */
  ghost predicate WellFormed(words: seq<string>, s: TypeState) {
    |words| > 0 &&
    s.wordIndex < |words| &&
    s.charIndex <= |words[s.wordIndex]| &&
    s.text == words[s.wordIndex][..s.charIndex]
  }

  /**
   * One tick of the timeout callback. A typing tick at full length stands
   * for the pause timer that later sets `isDeleting`.
   */
  function Next(words: seq<string>, s: TypeState): (t: TypeState)
    requires WellFormed(words, s)
    ensures WellFormed(words, t)
    ensures t.text <= words[t.wordIndex]
    ensures !s.isDeleting && s.charIndex < |words[s.wordIndex]| ==> t.charIndex == s.charIndex + 1
    ensures s.isDeleting && s.charIndex > 0 ==> t.charIndex + 1 == s.charIndex
    ensures s.isDeleting && s.charIndex == 0 ==> t.wordIndex == (s.wordIndex + 1) % |words| && !t.isDeleting
    ensures !(s.isDeleting && s.charIndex == 0) ==> t.wordIndex == s.wordIndex
    ensures !s.isDeleting && t.isDeleting ==> s.charIndex == |words[s.wordIndex]| && t.charIndex == s.charIndex
    ensures !s.isDeleting && s.charIndex == |words[s.wordIndex]| ==> t.isDeleting && t.charIndex == s.charIndex
    ensures s.isDeleting && !t.isDeleting ==> s.charIndex == 0 && t.charIndex == 0
  {
    var currentWord := words[s.wordIndex];
    if s.isDeleting then
      if s.charIndex > 0 then
        TypeState(s.wordIndex, s.charIndex - 1, true, currentWord[..s.charIndex - 1])
      else
        TypeState((s.wordIndex + 1) % |words|, s.charIndex, false, s.text)
    else
      if s.charIndex < |currentWord| then
        TypeState(s.wordIndex, s.charIndex + 1, false, currentWord[..s.charIndex + 1])
      else
        TypeState(s.wordIndex, s.charIndex, true, s.text)
  }

  /** The state after `k` ticks. */
  function Steps(words: seq<string>, s: TypeState, k: nat): (t: TypeState)
    requires WellFormed(words, s)
    ensures WellFormed(words, t)
    decreases k
  {
    if k == 0 then s else Steps(words, Next(words, s), k - 1)
  }

  /** Running `a` ticks and then `b` more is running `a + b` ticks. */
  lemma {:induction false} StepsAdd(words: seq<string>, s: TypeState, a: nat, b: nat)
    requires WellFormed(words, s)
    ensures Steps(words, s, a + b) == Steps(words, Steps(words, s, a), b)
    decreases a
  {
    if a > 0 {
      StepsAdd(words, Next(words, s), a - 1, b);
    }
  }

  /** Typing from character `c` reaches the full word after `|word| - c` ticks. */
  lemma {:induction false} TypesOut(words: seq<string>, s: TypeState)
    requires WellFormed(words, s) && !s.isDeleting
    ensures Steps(words, s, |words[s.wordIndex]| - s.charIndex)
         == TypeState(s.wordIndex, |words[s.wordIndex]|, false, words[s.wordIndex])
    decreases |words[s.wordIndex]| - s.charIndex
  {
    var w := words[s.wordIndex];
    if s.charIndex < |w| {
      TypesOut(words, Next(words, s));
    } else {
      assert w[..|w|] == w;
    }
  }

  /** Deleting from character `c` reaches the empty text after `c` ticks. */
  lemma {:induction false} DeletesDown(words: seq<string>, s: TypeState)
    requires WellFormed(words, s) && s.isDeleting
    ensures Steps(words, s, s.charIndex) == TypeState(s.wordIndex, 0, true, "")
    decreases s.charIndex
  {
    if s.charIndex > 0 {
      DeletesDown(words, Next(words, s));
    }
  }

  /** The number of ticks one word takes: type it, flip, delete it, move on. */
  function CycleLength(word: string): nat {
    2 * |word| + 2
  }

  /**
   * A full cycle: from the start of word `i` (empty text, typing), after
   * `2 * |word| + 2` ticks the effect is at the start of word `(i + 1) mod n`.
   */
  lemma {:induction false} FullCycle(words: seq<string>, i: nat)
    requires |words| > 0 && i < |words|
    ensures WellFormed(words, TypeState(i, 0, false, ""))
    ensures Steps(words, TypeState(i, 0, false, ""), CycleLength(words[i]))
         == TypeState((i + 1) % |words|, 0, false, "")
  {
    var w := words[i];
    var s0 := TypeState(i, 0, false, "");
    assert w[..0] == "";
    TypesOut(words, s0);
    var typed := TypeState(i, |w|, false, w);
    var flipped := TypeState(i, |w|, true, w);
    assert Steps(words, typed, 1) == flipped;
    DeletesDown(words, flipped);
    var deleted := TypeState(i, 0, true, "");
    assert Steps(words, deleted, 1) == TypeState((i + 1) % |words|, 0, false, "");
    StepsAdd(words, s0, |w|, 1);
    StepsAdd(words, s0, |w| + 1, |w|);
    StepsAdd(words, s0, 2 * |w| + 1, 1);
  }

  /** The hero's words are visited in list order and wrap around to the first. */
  lemma WordOrder()
    ensures |TypingWords| == 3
    ensures Steps(TypingWords, Initial, CycleLength(TypingWords[0])).wordIndex == 1
    ensures Steps(TypingWords, TypeState(1, 0, false, ""), CycleLength(TypingWords[1])).wordIndex == 2
    ensures Steps(TypingWords, TypeState(2, 0, false, ""), CycleLength(TypingWords[2])).wordIndex == 0
  {
    FullCycle(TypingWords, 0);
    FullCycle(TypingWords, 1);
    FullCycle(TypingWords, 2);
  }

  /** The hero section's typing state, as the effect rewrites it tick by tick. */
  class Typewriter {
    const words: seq<string>
    var typingText: string
    var currentWordIndex: nat
    var currentCharIndex: nat
    var isDeleting: bool

    /** The four variables as one value. */
    function State(): TypeState
      reads this
    {
      TypeState(currentWordIndex, currentCharIndex, isDeleting, typingText)
    }

    ghost predicate Valid()
      reads this
    {
      WellFormed(words, State())
    }

    /** The first render: `useState("")`, `useState(0)`, `useState(0)`, `useState(false)` over `typingWords`. */
    constructor ()
      ensures words == TypingWords
      ensures Valid() && State() == Initial
    {
      words := TypingWords;
      typingText := "";
      currentWordIndex := 0;
      currentCharIndex := 0;
      isDeleting := false;
    }

    /** One firing of the effect's timeout callback. */
    method Tick()
      requires Valid()
      modifies this
      ensures Valid()
      ensures State() == Next(words, old(State()))
      ensures typingText == words[currentWordIndex][..currentCharIndex]
    {
      var currentWord := words[currentWordIndex];
      if isDeleting {
        if currentCharIndex > 0 {
          typingText := currentWord[..currentCharIndex - 1];
          currentCharIndex := currentCharIndex - 1;
        } else {
          isDeleting := false;
          currentWordIndex := (currentWordIndex + 1) % |words|;
        }
      } else {
        if currentCharIndex < |currentWord| {
          typingText := currentWord[..currentCharIndex + 1];
          currentCharIndex := currentCharIndex + 1;
        } else {
          isDeleting := true;
        }
      }
    }
  }
}
