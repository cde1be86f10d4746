/**
 * The typewriter effect of index.js (`initTypewriter`) and presentationF/pres.js: each tick types or
 * deletes one character of the current word into the `#dynamic` element and says how long to wait
 * before the next tick.
 */
module Typewriter {

  const TypeSpeed: nat := 80
  const DeleteSpeed: nat := 50
  const Pause: nat := 1200

  /** The word list of index.js. */
  const HomeWords: seq<string> := ["Web", "Application", "Front-end", "Mobile", "Back-end"]

  /** The word list of presentationF/pres.js. */
  const PresentationWords: seq<string> := ["Web", "Application", "Frontend", "Mobile", "Backend"]

  /** A usable word list: not empty, and no word empty. */
  predicate WordsOk(words: seq<string>)
  {
    |words| > 0 && forall i :: 0 <= i < |words| ==> |words[i]| > 0
  }

  lemma WordListsOk()
    ensures WordsOk(HomeWords) && WordsOk(PresentationWords)
  {
  }

  /** `wordIndex`, `charIndex` and `typing` between two ticks. */
  datatype Phase = Phase(wordIndex: nat, charIndex: nat, typing: bool)

  /** `words[wordIndex % words.length]` */
  function Current(words: seq<string>, wordIndex: nat): (w: string)
    requires |words| > 0
    ensures w in words
  {
    words[wordIndex % |words|]
  }

  /**
   * Between ticks the typed count stays within the word; while typing the word is not complete,
   * while deleting it is not empty.
   */
  predicate PhaseOk(words: seq<string>, p: Phase)
  {
    && WordsOk(words)
    && p.charIndex <= |Current(words, p.wordIndex)|
    && (p.typing ==> p.charIndex < |Current(words, p.wordIndex)|)
    && (!p.typing ==> p.charIndex > 0)
  }

  /** `current.slice(0, charIndex)` for the phase's word. */
  function Shown(words: seq<string>, p: Phase): string
    requires PhaseOk(words, p)
  {
    Current(words, p.wordIndex)[..p.charIndex]
  }

  /** One `tick()`: the next phase and the delay before the next tick. */
  function Step(words: seq<string>, p: Phase): (r: (Phase, nat))
    requires PhaseOk(words, p)
    ensures PhaseOk(words, r.0)
    ensures p.typing && r.0.typing ==> r.0 == Phase(p.wordIndex, p.charIndex + 1, true) && r.1 == TypeSpeed
    ensures p.typing && !r.0.typing ==> r.0.charIndex == |Current(words, p.wordIndex)| && r.0.wordIndex == p.wordIndex && r.1 == Pause
    ensures !p.typing && !r.0.typing ==> r.0 == Phase(p.wordIndex, p.charIndex - 1, false) && r.1 == DeleteSpeed
    ensures !p.typing && r.0.typing ==> r.0 == Phase(p.wordIndex + 1, 0, true) && r.1 == 400
  {
    var current := Current(words, p.wordIndex);
    if p.typing then
      var c := p.charIndex + 1;
      if c == |current| then (Phase(p.wordIndex, c, false), Pause)
      else (Phase(p.wordIndex, c, true), TypeSpeed)
    else
      var c := p.charIndex - 1;
      if c == 0 then (Phase(p.wordIndex + 1, 0, true), Pause / 3)
      else (Phase(p.wordIndex, c, false), DeleteSpeed)
  }

  /** The phase after `n` ticks. */
  function Steps(words: seq<string>, p: Phase, n: nat): (r: Phase)
    requires PhaseOk(words, p)
    ensures PhaseOk(words, r)
    decreases n
  {
    if n == 0 then p else Steps(words, Step(words, p).0, n - 1)
  }

  lemma {:induction false} StepsAdd(words: seq<string>, p: Phase, a: nat, b: nat)
    requires PhaseOk(words, p)
    ensures Steps(words, p, a + b) == Steps(words, Steps(words, p, a), b)
    decreases a
  {
    if a > 0 {
      StepsAdd(words, Step(words, p).0, a - 1, b);
    }
  }

  lemma {:induction false} TypeUp(words: seq<string>, i: nat, c: nat, k: nat)
    requires WordsOk(words) && c + k < |Current(words, i)|
    ensures Steps(words, Phase(i, c, true), k) == Phase(i, c + k, true)
    decreases k
  {
    if k > 0 {
      TypeUp(words, i, c + 1, k - 1);
    }
  }

  lemma {:induction false} DeleteDown(words: seq<string>, i: nat, c: nat, k: nat)
    requires WordsOk(words) && k < c <= |Current(words, i)|
    ensures Steps(words, Phase(i, c, false), k) == Phase(i, c - k, false)
    decreases k
  {
    if k > 0 {
      DeleteDown(words, i, c - 1, k - 1);
    }
  }

  /**
   * A word is typed out and deleted again in twice its length of ticks, after which the next word
   * starts from nothing.
   */
  lemma WordCycle(words: seq<string>, i: nat)
    requires WordsOk(words)
    ensures var n := |Current(words, i)|;
      && Steps(words, Phase(i, 0, true), n) == Phase(i, n, false)
      && Steps(words, Phase(i, 0, true), 2 * n) == Phase(i + 1, 0, true)
  {
    var n := |Current(words, i)|;
    TypeUp(words, i, 0, n - 1);
    StepsAdd(words, Phase(i, 0, true), n - 1, 1);
    DeleteDown(words, i, n, n - 1);
    StepsAdd(words, Phase(i, 0, true), n, n - 1);
    StepsAdd(words, Phase(i, 0, true), 2 * n - 1, 1);
  }

  /** The effect bound to one element. */
  class Typewriter {
    const words: seq<string>
    var wordIndex: nat
    var charIndex: nat
    var typing: bool
    var text: string   // the element's `textContent`

    ghost predicate Valid()
      reads this
    {
      PhaseOk(words, Phase(wordIndex, charIndex, typing)) && text == Shown(words, Phase(wordIndex, charIndex, typing))
    }

    constructor (words: seq<string>)
      requires WordsOk(words)
      ensures Valid()
      ensures this.words == words && wordIndex == 0 && charIndex == 0 && typing && text == ""
    {
      this.words := words;
      wordIndex, charIndex, typing := 0, 0, true;
      text := "";
    }

    /** `tick()`; returns the delay it schedules the next tick with. */
    method Tick() returns (delay: nat)
      requires Valid()
      modifies this
      ensures Valid()
      ensures (Phase(wordIndex, charIndex, typing), delay) == Step(words, old(Phase(wordIndex, charIndex, typing)))
    {
      var current := words[wordIndex % |words|];
      if typing {
        charIndex := charIndex + 1;
        text := current[..charIndex];
        if charIndex == |current| {
          typing := false;
          delay := Pause;
          return;
        }
        delay := TypeSpeed;
      } else {
        charIndex := charIndex - 1;
        text := current[..charIndex];
        if charIndex == 0 {
          typing := true;
          wordIndex := wordIndex + 1;
          delay := Pause / 3;
          return;
        }
        delay := DeleteSpeed;
      }
    }
  }

  /**
   * Starting the effect: nothing happens without the `#dynamic` element; otherwise the first tick
   * runs at once and shows the first letter of the first word.
   */
  method Start(hasElement: bool, words: seq<string>) returns (t: Typewriter?, delay: nat)
    requires WordsOk(words)
    ensures hasElement <==> t != null
    ensures t != null ==> fresh(t) && t.Valid() && t.words == words
    ensures t != null ==> t.wordIndex == 0 && t.charIndex == 1 && t.text == words[0][..1]
    ensures t != null ==> delay == (if |words[0]| == 1 then Pause else TypeSpeed)
  {
    if !hasElement {
      return null, 0;
    }
    t := new Typewriter(words);
    delay := t.Tick();
  }
}
