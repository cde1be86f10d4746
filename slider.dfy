/**
 * The project-card image sliders of index.js, script.js, legacy/script.js and projet/projet.js:
 * a cyclic index over the card's slides moved by the prev and next buttons and, except in
 * projet/projet.js, by the arrow keys.
 */
module Slider {

  /** `(index - 1 + n) % n`; with `index` in range the dividend is never negative. */
  function PrevIndex(i: int, n: int): (r: int)
    requires 0 <= i < n
    ensures 0 <= r < n
    ensures r == if i == 0 then n - 1 else i - 1
  {
    (i - 1 + n) % n
  }

  /** `(index + 1) % n` */
  function NextIndex(i: int, n: int): (r: int)
    requires 0 <= i < n
    ensures 0 <= r < n
    ensures r == if i == n - 1 then 0 else i + 1
  {
    (i + 1) % n
  }

  /** prev undoes next and next undoes prev. */
  lemma PrevNextInverse(i: int, n: int)
    requires 0 <= i < n
    ensures PrevIndex(NextIndex(i, n), n) == i
    ensures NextIndex(PrevIndex(i, n), n) == i
  {
  }

  /** The index after `k` clicks on next. */
  function NextTimes(i: int, n: int, k: nat): (r: int)
    requires 0 <= i < n
    ensures 0 <= r < n
  {
    if k == 0 then i else NextIndex(NextTimes(i, n, k - 1), n)
  }

  /** Clicks on next compose: `a` clicks then `b` clicks are `a + b` clicks. */
  lemma {:induction false} NextTimesAdd(i: int, n: int, a: nat, b: nat)
    requires 0 <= i < n
    ensures NextTimes(i, n, a + b) == NextTimes(NextTimes(i, n, a), n, b)
    decreases b
  {
    if b > 0 {
      NextTimesAdd(i, n, a, b - 1);
    }
  }

  /** Before the end of the slides, `k` clicks on next move the index `k` slides forward. */
  lemma {:induction false} NextTimesForward(i: int, n: int, k: nat)
    requires 0 <= i && i + k < n
    ensures NextTimes(i, n, k) == i + k
  {
    if k > 0 {
      NextTimesForward(i, n, k - 1);
    }
  }

  /** `n - i` clicks on next take slide `i` to the first slide. */
  lemma WrapToFirst(i: int, n: int)
    requires 0 <= i < n
    ensures NextTimes(i, n, n - i) == 0
  {
    NextTimesForward(i, n, n - i - 1);
  }

  /** After wrapping around, `i + k - n` further clicks lead to slide `i + k - n`. */
  lemma PastTheEnd(i: int, n: int, k: nat)
    requires 0 <= i < n && n <= i + k < 2 * n
    ensures NextTimes(i, n, k) == i + k - n
  {
    WrapToFirst(i, n);
    NextTimesAdd(i, n, n - i, i + k - n);
    NextTimesForward(0, n, i + k - n);
  }

  /** `n` clicks on next come back to the slide the card was on, and no fewer clicks do. */
  lemma FullCycle(i: int, n: int)
    requires 0 <= i < n
    ensures NextTimes(i, n, n) == i
    ensures forall k :: 0 < k < n ==> NextTimes(i, n, k) != i
  {
    PastTheEnd(i, n, n);
    forall k | 0 < k < n ensures NextTimes(i, n, k) != i {
      if i + k < n {
        NextTimesForward(i, n, k);
      } else {
        PastTheEnd(i, n, k);
      }
    }
  }

  /** The slider of one card that was set up. */
  class Slider {
    const count: nat     // `slides.length`
    const hasPrev: bool  // the card has a `.pp-prev` button
    const hasNext: bool  // the card has a `.pp-next` button
    var index: int

    ghost predicate Valid()
      reads this
    {
      0 <= index < count
    }

    /** `let index = 0`, on a card with at least one slide. */
    constructor (count: nat, hasPrev: bool, hasNext: bool)
      requires count > 0
      ensures Valid()
      ensures this.count == count && this.hasPrev == hasPrev && this.hasNext == hasNext && index == 0
    {
      this.count, this.hasPrev, this.hasNext := count, hasPrev, hasNext;
      index := 0;
    }

    /** A click on the prev button. */
    method ClickPrev()
      requires Valid() && hasPrev
      modifies this
      ensures Valid() && index == PrevIndex(old(index), count)
    {
      index := (index - 1 + count) % count;
    }

    /** A click on the next button. */
    method ClickNext()
      requires Valid() && hasNext
      modifies this
      ensures Valid() && index == NextIndex(old(index), count)
    {
      index := (index + 1) % count;
    }

    /** A key press on the card: the arrows click their button when it exists; other keys do nothing. */
    method KeyDown(key: string)
      requires Valid()
      modifies this
      ensures Valid()
      ensures key == "ArrowLeft" && hasPrev ==> index == PrevIndex(old(index), count)
      ensures key == "ArrowRight" && hasNext ==> index == NextIndex(old(index), count)
      ensures !(key == "ArrowLeft" && hasPrev) && !(key == "ArrowRight" && hasNext) ==> index == old(index)
    {
      if key == "ArrowLeft" {
        if hasPrev {
          ClickPrev();
        }
      } else if key == "ArrowRight" {
        if hasNext {
          ClickNext();
        }
      }
    }
  }

  /** A `.pp-card` as the setup finds it. */
  datatype Card = Card(hasContainer: bool, slideCount: nat, hasPrev: bool, hasNext: bool)

  /** legacy/script.js sets a card up when it has an image container with at least one slide. */
  predicate GuardedOk(c: Card)
  {
    c.hasContainer && c.slideCount > 0
  }

  /**
   * index.js, script.js and projet/projet.js set a card up without checking it: a missing container or
   * button throws, and so does the first `updateSlider` with no slides (`slides[0]` is undefined).
   */
  predicate UnguardedOk(c: Card)
  {
    c.hasContainer && c.slideCount > 0 && c.hasPrev && c.hasNext
  }

  /** The cards legacy/script.js sets up, in document order. */
  function GuardedCards(cards: seq<Card>): (r: seq<Card>)
    ensures forall c :: c in r ==> c in cards && GuardedOk(c)
    ensures forall c :: c in cards && GuardedOk(c) ==> c in r
  {
    if cards == [] then []
    else
      var last := cards[|cards| - 1];
      GuardedCards(cards[..|cards| - 1]) + (if GuardedOk(last) then [last] else [])
  }

  /** Every card that passes the guard is set up once per occurrence, and no other card is. */
  lemma {:induction false} GuardedCardsCounts(cards: seq<Card>, c: Card)
    ensures multiset(GuardedCards(cards))[c] == if GuardedOk(c) then multiset(cards)[c] else 0
    decreases |cards|
  {
    if cards != [] {
      var n := |cards|;
      GuardedCardsCounts(cards[..n - 1], c);
      assert cards == cards[..n - 1] + [cards[n - 1]];
      assert multiset(cards) == multiset(cards[..n - 1]) + multiset{cards[n - 1]};
    }
  }

  /** The setup goes through the cards in document order: guarding a concatenation guards each part. */
  lemma {:induction false} GuardedCardsAppend(a: seq<Card>, b: seq<Card>)
    ensures GuardedCards(a + b) == GuardedCards(a) + GuardedCards(b)
    decreases |b|
  {
    if b == [] {
      assert a + b == a;
    } else {
      var n := |b|;
      GuardedCardsAppend(a, b[..n - 1]);
      assert (a + b)[..|a + b| - 1] == a + b[..n - 1];
      assert (a + b)[|a + b| - 1] == b[n - 1];
    }
  }

  /** Number of leading cards the unguarded setups get through before one throws. */
  function SetUpPrefix(cards: seq<Card>): (k: nat)
    ensures k <= |cards|
    ensures forall j :: 0 <= j < k ==> UnguardedOk(cards[j])
    ensures k < |cards| ==> !UnguardedOk(cards[k])
  {
    if cards == [] || !UnguardedOk(cards[0]) then 0 else 1 + SetUpPrefix(cards[1..])
  }

  /** The slider describes its card, at its first slide. */
  ghost predicate Describes(s: Slider, c: Card)
    reads s
  {
    s.Valid() && s.count == c.slideCount && s.hasPrev == c.hasPrev && s.hasNext == c.hasNext && s.index == 0
  }

  /** `initProjectSliders` of legacy/script.js: a card without container or slides is skipped, and the rest go on. */
  method SetUpGuarded(cards: seq<Card>) returns (sliders: seq<Slider>)
    ensures |sliders| == |GuardedCards(cards)|
    ensures forall j :: 0 <= j < |sliders| ==> fresh(sliders[j]) && Describes(sliders[j], GuardedCards(cards)[j])
  {
    sliders := [];
    var i := 0;
    while i < |cards|
      invariant 0 <= i <= |cards|
      invariant |sliders| == |GuardedCards(cards[..i])|
      invariant forall j :: 0 <= j < |sliders| ==> fresh(sliders[j]) && Describes(sliders[j], GuardedCards(cards[..i])[j])
    {
      assert cards[..i + 1][..i] == cards[..i];
      var c := cards[i];
      if c.hasContainer && c.slideCount > 0 {
        var s := new Slider(c.slideCount, c.hasPrev, c.hasNext);
        sliders := sliders + [s];
      }
      i := i + 1;
    }
    assert cards[..|cards|] == cards;
  }

  /**
   * `initProjectSliders` of index.js and script.js, and the `DOMContentLoaded` handler of projet/projet.js:
   * the cards are set up in order until one throws, which ends the setup for every later card.
   */
  method SetUpUnguarded(cards: seq<Card>) returns (sliders: seq<Slider>, threw: bool)
    ensures threw <==> exists j :: 0 <= j < |cards| && !UnguardedOk(cards[j])
    ensures |sliders| == SetUpPrefix(cards)
    ensures forall j :: 0 <= j < |sliders| ==> fresh(sliders[j]) && Describes(sliders[j], cards[j])
  {
    sliders := [];
    threw := false;
    var i := 0;
    while i < |cards|
      invariant 0 <= i <= |cards| && i <= SetUpPrefix(cards)
      invariant |sliders| == i
      invariant forall j :: 0 <= j < |sliders| ==> fresh(sliders[j]) && Describes(sliders[j], cards[j])
    {
      var c := cards[i];
      if !(c.hasContainer && c.slideCount > 0 && c.hasPrev && c.hasNext) {
        threw := true;
        return;
      }
      var s := new Slider(c.slideCount, c.hasPrev, c.hasNext);
      sliders := sliders + [s];
      i := i + 1;
    }
  }
}
