/**
 * Scroll reveal of script.js and legacy/script.js (`initScrollReveal`): an element gets the
 * `revealed` class once its box reaches 100 pixels above the bottom of the window while its bottom
 * is still below the top. The class is only ever added.
 */
module ScrollReveal {

  const RevealPoint: real := 100.0

  /** An element's `getBoundingClientRect()`, as far as reveal reads it. */
  datatype Rect = Rect(top: real, bottom: real)

  /** `top < windowHeight - revealPoint && bottom > 0` */
  predicate InView(r: Rect, windowHeight: int)
  {
    r.top < windowHeight as real - RevealPoint && r.bottom > 0.0
  }

  /** Which elements carry `revealed` after one pass, given which carried it before. */
  function Revealed(before: seq<bool>, rects: seq<Rect>, windowHeight: int): (after: seq<bool>)
    requires |before| == |rects|
    ensures |after| == |before|
  {
    seq(|before|, i requires 0 <= i < |before| => before[i] || InView(rects[i], windowHeight))
  }

  /** A pass never removes the class, and adds it to exactly the elements in view. */
  lemma RevealedSpec(before: seq<bool>, rects: seq<Rect>, windowHeight: int)
    requires |before| == |rects|
    ensures forall i :: 0 <= i < |before| && before[i] ==> Revealed(before, rects, windowHeight)[i]
    ensures forall i :: 0 <= i < |before| && !before[i] ==>
      (Revealed(before, rects, windowHeight)[i] <==> InView(rects[i], windowHeight))
  {
  }

  /** A second pass with the same layout changes nothing. */
  lemma RevealedIdempotent(before: seq<bool>, rects: seq<Rect>, windowHeight: int)
    requires |before| == |rects|
    ensures Revealed(Revealed(before, rects, windowHeight), rects, windowHeight) == Revealed(before, rects, windowHeight)
  {
  }

  /** Passes at different scroll positions add up: an element stays revealed once any pass revealed it. */
  lemma RevealedAccumulates(before: seq<bool>, rects1: seq<Rect>, h1: int, rects2: seq<Rect>, h2: int)
    requires |before| == |rects1| == |rects2|
    ensures forall i :: 0 <= i < |before| ==>
      (Revealed(Revealed(before, rects1, h1), rects2, h2)[i] <==> before[i] || InView(rects1[i], h1) || InView(rects2[i], h2))
  {
  }

  /** `reveal()`: one pass over the elements. */
  method Reveal(revealed: array<bool>, rects: seq<Rect>, windowHeight: int)
    requires revealed.Length == |rects|
    modifies revealed
    ensures revealed[..] == Revealed(old(revealed[..]), rects, windowHeight)
  {
    var i := 0;
    while i < revealed.Length
      invariant 0 <= i <= revealed.Length
      invariant forall j :: 0 <= j < i ==> revealed[j] == (old(revealed[j]) || InView(rects[j], windowHeight))
      invariant forall j :: i <= j < revealed.Length ==> revealed[j] == old(revealed[j])
    {
      if rects[i].top < windowHeight as real - RevealPoint && rects[i].bottom > 0.0 {
        revealed[i] := true;
      }
      i := i + 1;
    }
  }

  /**
   * The throttled reveal of legacy/script.js: a scroll or resize asks for an animation frame only
   * when `ticking` is false, and the frame's pass clears it, so at most one frame is ever pending.
   */
  class Revealer {
    const revealed: array<bool>
    var ticking: bool
    var pendingFrames: nat  // frames requested with `requestAnimationFrame` and not yet run

    ghost predicate Valid()
      reads this
    {
      pendingFrames == (if ticking then 1 else 0)
    }

    /** The setup's own first pass, with nothing pending. */
    constructor (revealed: array<bool>, rects: seq<Rect>, windowHeight: int)
      requires revealed.Length == |rects|
      modifies revealed
      ensures Valid() && !ticking
      ensures this.revealed == revealed
      ensures revealed[..] == Revealed(old(revealed[..]), rects, windowHeight)
    {
      this.revealed := revealed;
      ticking := false;
      pendingFrames := 0;
      new;
      Reveal(revealed, rects, windowHeight);
    }

    /** `handleScroll`, bound to both scroll and resize. */
    method HandleScroll()
      requires Valid()
      modifies this
      ensures Valid() && ticking && pendingFrames == 1
      ensures old(ticking) ==> pendingFrames == old(pendingFrames)
    {
      if !ticking {
        pendingFrames := pendingFrames + 1;
        ticking := true;
      }
    }

    /** The requested frame runs `reveal` with the layout of that moment. */
    method Frame(rects: seq<Rect>, windowHeight: int)
      requires Valid() && pendingFrames > 0
      requires revealed.Length == |rects|
      modifies this, revealed
      ensures Valid() && !ticking && pendingFrames == 0
      ensures revealed[..] == Revealed(old(revealed[..]), rects, windowHeight)
    {
      pendingFrames := pendingFrames - 1;
      Reveal(revealed, rects, windowHeight);
      ticking := false;
    }
  }

  /** legacy/script.js's setup: with no elements it returns before registering anything. */
  method Start(revealed: array<bool>, rects: seq<Rect>, windowHeight: int) returns (r: Revealer?)
    requires revealed.Length == |rects|
    modifies revealed
    ensures revealed.Length == 0 <==> r == null
    ensures r != null ==> fresh(r) && r.Valid() && !r.ticking && r.revealed == revealed
    ensures revealed[..] == if revealed.Length == 0 then old(revealed[..]) else Revealed(old(revealed[..]), rects, windowHeight)
  {
    if revealed.Length == 0 {
      return null;
    }
    r := new Revealer(revealed, rects, windowHeight);
  }
}
