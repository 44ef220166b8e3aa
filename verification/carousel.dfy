/** The image carousel (`src/components/ImageCarousel.tsx`): the slide index, the autoplay
    timer, the previous/next controls and the dots. The index starts at 0 and is not reset when
    the list changes; every move goes through the same wrap-around steps as the lightbox. */
module Carousel {
  import opened Wrappers
  import opened Cycle

  /** The timer runs only when there is more than one slide; each tick is a forward step. */
  predicate Autoplays(length: nat) {
    length > 1
  }

  /** The previous/next buttons are rendered only with more than one slide and `showControls`. */
  predicate ControlsShown(length: nat, showControls: bool) {
    length > 1 && showControls
  }

  /** The dots likewise, with `showDots`. */
  predicate DotsShown(length: nat, showDots: bool) {
    length > 1 && showDots
  }

  datatype Input = Tick | PrevClick | NextClick | DotClick(dot: nat)

  /** The effect of one input on the index. `None` when the input cannot happen: no timer is
      running, or the button or dot is not on screen. */
  function Step(index: Index, length: nat, showControls: bool, showDots: bool, input: Input): (r: Option<Index>)
    ensures input == Tick ==> (r.Some? <==> Autoplays(length))
    ensures input in {PrevClick, NextClick} ==> (r.Some? <==> ControlsShown(length, showControls))
    ensures input.DotClick? ==> (r.Some? <==> DotsShown(length, showDots) && input.dot < length)
    ensures r.Some? && input in {Tick, NextClick} ==> r.value == Next(index, length)
    ensures r.Some? && input == PrevClick ==> r.value == Prev(index, length)
    ensures r.Some? && input.DotClick? ==> r.value == At(input.dot)
  {
    match input
    case Tick => if Autoplays(length) then Some(Next(index, length)) else None
    case PrevClick => if ControlsShown(length, showControls) then Some(Prev(index, length)) else None
    case NextClick => if ControlsShown(length, showControls) then Some(Next(index, length)) else None
    case DotClick(i) => if DotsShown(length, showDots) && i < length then Some(At(i)) else None
  }

  /** A run of inputs, skipping those that cannot happen. */
  function Run(index: Index, length: nat, showControls: bool, showDots: bool, inputs: seq<Input>): (r: Index)
    ensures InRange(index, length) ==> InRange(r, length)
    decreases |inputs|
  {
    if |inputs| == 0 then index
    else
      var next := Step(index, length, showControls, showDots, inputs[0]).GetOr(index);
      Run(next, length, showControls, showDots, inputs[1..])
  }

  /** Starting at 0, whatever happens the index names a slide, and it is never `NaN`. */
  lemma RunStaysInRange(length: nat, showControls: bool, showDots: bool, inputs: seq<Input>)
    requires length > 0
    ensures InRange(Run(At(0), length, showControls, showDots, inputs), length)
  {
  }

  /** A single slide never moves. */
  lemma {:induction false} SingleSlideStill(index: Index, showControls: bool, showDots: bool, inputs: seq<Input>)
    ensures Run(index, 1, showControls, showDots, inputs) == index
    decreases |inputs|
  {
    if |inputs| > 0 {
      assert Step(index, 1, showControls, showDots, inputs[0]).None?;
      SingleSlideStill(index, showControls, showDots, inputs[1..]);
    }
  }

  /** Once the list has shrunk below a stale index, the next forward move brings it back. */
  lemma TickAfterShrink(i: nat, length: nat)
    requires Autoplays(length)
    ensures Step(At(i), length, false, false, Tick).Some?
    ensures InRange(Step(At(i), length, false, false, Tick).value, length)
    ensures Step(At(i), length, false, false, Tick).value == At((i + 1) % length)
  {
    NextFromNonNegative(At(i), length);
  }

  /** The dot for slide `i` is marked active exactly when `i` is the current index. */
  function ActiveDots(index: Index, length: nat): (r: seq<bool>)
    ensures |r| == length
    ensures forall i :: 0 <= i < length ==> (r[i] <==> index == At(i))
  {
    seq(length, i requires 0 <= i < length => index == At(i))
  }
}
