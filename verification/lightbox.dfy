/** The lightbox (`src/components/Lightbox.tsx`): the picture index it keeps, how keys and the
    arrow buttons move it, and when it renders at all. The keyboard listener is attached whether
    or not there are pictures, so with none an arrow key turns the index into `NaN`. */
module Lightbox {
  import opened Cycle

  datatype Key = Escape | ArrowRight | ArrowLeft | OtherKey

  /** The index shown and whether `onClose` has been called. */
  datatype State = State(index: Index, closed: bool)

  /** The state after mounting, or after `startIndex` changes: the index is reset to it. */
  function Open(startIndex: int): (s: State)
    ensures s.index == At(startIndex) && !s.closed
  {
    State(At(startIndex), false)
  }

  /** `handleKey` for a list of `n` pictures. `hasClose` says whether an `onClose` callback was
      given: `onClose?.()` does nothing without one. */
  function HandleKey(s: State, n: nat, hasClose: bool, key: Key): (r: State)
    ensures key == Escape ==> r.index == s.index && r.closed == (s.closed || hasClose)
    ensures key == ArrowRight ==> r == State(Next(s.index, n), s.closed)
    ensures key == ArrowLeft ==> r == State(Prev(s.index, n), s.closed)
    ensures key == OtherKey ==> r == s
  {
    match key
    case Escape => State(s.index, s.closed || hasClose)
    case ArrowRight => State(Next(s.index, n), s.closed)
    case ArrowLeft => State(Prev(s.index, n), s.closed)
    case OtherKey => s
  }

  /** The previous and next buttons, which stop the click from reaching the backdrop. */
  function PrevButton(s: State, n: nat): (r: State)
    ensures r == HandleKey(s, n, false, ArrowLeft)
  {
    State(Prev(s.index, n), s.closed)
  }

  function NextButton(s: State, n: nat): (r: State)
    ensures r == HandleKey(s, n, false, ArrowRight)
  {
    State(Next(s.index, n), s.closed)
  }

  /** A sequence of key presses. Any key sequence keeps an index inside a non-empty list inside it. */
  function PressAll(s: State, n: nat, hasClose: bool, keys: seq<Key>): (r: State)
    ensures n > 0 && InRange(s.index, n) ==> InRange(r.index, n)
    ensures s.closed ==> r.closed
    decreases |keys|
  {
    if |keys| == 0 then s else PressAll(HandleKey(s, n, hasClose, keys[0]), n, hasClose, keys[1..])
  }

  /** Escape closes exactly when a callback was given, and never moves the picture. */
  lemma EscapeOnlyCloses(s: State, n: nat)
    ensures HandleKey(s, n, true, Escape) == State(s.index, true)
    ensures HandleKey(s, n, false, Escape) == s
  {
  }

  /** Right then left, or left then right, shows the same picture again. */
  lemma ArrowsUndo(s: State, n: nat, hasClose: bool)
    requires InRange(s.index, n)
    ensures HandleKey(HandleKey(s, n, hasClose, ArrowRight), n, hasClose, ArrowLeft) == s
    ensures HandleKey(HandleKey(s, n, hasClose, ArrowLeft), n, hasClose, ArrowRight) == s
  {
    PrevNext(s.index, n);
  }

  /** With no pictures an arrow key leaves the index `NaN`, and it stays so. */
  lemma EmptyArrowIsNaN(s: State, hasClose: bool, keys: seq<Key>)
    requires |keys| > 0 && keys[0] in {ArrowLeft, ArrowRight}
    ensures PressAll(s, 0, hasClose, keys).index == NaN
  {
    assert HandleKey(s, 0, hasClose, keys[0]).index == NaN;
    NaNStays(HandleKey(s, 0, hasClose, keys[0]), 0, hasClose, keys[1..]);
  }

  lemma {:induction false} NaNStays(s: State, n: nat, hasClose: bool, keys: seq<Key>)
    requires s.index == NaN
    ensures PressAll(s, n, hasClose, keys).index == NaN
    decreases |keys|
  {
    if |keys| > 0 {
      NaNStays(HandleKey(s, n, hasClose, keys[0]), n, hasClose, keys[1..]);
    }
  }
}
