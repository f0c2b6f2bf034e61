/** The two ground segments that scroll left and wrap round to tile the floor. */
module Ground {
  import opened Common
  import opened PropertyStore

  const SPEED: real := 0.05
  /** A segment at or left of this offset has scrolled fully off screen ... */
  const WRAP_AT: real := -300.0
  /** ... and jumps forward by the width of both segments. */
  const WRAP_BY: real := 600.0
  const SECOND_START: real := 300.0

  /** `[groundRef1, groundRef2]`: both segments are reached through React refs. */
  const Segments: seq<Handle> := [Ref(Some(Ground1)), Ref(Some(Ground2))]

  /** How far every segment moves left in one tick. */
  function Shift(delta: real, speedScale: real): real {
    delta * speedScale * SPEED
  }

  /** The offset of one segment after one tick: move, then wrap if off screen. */
  function Scroll(left: real, shift: real): real {
    var moved := left + shift * -1.0;
    if moved <= WRAP_AT then moved + WRAP_BY else moved
  }

  /** The store after the segments in `segs` have been scrolled, in order. */
  function ScrollAll(segs: seq<Elem>, st: Style, shift: real): Style {
    if segs == [] then st
    else
      var prev := ScrollAll(segs[..|segs| - 1], st, shift);
      var e := segs[|segs| - 1];
      Write(prev, e, LEFT, Scroll(Read(prev, e, LEFT), shift))
  }

  /** What `updateGround` does to the store. */
  function GroundStep(st: Style, delta: real, speedScale: real): Style {
    ScrollAll([Ground1, Ground2], st, Shift(delta, speedScale))
  }

  /** What `setupGround` does to the store. */
  function GroundSetup(st: Style): Style {
    Write(Write(st, Ground1, LEFT, 0.0), Ground2, LEFT, SECOND_START)
  }

  /** Seamless tiling: both offsets on screen and exactly one segment width apart. */
  predicate Tiled(a: real, b: real) {
    WRAP_AT < a <= SECOND_START && WRAP_AT < b <= SECOND_START &&
    (a - b == SECOND_START || b - a == SECOND_START)
  }

  method SetupGround(store: Store)
    modifies store
    ensures store.style == GroundSetup(old(store.style))
  {
    store.SetCustomProperty(Segments[0], LEFT, 0.0);
    store.SetCustomProperty(Segments[1], LEFT, SECOND_START);
  }

  method UpdateGround(store: Store, delta: real, speedScale: real)
    modifies store
    ensures store.style == GroundStep(old(store.style), delta, speedScale)
  {
    var elems := [Ground1, Ground2];
    var shift := Shift(delta, speedScale);
    for i := 0 to |Segments|
      invariant store.style == ScrollAll(elems[..i], old(store.style), shift)
    {
      var ground := Segments[i];
      assert Target(ground) == elems[i];
      assert elems[..i + 1][..i] == elems[..i];
      ghost var before := store.style;
      store.IncrementCustomProperty(ground, LEFT, delta * speedScale * SPEED * -1.0);
      if store.GetCustomProperty(ground, LEFT) <= WRAP_AT {
        store.IncrementCustomProperty(ground, LEFT, WRAP_BY);
      }
      assert store.style == Write(before, elems[i], LEFT, Scroll(Read(before, elems[i], LEFT), shift));
    }
    assert elems[..2] == elems;
  }

  /** `setupGround` places the segments at 0 and 300 and touches nothing else. */
  lemma SetupPlacesSegments(st: Style)
    ensures Read(GroundSetup(st), Ground1, LEFT) == 0.0
    ensures Read(GroundSetup(st), Ground2, LEFT) == SECOND_START
    ensures forall e, p :: (e, p) != (Ground1, LEFT) && (e, p) != (Ground2, LEFT) ==>
              Read(GroundSetup(st), e, p) == Read(st, e, p)
    ensures Tiled(Read(GroundSetup(st), Ground1, LEFT), Read(GroundSetup(st), Ground2, LEFT))
  {
  }

  /** Scrolling both segments by one shift scrolls each of them independently
      and changes no other property. */
  lemma {:induction false} ScrollBoth(st: Style, shift: real)
    ensures Read(ScrollAll([Ground1, Ground2], st, shift), Ground1, LEFT) == Scroll(Read(st, Ground1, LEFT), shift)
    ensures Read(ScrollAll([Ground1, Ground2], st, shift), Ground2, LEFT) == Scroll(Read(st, Ground2, LEFT), shift)
    ensures forall e, p :: (e, p) != (Ground1, LEFT) && (e, p) != (Ground2, LEFT) ==>
              Read(ScrollAll([Ground1, Ground2], st, shift), e, p) == Read(st, e, p)
  {
    assert [Ground1, Ground2][..1] == [Ground1];
    assert [Ground1][..0] == [];
    assert ScrollAll([], st, shift) == st;
    var s1 := ScrollAll([Ground1], st, shift);
    assert s1 == Write(st, Ground1, LEFT, Scroll(Read(st, Ground1, LEFT), shift));
  }

  /** Each segment is scrolled by the same shift, `delta * speedScale * 0.05`,
      independently of the other, and no other property changes. */
  lemma GroundStepSegments(st: Style, delta: real, speedScale: real)
    ensures Read(GroundStep(st, delta, speedScale), Ground1, LEFT)
            == Scroll(Read(st, Ground1, LEFT), delta * speedScale * 0.05)
    ensures Read(GroundStep(st, delta, speedScale), Ground2, LEFT)
            == Scroll(Read(st, Ground2, LEFT), delta * speedScale * 0.05)
    ensures forall e, p :: (e, p) != (Ground1, LEFT) && (e, p) != (Ground2, LEFT) ==>
              Read(GroundStep(st, delta, speedScale), e, p) == Read(st, e, p)
  {
    ScrollBoth(st, Shift(delta, speedScale));
  }

  /** A segment first moves by exactly the shift, and is moved on by 600 exactly
      when that lands it at or left of -300. */
  lemma ScrollIsMoveThenWrap(left: real, shift: real)
    ensures left - shift <= WRAP_AT ==> Scroll(left, shift) == left - shift + WRAP_BY
    ensures left - shift > WRAP_AT ==> Scroll(left, shift) == left - shift
  {
  }

  /** An on-screen segment stays on screen when the shift is between 0 and one segment width. */
  lemma ScrollStaysOnScreen(left: real, shift: real)
    requires WRAP_AT < left <= SECOND_START
    requires 0.0 <= shift <= SECOND_START
    ensures WRAP_AT < Scroll(left, shift) <= SECOND_START
  {
  }

  /** The distance between the segments changes only by a whole multiple of 600. */
  lemma ScrollKeepsPhase(a: real, b: real, shift: real)
    ensures var d := (Scroll(a, shift) - Scroll(b, shift)) - (a - b);
            d == -WRAP_BY || d == 0.0 || d == WRAP_BY
  {
  }

  /** The ground after a run of ticks, given each tick's shift. */
  function ScrollMany(st: Style, shifts: seq<real>): Style
    decreases |shifts|
  {
    if shifts == [] then st
    else ScrollMany(ScrollAll([Ground1, Ground2], st, shifts[0]), shifts[1..])
  }

  /** From `setupGround` onward, as long as no tick moves the ground by more than a
      segment width, the two segments stay on screen and exactly 300 apart: no gap opens. */
  lemma {:induction false} GroundStaysTiled(st: Style, shifts: seq<real>)
    requires Tiled(Read(st, Ground1, LEFT), Read(st, Ground2, LEFT))
    requires forall i :: 0 <= i < |shifts| ==> 0.0 <= shifts[i] <= SECOND_START
    ensures Tiled(Read(ScrollMany(st, shifts), Ground1, LEFT), Read(ScrollMany(st, shifts), Ground2, LEFT))
    decreases |shifts|
  {
    if shifts != [] {
      var next := ScrollAll([Ground1, Ground2], st, shifts[0]);
      ScrollBoth(st, shifts[0]);
      ScrollStaysOnScreen(Read(st, Ground1, LEFT), shifts[0]);
      ScrollStaysOnScreen(Read(st, Ground2, LEFT), shifts[0]);
      ScrollKeepsPhase(Read(st, Ground1, LEFT), Read(st, Ground2, LEFT), shifts[0]);
      GroundStaysTiled(next, shifts[1..]);
    }
  }
}
