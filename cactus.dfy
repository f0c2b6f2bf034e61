/** Obstacles: a countdown spawns a cactus at the right edge; every tick all cacti
    move left and those past the left edge are removed from the page. */
module CactusSpawner {
  import opened Common
  import opened PropertyStore

  const CACTUS_SPEED: real := 0.05
  const CACTUS_INTERVAL_MIN: int := 500
  const CACTUS_INTERVAL_MAX: int := 2000
  const CACTUS_REMOVE_THRESHOLD: real := -100.0
  const CACTUS_START_POSITION: real := 100.0

  /** The spawn countdown, and the cactus elements on the page: `live` lists the ids
      of the attached `[data-cactus]` elements in document order, `nextId` is the id
      the next created element gets. */
  datatype SpawnerState = SpawnerState(nextCactusTime: real, live: seq<nat>, nextId: nat)

  predicate Distinct(s: seq<nat>) {
    forall i, j :: 0 <= i < j < |s| ==> s[i] != s[j]
  }

  /** Every element is on the page at most once, and every id on the page was handed out. */
  predicate SpawnerValid(c: SpawnerState) {
    Distinct(c.live) && forall i :: 0 <= i < |c.live| ==> c.live[i] < c.nextId
  }

  /** `Math.floor(draw * (max - min + 1) + min)`, with `draw` the value of `Math.random()`. */
  function RandomNumberBetween(min: int, max: int, draw: real): (r: int)
    requires 0.0 <= draw < 1.0
    ensures min <= max ==> min <= r <= max
  {
    var n := (max - min + 1) as real;
    assert min <= max ==> 0.0 <= draw * n < n by {
      if min <= max {
        assert draw * n <= n * draw;
        assert n * draw < n * 1.0;
      }
    }
    (draw * n + min as real).Floor
  }

  /** How far every cactus moves left in one tick. */
  function CactusShift(delta: real, speedScale: real): real {
    delta * speedScale * CACTUS_SPEED
  }

  /** The countdown after a spawn: a fresh interval, scaled by speed, less this tick. */
  function RespawnTime(draw: real, speedScale: real, delta: real): real
    requires 0.0 <= draw < 1.0 && speedScale != 0.0
  {
    RandomNumberBetween(CACTUS_INTERVAL_MIN, CACTUS_INTERVAL_MAX, draw) as real / speedScale - delta
  }

  /** `cactus.remove()`: the list without `x`. */
  function RemoveId(s: seq<nat>, x: nat): seq<nat> {
    if s == [] then []
    else (if s[0] == x then [] else [s[0]]) + RemoveId(s[1..], x)
  }

  /** The store after each cactus of `ids`, in order, moved left by `shift`. */
  function MoveAll(ids: seq<nat>, st: Style, shift: real): Style {
    if ids == [] then st
    else
      var prev := MoveAll(ids[..|ids| - 1], st, shift);
      var id := ids[|ids| - 1];
      Write(prev, Cactus(id), LEFT, Read(prev, Cactus(id), LEFT) + shift * -1.0)
  }

  /** The cacti of `ids` still right of the removal threshold, in order. */
  function Survivors(ids: seq<nat>, st: Style): seq<nat> {
    if ids == [] then []
    else
      var prev := Survivors(ids[..|ids| - 1], st);
      var id := ids[|ids| - 1];
      if Read(st, Cactus(id), LEFT) <= CACTUS_REMOVE_THRESHOLD then prev else prev + [id]
  }

  /** What `setupCactus` does: reset the countdown and remove every cactus. */
  function SetupSpec(c: SpawnerState): SpawnerState {
    c.(nextCactusTime := CACTUS_INTERVAL_MIN as real, live := [])
  }

  /** `createCactus`: a new element at the start position, appended to the page. */
  function CreateSpec(c: SpawnerState, st: Style): (SpawnerState, Style) {
    (c.(live := c.live + [c.nextId], nextId := c.nextId + 1),
     Write(st, Cactus(c.nextId), LEFT, CACTUS_START_POSITION))
  }

  /** The cactus part of the store after `updateCactus`. */
  function CactusStyle(c: SpawnerState, st: Style, delta: real, speedScale: real): Style {
    var moved := MoveAll(c.live, st, CactusShift(delta, speedScale));
    if c.nextCactusTime <= 0.0 then CreateSpec(c, moved).1 else moved
  }

  /** The spawner after `updateCactus`: move and cull, spawn if the countdown had run
      out, then count down by this tick. */
  function CactusStep(c: SpawnerState, st: Style, delta: real, speedScale: real, draw: real): SpawnerState
    requires 0.0 <= draw < 1.0 && speedScale != 0.0
  {
    var moved := MoveAll(c.live, st, CactusShift(delta, speedScale));
    var kept := c.(live := Survivors(c.live, moved));
    if c.nextCactusTime <= 0.0 then
      CreateSpec(kept, moved).0.(nextCactusTime := RespawnTime(draw, speedScale, delta))
    else kept.(nextCactusTime := c.nextCactusTime - delta)
  }

  /** `getCactusRects`: one rectangle per cactus on the page, in document order. */
  function GetCactusRects(live: seq<nat>, layout: Elem -> Rect): (r: seq<Rect>)
    ensures |r| == |live|
    ensures forall i :: 0 <= i < |live| ==> r[i] == layout(Cactus(live[i]))
  {
    seq(|live|, i requires 0 <= i < |live| => layout(Cactus(live[i])))
  }

  // ---- facts about the list and store functions ----

  lemma {:induction false} RemoveIdAbsent(s: seq<nat>, x: nat)
    requires x !in s
    ensures RemoveId(s, x) == s
  {
    if s != [] {
      RemoveIdAbsent(s[1..], x);
    }
  }

  lemma {:induction false} RemoveIdConcat(a: seq<nat>, b: seq<nat>, x: nat)
    ensures RemoveId(a + b, x) == RemoveId(a, x) + RemoveId(b, x)
  {
    if a == [] {
      assert a + b == b;
    } else {
      assert (a + b)[0] == a[0];
      assert (a + b)[1..] == a[1..] + b;
      RemoveIdConcat(a[1..], b, x);
    }
  }

  /** Exactly the listed cacti whose position is right of -100 survive. */
  lemma {:induction false} SurvivorsExact(ids: seq<nat>, st: Style, x: nat)
    ensures x in Survivors(ids, st) <==> x in ids && Read(st, Cactus(x), LEFT) > CACTUS_REMOVE_THRESHOLD
  {
    if ids != [] {
      var init := ids[..|ids| - 1];
      SurvivorsExact(init, st, x);
      assert ids == init + [ids[|ids| - 1]];
    }
  }

  /** Culling keeps the order of the page, so a page without repeats stays without repeats. */
  lemma {:induction false} SurvivorsDistinct(ids: seq<nat>, st: Style)
    requires Distinct(ids)
    ensures Distinct(Survivors(ids, st))
  {
    if ids != [] {
      var init := ids[..|ids| - 1];
      var id := ids[|ids| - 1];
      SurvivorsDistinct(init, st);
      SurvivorsExact(init, st, id);
      assert id !in init;
    }
  }

  /** Culling only looks at the positions of the listed cacti. */
  lemma {:induction false} SurvivorsFrame(ids: seq<nat>, st: Style, st': Style)
    requires forall x :: x in ids ==> Read(st', Cactus(x), LEFT) == Read(st, Cactus(x), LEFT)
    ensures Survivors(ids, st') == Survivors(ids, st)
  {
    if ids != [] {
      SurvivorsFrame(ids[..|ids| - 1], st, st');
    }
  }

  /** Every listed cactus moves left by exactly `shift`, once. */
  lemma {:induction false} MoveAllMovesEach(ids: seq<nat>, st: Style, shift: real, x: nat)
    requires Distinct(ids) && x in ids
    ensures Read(MoveAll(ids, st, shift), Cactus(x), LEFT) == Read(st, Cactus(x), LEFT) - shift
  {
    var init := ids[..|ids| - 1];
    var id := ids[|ids| - 1];
    if x != id {
      assert x in init;
      MoveAllMovesEach(init, st, shift, x);
    } else {
      assert id !in init;
      MoveAllFrame(init, st, shift, Cactus(x), LEFT);
    }
  }

  /** Moving the cacti changes no other property, and no cactus not listed. */
  lemma {:induction false} MoveAllFrame(ids: seq<nat>, st: Style, shift: real, e: Elem, p: string)
    requires !(e.Cactus? && e.id in ids && p == LEFT)
    ensures Read(MoveAll(ids, st, shift), e, p) == Read(st, e, p)
  {
    if ids != [] {
      MoveAllFrame(ids[..|ids| - 1], st, shift, e, p);
    }
  }

  class Spawner {
    var nextCactusTime: real
    var live: seq<nat>
    var nextId: nat

    function State(): SpawnerState
      reads this
    {
      SpawnerState(nextCactusTime, live, nextId)
    }

    /** Module load: the countdown starts at the minimum interval, no cactus on the page. */
    constructor ()
      ensures State() == SpawnerState(CACTUS_INTERVAL_MIN as real, [], 0)
    {
      nextCactusTime := CACTUS_INTERVAL_MIN as real;
      live := [];
      nextId := 0;
    }

    method SetupCactus()
      modifies this
      ensures State() == SetupSpec(old(State()))
    {
      nextCactusTime := CACTUS_INTERVAL_MIN as real;
      var cacti := live;
      for i := 0 to |cacti|
        invariant live == cacti[i..]
        invariant nextCactusTime == CACTUS_INTERVAL_MIN as real && nextId == old(nextId)
      {
        live := live[1..];
      }
      assert live == [];
    }

    method CreateCactus(store: Store)
      modifies this, store
      ensures State() == CreateSpec(old(State()), old(store.style)).0
      ensures store.style == CreateSpec(old(State()), old(store.style)).1
    {
      var cactus := Element(Cactus(nextId));
      store.SetCustomProperty(cactus, LEFT, CACTUS_START_POSITION);
      live := live + [nextId];
      nextId := nextId + 1;
    }

    /** The `for` loop of `updateCactus`: move every cactus on the page, removing
        each one that ends at or left of the threshold. */
    method MoveAndCull(delta: real, speedScale: real, store: Store)
      requires SpawnerValid(State())
      modifies this, store
      ensures store.style == MoveAll(old(live), old(store.style), CactusShift(delta, speedScale))
      ensures live == Survivors(old(live), store.style)
      ensures nextCactusTime == old(nextCactusTime) && nextId == old(nextId)
    {
      var shift := CactusShift(delta, speedScale);
      var cacti := live;
      for i := 0 to |cacti|
        invariant store.style == MoveAll(cacti[..i], old(store.style), shift)
        invariant live == Survivors(cacti[..i], store.style) + cacti[i..]
        invariant nextCactusTime == old(nextCactusTime) && nextId == old(nextId)
      {
        var cactus := Element(Cactus(cacti[i]));
        ghost var before := store.style;
        store.IncrementCustomProperty(cactus, LEFT, delta * speedScale * CACTUS_SPEED * -1.0);
        CullStep(cacti, i, old(store.style), shift, before, store.style);
        if store.GetCustomProperty(cactus, LEFT) <= CACTUS_REMOVE_THRESHOLD {
          live := RemoveId(live, cacti[i]);
        }
      }
      assert cacti[..|cacti|] == cacti;
    }

    method UpdateCactus(delta: real, speedScale: real, draw: real, store: Store)
      requires 0.0 <= draw < 1.0 && speedScale != 0.0
      requires SpawnerValid(State())
      modifies this, store
      ensures State() == CactusStep(old(State()), old(store.style), delta, speedScale, draw)
      ensures store.style == CactusStyle(old(State()), old(store.style), delta, speedScale)
    {
      MoveAndCull(delta, speedScale, store);
      if nextCactusTime <= 0.0 {
        CreateCactus(store);
        nextCactusTime := RandomNumberBetween(CACTUS_INTERVAL_MIN, CACTUS_INTERVAL_MAX, draw) as real / speedScale;
      }
      nextCactusTime := nextCactusTime - delta;
    }
  }

  /** The element visited in turn `i` is seen nowhere else on the page. */
  lemma DistinctAt(s: seq<nat>, i: nat)
    requires Distinct(s) && i < |s|
    ensures s[i] !in s[..i] && s[i] !in s[i + 1..]
  {
  }

  /** Removing the visited element from "kept so far, then the rest" drops exactly it. */
  lemma RemoveVisited(kept: seq<nat>, id: nat, rest: seq<nat>)
    requires id !in kept && id !in rest
    ensures RemoveId(kept + ([id] + rest), id) == kept + rest
  {
    RemoveIdConcat(kept, [id] + rest, id);
    RemoveIdAbsent(kept, id);
    RemoveHead(id, rest);
  }

  lemma RemoveHead(id: nat, rest: seq<nat>)
    requires id !in rest
    ensures RemoveId([id] + rest, id) == rest
  {
    var tail := [id] + rest;
    assert tail[0] == id && tail[1..] == rest;
    RemoveIdAbsent(rest, id);
  }

  /** Moving one more cactus extends the moved prefix by one. */
  lemma MoveAllExtend(cacti: seq<nat>, i: nat, st0: Style, shift: real)
    requires i < |cacti|
    ensures MoveAll(cacti[..i + 1], st0, shift)
            == Write(MoveAll(cacti[..i], st0, shift), Cactus(cacti[i]), LEFT,
                     Read(MoveAll(cacti[..i], st0, shift), Cactus(cacti[i]), LEFT) + shift * -1.0)
  {
    assert cacti[..i + 1][..i] == cacti[..i];
    assert cacti[..i + 1][i] == cacti[i];
  }

  /** Culling one more cactus, judged on the store after it has moved. */
  lemma SurvivorsExtend(cacti: seq<nat>, i: nat, before: Style, after: Style)
    requires i < |cacti| && cacti[i] !in cacti[..i]
    requires forall x :: x != cacti[i] ==> Read(after, Cactus(x), LEFT) == Read(before, Cactus(x), LEFT)
    ensures Survivors(cacti[..i + 1], after)
            == if Read(after, Cactus(cacti[i]), LEFT) <= CACTUS_REMOVE_THRESHOLD
               then Survivors(cacti[..i], before)
               else Survivors(cacti[..i], before) + [cacti[i]]
  {
    assert cacti[..i + 1][..i] == cacti[..i];
    assert cacti[..i + 1][i] == cacti[i];
    SurvivorsFrame(cacti[..i], before, after);
  }

  /** One turn of the move-and-cull loop keeps its invariant: after cactus `cacti[i]`
      has moved, the page holds the survivors so far and the cacti not yet visited. */
  lemma CullStep(cacti: seq<nat>, i: nat, st0: Style, shift: real, before: Style, after: Style)
    requires Distinct(cacti) && i < |cacti|
    requires before == MoveAll(cacti[..i], st0, shift)
    requires after == Write(before, Cactus(cacti[i]), LEFT, Read(before, Cactus(cacti[i]), LEFT) + shift * -1.0)
    ensures after == MoveAll(cacti[..i + 1], st0, shift)
    ensures Read(after, Cactus(cacti[i]), LEFT) <= CACTUS_REMOVE_THRESHOLD ==>
              RemoveId(Survivors(cacti[..i], before) + cacti[i..], cacti[i])
              == Survivors(cacti[..i + 1], after) + cacti[i + 1..]
    ensures Read(after, Cactus(cacti[i]), LEFT) > CACTUS_REMOVE_THRESHOLD ==>
              Survivors(cacti[..i], before) + cacti[i..]
              == Survivors(cacti[..i + 1], after) + cacti[i + 1..]
  {
    var id := cacti[i];
    MoveAllExtend(cacti, i, st0, shift);
    DistinctAt(cacti, i);
    SurvivorsExtend(cacti, i, before, after);
    var kept := Survivors(cacti[..i], before);
    assert cacti[i..] == [id] + cacti[i + 1..];
    if Read(after, Cactus(id), LEFT) <= CACTUS_REMOVE_THRESHOLD {
      SurvivorsExact(cacti[..i], before, id);
      RemoveVisited(kept, id, cacti[i + 1..]);
    }
  }

  // ---- what one tick of updateCactus does ----

  /** Every cactus on the page before the tick moves left by exactly `delta*speedScale*0.05`;
      a cactus spawned this tick sits at the start position, unmoved. */
  lemma CactusStepPositions(c: SpawnerState, st: Style, delta: real, speedScale: real)
    requires SpawnerValid(c)
    ensures forall x :: x in c.live ==>
              Read(CactusStyle(c, st, delta, speedScale), Cactus(x), LEFT)
              == Read(st, Cactus(x), LEFT) - delta * speedScale * 0.05
    ensures c.nextCactusTime <= 0.0 ==>
              Read(CactusStyle(c, st, delta, speedScale), Cactus(c.nextId), LEFT) == CACTUS_START_POSITION
  {
    var shift := CactusShift(delta, speedScale);
    forall x | x in c.live
      ensures Read(CactusStyle(c, st, delta, speedScale), Cactus(x), LEFT)
              == Read(st, Cactus(x), LEFT) - delta * speedScale * 0.05
    {
      MoveAllMovesEach(c.live, st, shift, x);
    }
  }

  /** After the tick the page holds exactly the earlier cacti that ended right of -100,
      plus the new one when the countdown had run out; their order is kept. */
  lemma CactusStepCulls(c: SpawnerState, st: Style, delta: real, speedScale: real, draw: real, x: nat)
    requires 0.0 <= draw < 1.0 && speedScale != 0.0
    ensures var moved := MoveAll(c.live, st, CactusShift(delta, speedScale));
            x in CactusStep(c, st, delta, speedScale, draw).live
            <==> (x in c.live && Read(moved, Cactus(x), LEFT) > CACTUS_REMOVE_THRESHOLD)
                 || (c.nextCactusTime <= 0.0 && x == c.nextId)
  {
    SurvivorsExact(c.live, MoveAll(c.live, st, CactusShift(delta, speedScale)), x);
  }

  /** At most one cactus is created per tick, and one is exactly when the countdown was
      at or below 0; it is appended after the survivors. */
  lemma CactusStepSpawns(c: SpawnerState, st: Style, delta: real, speedScale: real, draw: real)
    requires 0.0 <= draw < 1.0 && speedScale != 0.0
    ensures var c' := CactusStep(c, st, delta, speedScale, draw);
            var kept := Survivors(c.live, MoveAll(c.live, st, CactusShift(delta, speedScale)));
            if c.nextCactusTime <= 0.0 then c'.nextId == c.nextId + 1 && c'.live == kept + [c.nextId]
            else c'.nextId == c.nextId && c'.live == kept
  {
  }

  /** The countdown is checked before it is decremented: on a spawn it restarts from a
      fresh interval (see `RespawnTimeWhole`), otherwise it only drops by `delta`. */
  lemma CactusStepTimer(c: SpawnerState, st: Style, delta: real, speedScale: real, draw: real)
    requires 0.0 <= draw < 1.0 && speedScale != 0.0
    ensures c.nextCactusTime <= 0.0 ==>
              CactusStep(c, st, delta, speedScale, draw).nextCactusTime == RespawnTime(draw, speedScale, delta)
    ensures c.nextCactusTime > 0.0 ==>
              CactusStep(c, st, delta, speedScale, draw).nextCactusTime == c.nextCactusTime - delta
  {
  }

  /** Undoing the tick and the speed division leaves the whole-number interval that was drawn. */
  lemma RespawnTimeWhole(draw: real, speedScale: real, delta: real)
    requires 0.0 <= draw < 1.0 && speedScale != 0.0
    ensures IsWholeIn((RespawnTime(draw, speedScale, delta) + delta) * speedScale,
                      CACTUS_INTERVAL_MIN, CACTUS_INTERVAL_MAX)
  {
    var r := RandomNumberBetween(CACTUS_INTERVAL_MIN, CACTUS_INTERVAL_MAX, draw);
    UndoScale(r as real, speedScale, delta);
    assert (RespawnTime(draw, speedScale, delta) + delta) * speedScale == r as real;
  }

  /** `v` is a whole number between `lo` and `hi`. */
  predicate IsWholeIn(v: real, lo: int, hi: int) {
    v == v.Floor as real && lo as real <= v <= hi as real
  }

  lemma UndoScale(r: real, speedScale: real, delta: real)
    requires speedScale != 0.0
    ensures (r / speedScale - delta + delta) * speedScale == r
  {
    assert r / speedScale - delta + delta == r / speedScale;
  }

  /** The page never holds a cactus twice, and every id on it was handed out. */
  lemma CactusStepValid(c: SpawnerState, st: Style, delta: real, speedScale: real, draw: real)
    requires 0.0 <= draw < 1.0 && speedScale != 0.0
    requires SpawnerValid(c)
    ensures SpawnerValid(CactusStep(c, st, delta, speedScale, draw))
  {
    var moved := MoveAll(c.live, st, CactusShift(delta, speedScale));
    var kept := Survivors(c.live, moved);
    SurvivorsDistinct(c.live, moved);
    forall i | 0 <= i < |kept| ensures kept[i] < c.nextId {
      SurvivorsExact(c.live, moved, kept[i]);
    }
    if c.nextCactusTime <= 0.0 {
      assert c.nextId !in kept by {
        SurvivorsExact(c.live, moved, c.nextId);
      }
    }
  }

  /** `setupCactus` empties the page and restarts the countdown at 500, whatever came before. */
  lemma SetupClears(c: SpawnerState)
    ensures SetupSpec(c).live == [] && SetupSpec(c).nextCactusTime == 500.0
    ensures SetupSpec(c).nextId == c.nextId && SpawnerValid(SetupSpec(c))
  {
  }
}
