/** The game loop: start, the per-frame update in its fixed order, the lose check and
    the restart cycle. Scheduling is three flags: a pending animation frame, a pending
    100 ms restart timer, and the armed once-only click listener that starts a run. */
module GameLoop {
  import opened Common
  import opened PropertyStore
  import opened Ground
  import opened DinoController
  import opened CactusSpawner

  const WORLD_WIDTH: real := 100.0
  const WORLD_HEIGHT: real := 30.0
  const SPEED_SCALE_INCREASE: real := 0.00001
  const SCORE_PER_MS: real := 0.01

  // ---- the scale choice of setPixelToWorldScale ----

  /** Pixels per world unit: the world box is as large as fits the window, keeping 100:30. */
  function WorldToPixelScale(innerWidth: real, innerHeight: real): (s: real)
    requires innerWidth > 0.0 && innerHeight > 0.0
    ensures s > 0.0
    ensures WORLD_WIDTH * s <= innerWidth && WORLD_HEIGHT * s <= innerHeight
    ensures WORLD_WIDTH * s == innerWidth || WORLD_HEIGHT * s == innerHeight
  {
    if innerWidth / innerHeight < WORLD_WIDTH / WORLD_HEIGHT then
      assert innerWidth * WORLD_HEIGHT < WORLD_WIDTH * innerHeight by {
        RatioBelow(innerWidth, innerHeight);
      }
      innerWidth / WORLD_WIDTH
    else
      assert innerWidth * WORLD_HEIGHT >= WORLD_WIDTH * innerHeight by {
        RatioAtLeast(innerWidth, innerHeight);
      }
      innerHeight / WORLD_HEIGHT
  }

  lemma RatioBelow(w: real, h: real)
    requires w > 0.0 && h > 0.0 && w / h < WORLD_WIDTH / WORLD_HEIGHT
    ensures w * WORLD_HEIGHT < WORLD_WIDTH * h
  {
    assert w == (w / h) * h;
    assert (w / h) * h * WORLD_HEIGHT < (WORLD_WIDTH / WORLD_HEIGHT) * h * WORLD_HEIGHT;
  }

  lemma RatioAtLeast(w: real, h: real)
    requires w > 0.0 && h > 0.0 && w / h >= WORLD_WIDTH / WORLD_HEIGHT
    ensures w * WORLD_HEIGHT >= WORLD_WIDTH * h
  {
    assert w == (w / h) * h;
    assert (w / h) * h * WORLD_HEIGHT >= (WORLD_WIDTH / WORLD_HEIGHT) * h * WORLD_HEIGHT;
  }

  // ---- the lose check ----

  /** Strict overlap of two axis-aligned rectangles. */
  predicate IsCollision(rect1: Rect, rect2: Rect) {
    rect1.left < rect2.right && rect1.top < rect2.bottom &&
    rect1.right > rect2.left && rect1.bottom > rect2.top
  }

  /** `rects.some(rect => isCollision(rect, dinoRect))`. */
  function CheckLose(rects: seq<Rect>, dinoRect: Rect): (r: bool)
    ensures r <==> exists i :: 0 <= i < |rects| && IsCollision(rects[i], dinoRect)
  {
    if rects == [] then false
    else IsCollision(rects[0], dinoRect) || CheckLose(rects[1..], dinoRect)
  }

  lemma CollisionSymmetric(a: Rect, b: Rect)
    ensures IsCollision(a, b) <==> IsCollision(b, a)
  {
  }

  /** Rectangles that only share an edge do not collide. */
  lemma TouchingIsNoCollision(a: Rect, b: Rect)
    requires a.right == b.left || a.left == b.right || a.bottom == b.top || a.top == b.bottom
    ensures !IsCollision(a, b)
  {
  }

  /** Without cacti there is nothing to lose against. */
  lemma NoCactiNoLoss(layout: Elem -> Rect)
    ensures !CheckLose(GetCactusRects([], layout), layout(DinoSprite))
  {
  }

  // ---- the whole world as a value ----

  datatype World = World(
    frameRequested: bool,     // an animation frame will call update
    restartPending: bool,     // the 100 ms timer of handleLose will re-arm the start click
    startArmed: bool,         // a click will call handleStart
    lastTime: Option<real>,
    speedScale: real,
    score: real,
    scoreText: int,           // the `textContent` of the score element
    dino: DinoState,
    spawner: SpawnerState,
    style: Style)

  function SpeedGain(delta: real): real { delta * SPEED_SCALE_INCREASE }
  function ScoreGain(delta: real): real { delta * SCORE_PER_MS }

  /** `handleStart`. */
  function StartSpec(w: World): World {
    w.(lastTime := None, speedScale := 1.0, score := 0.0,
       dino := SetupState(w.dino), spawner := SetupSpec(w.spawner),
       style := SetupStyle(GroundSetup(w.style)), frameRequested := true)
  }

  /** `handleLose`: the dino shows the lose sprite and the restart timer is set. */
  function LoseSpec(w: World): World {
    w.(dino := w.dino.(pose := Lose), restartPending := true)
  }

  /** The world after ground, dino, cacti, speed and score have advanced by `delta`. */
  function Advance(w: World, delta: real, draw: real): World
    requires 0.0 <= draw < 1.0 && w.speedScale != 0.0
  {
    var st1 := GroundStep(w.style, delta, w.speedScale);
    var d2 := DinoStep(w.dino, st1, delta, w.speedScale).0;
    var st2 := DinoStep(w.dino, st1, delta, w.speedScale).1;
    w.(style := CactusStyle(w.spawner, st2, delta, w.speedScale),
       dino := d2,
       spawner := CactusStep(w.spawner, st2, delta, w.speedScale, draw),
       speedScale := w.speedScale + SpeedGain(delta),
       score := w.score + ScoreGain(delta),
       scoreText := (w.score + ScoreGain(delta)).Floor)
  }

  /** Whether the advanced world has a cactus overlapping the dino. */
  predicate Lost(w: World, layout: Elem -> Rect) {
    CheckLose(GetCactusRects(w.spawner.live, layout), layout(DinoSprite))
  }

  /** `update(time)`: the first frame after start only records the time. */
  function UpdateSpec(w: World, time: real, draw: real, layout: Elem -> Rect): World
    requires 0.0 <= draw < 1.0 && w.speedScale != 0.0
  {
    if w.lastTime.None? then w.(lastTime := Some(time), frameRequested := true)
    else
      var a := Advance(w, time - w.lastTime.value, draw);
      if Lost(a, layout) then LoseSpec(a)
      else a.(lastTime := Some(time), frameRequested := true)
  }

  /** An animation frame calls update only when one was requested. */
  function FrameSpec(w: World, time: real, draw: real, layout: Elem -> Rect): World
    requires 0.0 <= draw < 1.0 && w.speedScale != 0.0
  {
    if w.frameRequested then UpdateSpec(w.(frameRequested := false), time, draw, layout) else w
  }

  /** The restart timer makes the next click start a run. */
  function TimerSpec(w: World): World {
    if w.restartPending then w.(restartPending := false, startArmed := true) else w
  }

  /** The once-only click listener starts a run and is gone. */
  function ClickSpec(w: World): World {
    if w.startArmed then StartSpec(w.(startArmed := false)) else w
  }

  function KeySpec(w: World, key: string): World {
    w.(dino := KeyDownSpec(w.dino, key))
  }

  /** What holds of the world in every reachable state; it keeps the spawn division defined. */
  predicate Consistent(w: World) {
    w.speedScale >= 1.0 && w.score >= 0.0 && SpawnerValid(w.spawner)
    && (w.dino.listening ==> OnOrAboveFloor(w.dino, w.style))
  }

  /** Exactly one thing is pending: a frame (running), the restart timer (lost) or the
      start click (idle). */
  predicate OnePhase(w: World) {
    (if w.frameRequested then 1 else 0) + (if w.restartPending then 1 else 0)
      + (if w.startArmed then 1 else 0) == 1
  }

  /** Time never runs backwards between the recorded frame and the next one. */
  predicate Monotone(w: World, time: real) {
    w.lastTime.Some? ==> time >= w.lastTime.value
  }

  // ---- the imperative game ----

  class Game {
    var frameRequested: bool
    var restartPending: bool
    var startArmed: bool
    var lastTime: Option<real>
    var speedScale: real
    var score: real
    var scoreText: int
    var worldWidth: real
    var worldHeight: real
    const store: Store
    const dino: Dino
    const spawner: Spawner

    function Snapshot(): World
      reads this, store, dino, spawner
    {
      World(frameRequested, restartPending, startArmed, lastTime, speedScale, score, scoreText,
            dino.State(), spawner.State(), store.style)
    }

    /** Mounting: size the world and arm the start click. */
    constructor (sheet: Style, innerWidth: real, innerHeight: real)
      requires innerWidth > 0.0 && innerHeight > 0.0
      ensures Snapshot() == World(false, false, true, None, 1.0, 0.0, 0,
                                  DinoState(false, false, 0, 0.0, 0.0, Stationary),
                                  SpawnerState(CACTUS_INTERVAL_MIN as real, [], 0), sheet)
      ensures worldWidth == WORLD_WIDTH * WorldToPixelScale(innerWidth, innerHeight)
      ensures worldHeight == WORLD_HEIGHT * WorldToPixelScale(innerWidth, innerHeight)
      ensures fresh(store) && fresh(dino) && fresh(spawner)
    {
      store := new Store(sheet);
      dino := new Dino();
      spawner := new Spawner();
      frameRequested := false;
      restartPending := false;
      startArmed := true;
      lastTime := None;
      speedScale := 1.0;
      score := 0.0;
      scoreText := 0;
      var s := WorldToPixelScale(innerWidth, innerHeight);
      worldWidth := WORLD_WIDTH * s;
      worldHeight := WORLD_HEIGHT * s;
    }

    method SetPixelToWorldScale(innerWidth: real, innerHeight: real)
      requires innerWidth > 0.0 && innerHeight > 0.0
      modifies this
      ensures worldWidth == WORLD_WIDTH * WorldToPixelScale(innerWidth, innerHeight)
      ensures worldHeight == WORLD_HEIGHT * WorldToPixelScale(innerWidth, innerHeight)
      ensures Snapshot() == old(Snapshot())
    {
      var worldToPixelScale: real;
      if innerWidth / innerHeight < WORLD_WIDTH / WORLD_HEIGHT {
        worldToPixelScale := innerWidth / WORLD_WIDTH;
      } else {
        worldToPixelScale := innerHeight / WORLD_HEIGHT;
      }
      worldWidth := WORLD_WIDTH * worldToPixelScale;
      worldHeight := WORLD_HEIGHT * worldToPixelScale;
    }

    method HandleStart()
      modifies this, store, dino, spawner
      ensures Snapshot() == StartSpec(old(Snapshot()))
      ensures worldWidth == old(worldWidth) && worldHeight == old(worldHeight)
    {
      lastTime := None;
      speedScale := 1.0;
      score := 0.0;
      SetupGround(store);
      dino.SetupDino(store);
      spawner.SetupCactus();
      frameRequested := true;
    }

    method UpdateSpeedScale(delta: real)
      modifies this
      ensures speedScale == old(speedScale) + delta * SPEED_SCALE_INCREASE
      ensures Snapshot() == old(Snapshot()).(speedScale := speedScale)
      ensures worldWidth == old(worldWidth) && worldHeight == old(worldHeight)
    {
      speedScale := speedScale + delta * SPEED_SCALE_INCREASE;
    }

    method UpdateScore(delta: real)
      modifies this
      ensures score == old(score) + delta * SCORE_PER_MS && scoreText == score.Floor
      ensures Snapshot() == old(Snapshot()).(score := score, scoreText := scoreText)
      ensures worldWidth == old(worldWidth) && worldHeight == old(worldHeight)
    {
      score := score + delta * SCORE_PER_MS;
      scoreText := score.Floor;
    }

    method HandleLose()
      modifies this, dino
      ensures Snapshot() == LoseSpec(old(Snapshot()))
      ensures worldWidth == old(worldWidth) && worldHeight == old(worldHeight)
    {
      dino.SetDinoLose();
      restartPending := true;
    }

    method Update(time: real, draw: real, layout: Elem -> Rect)
      requires 0.0 <= draw < 1.0 && Consistent(Snapshot())
      modifies this, store, dino, spawner
      ensures Snapshot() == UpdateSpec(old(Snapshot()), time, draw, layout)
      ensures worldWidth == old(worldWidth) && worldHeight == old(worldHeight)
    {
      if lastTime.None? {
        lastTime := Some(time);
        frameRequested := true;
        return;
      }
      var delta := time - lastTime.value;
      ghost var w := old(Snapshot());
      AdvanceAll(delta, draw);
      ghost var a := Advance(w, delta, draw);
      UpdateAfterFirst(w, time, delta, draw, layout, a);
      if CheckLose(GetCactusRects(spawner.live, layout), layout(DinoSprite)) {
        assert Lost(a, layout);
        HandleLose();
        return;
      }
      lastTime := Some(time);
      frameRequested := true;
    }

    /** Lines 58-62 of `update`: ground, dino, cacti, speed and score, all by `delta`. */
    method AdvanceAll(delta: real, draw: real)
      requires 0.0 <= draw < 1.0 && Consistent(Snapshot())
      modifies this, store, dino, spawner
      ensures Snapshot() == Advance(old(Snapshot()), delta, draw)
      ensures worldWidth == old(worldWidth) && worldHeight == old(worldHeight)
    {
      ghost var w := old(Snapshot());
      ghost var st1 := GroundStep(w.style, delta, w.speedScale);
      ghost var st2 := DinoStep(w.dino, st1, delta, w.speedScale).1;
      UpdateGround(store, delta, speedScale);
      assert store.style == st1;
      dino.UpdateDino(delta, speedScale, store);
      assert store.style == st2 && dino.State() == DinoStep(w.dino, st1, delta, w.speedScale).0;
      spawner.UpdateCactus(delta, speedScale, draw, store);
      assert store.style == CactusStyle(w.spawner, st2, delta, w.speedScale);
      assert spawner.State() == CactusStep(w.spawner, st2, delta, w.speedScale, draw);
      UpdateSpeedScale(delta);
      UpdateScore(delta);
    }

    /** A `requestAnimationFrame` callback arriving at `time`. */
    method AnimationFrame(time: real, draw: real, layout: Elem -> Rect)
      requires 0.0 <= draw < 1.0 && Consistent(Snapshot())
      modifies this, store, dino, spawner
      ensures Snapshot() == FrameSpec(old(Snapshot()), time, draw, layout)
    {
      if frameRequested {
        frameRequested := false;
        Update(time, draw, layout);
      }
    }

    /** The 100 ms `setTimeout` of `handleLose` firing. */
    method RestartTimerFires()
      modifies this
      ensures Snapshot() == TimerSpec(old(Snapshot()))
    {
      if restartPending {
        restartPending := false;
        startArmed := true;
      }
    }

    method Click()
      modifies this, store, dino, spawner
      ensures Snapshot() == ClickSpec(old(Snapshot()))
    {
      if startArmed {
        startArmed := false;
        HandleStart();
      }
    }

    method KeyDown(key: string)
      modifies dino
      ensures Snapshot() == KeySpec(old(Snapshot()), key)
    {
      dino.KeyDown(key);
    }
  }

  /** Every frame after the first advances the world and then runs the lose check. */
  lemma UpdateAfterFirst(w: World, time: real, delta: real, draw: real, layout: Elem -> Rect, a: World)
    requires 0.0 <= draw < 1.0 && w.speedScale != 0.0 && w.lastTime.Some?
    requires delta == time - w.lastTime.value && a == Advance(w, delta, draw)
    ensures Lost(a, layout) ==> UpdateSpec(w, time, draw, layout) == LoseSpec(a)
    ensures !Lost(a, layout) ==>
              UpdateSpec(w, time, draw, layout) == a.(lastTime := Some(time), frameRequested := true)
  {
  }

  // ---- properties of the loop ----

  /** `handleStart` resets time, speed and score whatever came before, places the ground
      and the dino, empties the page of cacti and asks for a frame. */
  lemma StartResets(w: World)
    ensures var s := StartSpec(w);
            s.lastTime == None && s.speedScale == 1.0 && s.score == 0.0 && s.frameRequested
            && s.spawner.live == [] && !s.dino.isJumping && s.dino.listening
            && Read(s.style, Ground1, LEFT) == 0.0 && Read(s.style, Ground2, LEFT) == 300.0
            && Read(s.style, DinoSprite, BOTTOM) == 0.0
    ensures Consistent(w) ==> Consistent(StartSpec(w))
  {
    SetupPlacesSegments(w.style);
    SetupGrounds(w.dino, GroundSetup(w.style));
  }

  /** The first frame after a start only records its time; nothing moves. */
  lemma FirstFrameOnlyRecords(w: World, time: real, draw: real, layout: Elem -> Rect)
    requires 0.0 <= draw < 1.0 && w.speedScale != 0.0 && w.lastTime.None?
    ensures var u := UpdateSpec(w, time, draw, layout);
            u.lastTime == Some(time) && u.frameRequested
            && u.style == w.style && u.dino == w.dino && u.spawner == w.spawner
            && u.speedScale == w.speedScale && u.score == w.score
  {
  }

  /** On every later frame, lost or not, speed and score rise by exactly the tick's share,
      and neither falls when time does not run backwards. */
  lemma TickGains(w: World, time: real, draw: real, layout: Elem -> Rect)
    requires 0.0 <= draw < 1.0 && w.speedScale != 0.0 && w.lastTime.Some?
    ensures var u := UpdateSpec(w, time, draw, layout);
            var delta := time - w.lastTime.value;
            u.speedScale == w.speedScale + delta * 0.00001 && u.score == w.score + delta * 0.01
    ensures Monotone(w, time) ==>
              UpdateSpec(w, time, draw, layout).speedScale >= w.speedScale
              && UpdateSpec(w, time, draw, layout).score >= w.score
  {
  }

  /** Ground and cacti move by the same `Shift`, that is `delta * speedScale * 0.05` with
      the speed before this tick's increase, whether or not the frame is lost. */
  lemma TickMovesWorld(w: World, time: real, draw: real, layout: Elem -> Rect)
    requires 0.0 <= draw < 1.0 && w.speedScale != 0.0 && w.lastTime.Some?
    requires SpawnerValid(w.spawner)
    ensures var u := UpdateSpec(w, time, draw, layout);
            var shift := Shift(time - w.lastTime.value, w.speedScale);
            Read(u.style, Ground1, LEFT) == Scroll(Read(w.style, Ground1, LEFT), shift)
            && Read(u.style, Ground2, LEFT) == Scroll(Read(w.style, Ground2, LEFT), shift)
            && forall x :: x in w.spawner.live ==>
                 Read(u.style, Cactus(x), LEFT) == Read(w.style, Cactus(x), LEFT) - shift
  {
    var delta := time - w.lastTime.value;
    assert UpdateSpec(w, time, draw, layout).style == Advance(w, delta, draw).style;
    AdvanceMoves(w, delta, draw);
  }

  /** The dino's share of the same tick: its run and jump step take the tick's delta and
      the speed from before the tick, and only its pose may change afterwards (on a loss). */
  lemma TickMovesDino(w: World, time: real, draw: real, layout: Elem -> Rect)
    requires 0.0 <= draw < 1.0 && w.speedScale != 0.0 && w.lastTime.Some?
    ensures var u := UpdateSpec(w, time, draw, layout);
            var delta := time - w.lastTime.value;
            var step := DinoStep(w.dino, GroundStep(w.style, delta, w.speedScale), delta, w.speedScale);
            u.dino.(pose := step.0.pose) == step.0
            && Read(u.style, DinoSprite, BOTTOM) == Read(step.1, DinoSprite, BOTTOM)
  {
    var delta := time - w.lastTime.value;
    var st1 := GroundStep(w.style, delta, w.speedScale);
    var st2 := DinoStep(w.dino, st1, delta, w.speedScale).1;
    AdvanceStyle(w, delta, draw, st1, st2);
    CactusStyleFrame(w.spawner, st2, delta, w.speedScale);
    assert UpdateSpec(w, time, draw, layout).style == Advance(w, delta, draw).style;
  }

  lemma AdvanceMoves(w: World, delta: real, draw: real)
    requires 0.0 <= draw < 1.0 && w.speedScale != 0.0
    requires SpawnerValid(w.spawner)
    ensures var st := Advance(w, delta, draw).style;
            var shift := Shift(delta, w.speedScale);
            Read(st, Ground1, LEFT) == Scroll(Read(w.style, Ground1, LEFT), shift)
            && Read(st, Ground2, LEFT) == Scroll(Read(w.style, Ground2, LEFT), shift)
            && forall x :: x in w.spawner.live ==>
                 Read(st, Cactus(x), LEFT) == Read(w.style, Cactus(x), LEFT) - shift
  {
    var st1 := GroundStep(w.style, delta, w.speedScale);
    var st2 := DinoStep(w.dino, st1, delta, w.speedScale).1;
    AdvanceStyle(w, delta, draw, st1, st2);
    GroundStepSegments(w.style, delta, w.speedScale);
    DinoStyleFrame(w.dino, st1, delta, w.speedScale);
    CactusStyleFrame(w.spawner, st2, delta, w.speedScale);
    CactusMovesFromStart(w, delta, st1, st2);
  }

  lemma AdvanceStyle(w: World, delta: real, draw: real, st1: Style, st2: Style)
    requires 0.0 <= draw < 1.0 && w.speedScale != 0.0
    requires st1 == GroundStep(w.style, delta, w.speedScale)
    requires st2 == DinoStep(w.dino, st1, delta, w.speedScale).1
    ensures Advance(w, delta, draw).style == CactusStyle(w.spawner, st2, delta, w.speedScale)
  {
  }

  /** The cacti see the positions they had before the tick: ground and dino do not touch them. */
  lemma CactusMovesFromStart(w: World, delta: real, st1: Style, st2: Style)
    requires SpawnerValid(w.spawner)
    requires forall e, p :: (e, p) != (Ground1, LEFT) && (e, p) != (Ground2, LEFT) ==> Read(st1, e, p) == Read(w.style, e, p)
    requires forall e, p :: (e, p) != (DinoSprite, BOTTOM) ==> Read(st2, e, p) == Read(st1, e, p)
    ensures forall x :: x in w.spawner.live ==>
              Read(CactusStyle(w.spawner, st2, delta, w.speedScale), Cactus(x), LEFT)
              == Read(w.style, Cactus(x), LEFT) - Shift(delta, w.speedScale)
  {
    CactusStepPositions(w.spawner, st2, delta, w.speedScale);
    forall x | x in w.spawner.live
      ensures Read(st2, Cactus(x), LEFT) == Read(w.style, Cactus(x), LEFT)
    {
      assert Read(st2, Cactus(x), LEFT) == Read(st1, Cactus(x), LEFT);
    }
  }

  /** The dino's step touches only its own `--bottom`. */
  lemma DinoStyleFrame(d: DinoState, st: Style, delta: real, speedScale: real)
    ensures forall e, p :: (e, p) != (DinoSprite, BOTTOM) ==>
              Read(DinoStep(d, st, delta, speedScale).1, e, p) == Read(st, e, p)
  {
    var r := RunStep(d, delta, speedScale);
    if r.isJumping {
      LandingClamp(r, st, delta);
    }
  }

  /** The cacti's step touches only cactus `--left` values. */
  lemma CactusStyleFrame(c: SpawnerState, st: Style, delta: real, speedScale: real)
    ensures forall e: Elem, p: string :: !(e.Cactus? && p == LEFT) ==>
              Read(CactusStyle(c, st, delta, speedScale), e, p) == Read(st, e, p)
  {
    forall e: Elem, p: string | !(e.Cactus? && p == LEFT)
      ensures Read(CactusStyle(c, st, delta, speedScale), e, p) == Read(st, e, p)
    {
      MoveAllFrame(c.live, st, CactusShift(delta, speedScale), e, p);
    }
  }

  /** A losing frame stops the loop: no frame is requested, the time is not recorded,
      the restart timer is set and the dino shows the lose sprite. A frame that does not
      lose records its time and asks for the next frame. */
  lemma LossStopsTicking(w: World, time: real, draw: real, layout: Elem -> Rect)
    requires 0.0 <= draw < 1.0 && w.speedScale != 0.0 && w.lastTime.Some? && !w.frameRequested
    ensures var u := UpdateSpec(w, time, draw, layout);
            Lost(u, layout) <==> Lost(Advance(w, time - w.lastTime.value, draw), layout)
    ensures var u := UpdateSpec(w, time, draw, layout);
            if Lost(Advance(w, time - w.lastTime.value, draw), layout)
            then !u.frameRequested && u.restartPending && u.lastTime == w.lastTime && u.dino.pose == Lose
            else u.frameRequested && u.restartPending == w.restartPending && u.lastTime == Some(time)
  {
  }

  /** Every transition keeps the world consistent, given frames whose times do not run backwards. */
  lemma ConsistentKept(w: World, time: real, draw: real, layout: Elem -> Rect, key: string)
    requires Consistent(w) && 0.0 <= draw < 1.0
    ensures Monotone(w, time) ==> Consistent(FrameSpec(w, time, draw, layout))
    ensures Consistent(TimerSpec(w)) && Consistent(ClickSpec(w)) && Consistent(KeySpec(w, key))
  {
    if Monotone(w, time) {
      FrameKeepsConsistent(w, time, draw, layout);
    }
    ClickKeepsConsistent(w);
    KeyKeepsConsistent(w, key);
  }

  lemma FrameKeepsConsistent(w: World, time: real, draw: real, layout: Elem -> Rect)
    requires Consistent(w) && 0.0 <= draw < 1.0 && Monotone(w, time)
    ensures Consistent(FrameSpec(w, time, draw, layout))
  {
    if w.frameRequested && w.lastTime.Some? {
      AdvanceConsistent(w.(frameRequested := false), time - w.lastTime.value, draw);
    }
  }

  lemma ClickKeepsConsistent(w: World)
    requires Consistent(w)
    ensures Consistent(ClickSpec(w))
  {
    StartResets(w.(startArmed := false));
  }

  lemma KeyKeepsConsistent(w: World, key: string)
    requires Consistent(w)
    ensures Consistent(KeySpec(w, key))
  {
    if w.dino.listening {
      FloorInvariantKept(w.dino, w.style, 0.0, 1.0, key);
    }
  }

  lemma AdvanceConsistent(w: World, delta: real, draw: real)
    requires Consistent(w) && 0.0 <= draw < 1.0 && delta >= 0.0
    ensures Consistent(Advance(w, delta, draw))
    ensures Consistent(LoseSpec(Advance(w, delta, draw)))
  {
    var st1 := GroundStep(w.style, delta, w.speedScale);
    var st2 := DinoStep(w.dino, st1, delta, w.speedScale).1;
    var d2 := DinoStep(w.dino, st1, delta, w.speedScale).0;
    GroundStepSegments(w.style, delta, w.speedScale);
    CactusStyleFrame(w.spawner, st2, delta, w.speedScale);
    CactusStepValid(w.spawner, st2, delta, w.speedScale, draw);
    if w.dino.listening {
      assert OnOrAboveFloor(w.dino, st1);
      FloorInvariantKept(w.dino, st1, delta, w.speedScale, "");
      assert OnOrAboveFloor(d2, st2);
    }
    assert SpeedGain(delta) >= 0.0 && ScoreGain(delta) >= 0.0;
  }

  /** The world a freshly mounted game starts from satisfies both invariants. */
  lemma MountedWorldInvariants(sheet: Style)
    ensures var w := World(false, false, true, None, 1.0, 0.0, 0,
                           DinoState(false, false, 0, 0.0, 0.0, Stationary),
                           SpawnerState(CACTUS_INTERVAL_MIN as real, [], 0), sheet);
            Consistent(w) && OnePhase(w)
  {
  }

  /** Exactly one of frame, restart timer and start click is pending at any time. */
  lemma OnePhaseKept(w: World, time: real, draw: real, layout: Elem -> Rect, key: string)
    requires OnePhase(w) && 0.0 <= draw < 1.0 && w.speedScale != 0.0
    ensures OnePhase(FrameSpec(w, time, draw, layout)) && OnePhase(TimerSpec(w))
    ensures OnePhase(ClickSpec(w)) && OnePhase(KeySpec(w, key))
  {
  }
}
