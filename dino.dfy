/** The player character: a two-frame run animation on the ground and
    single-axis jump physics, with its height published as `--bottom`. */
module DinoController {
  import opened Common
  import opened PropertyStore

  const JUMP_SPEED: real := 0.45
  const GRAVITY: real := 0.0015
  const DINO_FRAME_COUNT: int := 2
  const FRAME_TIME: real := 100.0
  const JUMP_KEY: string := "p"

  /** `dinoRef`: the sprite is reached through a React ref. */
  const Sprite: Handle := Ref(Some(DinoSprite))

  /** The image the sprite shows. */
  datatype Pose = Stationary | Run0 | Run1 | Lose

  /** The module-level state of the controller, plus whether its keydown
      listener is registered and which image it shows. */
  datatype DinoState = DinoState(
    listening: bool,
    isJumping: bool,
    dinoFrame: int,
    currentFrameTime: real,
    yVelocity: real,
    pose: Pose)

  /** What `setupDino` does to the controller's state (the image is left as it was). */
  function SetupState(d: DinoState): DinoState {
    d.(listening := true, isJumping := false, dinoFrame := 0, currentFrameTime := 0.0, yVelocity := 0.0)
  }

  /** What `setupDino` does to the store. */
  function SetupStyle(st: Style): Style {
    Write(st, DinoSprite, BOTTOM, 0.0)
  }

  /** `handleRun`: a frozen pose while airborne; otherwise a leaky frame accumulator. */
  function RunStep(d: DinoState, delta: real, speedScale: real): DinoState {
    if d.isJumping then d.(pose := Stationary)
    else if d.currentFrameTime >= FRAME_TIME then
      var frame := (d.dinoFrame + 1) % DINO_FRAME_COUNT;
      d.(dinoFrame := frame,
         pose := if frame == 0 then Run0 else Run1,
         currentFrameTime := d.currentFrameTime - FRAME_TIME + delta * speedScale)
    else d.(currentFrameTime := d.currentFrameTime + delta * speedScale)
  }

  /** The height the sprite is moved to by one tick's velocity. */
  function JumpHeight(d: DinoState, st: Style, delta: real): real {
    Read(st, DinoSprite, BOTTOM) + d.yVelocity * delta
  }

  /** `handleJump`: move by the velocity, clamp to the floor, then apply gravity. */
  function JumpStep(d: DinoState, st: Style, delta: real): (DinoState, Style) {
    if !d.isJumping then (d, st)
    else
      var height := JumpHeight(d, st, delta);
      var landed := height <= 0.0;
      (d.(isJumping := !landed, yVelocity := d.yVelocity - GRAVITY * delta),
       Write(st, DinoSprite, BOTTOM, if landed then 0.0 else height))
  }

  /** `updateDino`: the run animation, then the jump physics. */
  function DinoStep(d: DinoState, st: Style, delta: real, speedScale: real): (DinoState, Style) {
    JumpStep(RunStep(d, delta, speedScale), st, delta)
  }

  /** `onJump`: only the jump key, and only while on the ground, starts a jump. */
  function OnJumpSpec(d: DinoState, key: string): DinoState {
    if key != JUMP_KEY || d.isJumping then d
    else d.(yVelocity := JUMP_SPEED, isJumping := true)
  }

  /** A keydown reaching the document: handled only once `setupDino` registered `onJump`. */
  function KeyDownSpec(d: DinoState, key: string): DinoState {
    if d.listening then OnJumpSpec(d, key) else d
  }

  /** The floor is hard: the sprite is never below it, and it is on it whenever not jumping. */
  predicate OnOrAboveFloor(d: DinoState, st: Style) {
    Read(st, DinoSprite, BOTTOM) >= 0.0 && (!d.isJumping ==> Read(st, DinoSprite, BOTTOM) == 0.0)
  }

  class Dino {
    var listening: bool
    var isJumping: bool
    var dinoFrame: int
    var currentFrameTime: real
    var yVelocity: real
    var pose: Pose

    function State(): DinoState
      reads this
    {
      DinoState(listening, isJumping, dinoFrame, currentFrameTime, yVelocity, pose)
    }

    /** Module load: no listener yet, the stationary image from the markup. */
    constructor ()
      ensures State() == DinoState(false, false, 0, 0.0, 0.0, Stationary)
    {
      listening, isJumping, dinoFrame, currentFrameTime, yVelocity := false, false, 0, 0.0, 0.0;
      pose := Stationary;
    }

    method SetupDino(store: Store)
      modifies this, store
      ensures State() == SetupState(old(State()))
      ensures store.style == SetupStyle(old(store.style))
    {
      isJumping := false;
      dinoFrame := 0;
      currentFrameTime := 0.0;
      yVelocity := 0.0;
      store.SetCustomProperty(Sprite, BOTTOM, 0.0);
      listening := true;
    }

    method UpdateDino(delta: real, speedScale: real, store: Store)
      modifies this, store
      ensures State() == DinoStep(old(State()), old(store.style), delta, speedScale).0
      ensures store.style == DinoStep(old(State()), old(store.style), delta, speedScale).1
    {
      HandleRun(delta, speedScale);
      HandleJump(delta, store);
    }

    method SetDinoLose()
      modifies this
      ensures State() == old(State()).(pose := Lose)
    {
      pose := Lose;
    }

    method HandleRun(delta: real, speedScale: real)
      modifies this
      ensures State() == RunStep(old(State()), delta, speedScale)
    {
      if isJumping {
        pose := Stationary;
        return;
      }
      if currentFrameTime >= FRAME_TIME {
        dinoFrame := (dinoFrame + 1) % DINO_FRAME_COUNT;
        pose := if dinoFrame == 0 then Run0 else Run1;
        currentFrameTime := currentFrameTime - FRAME_TIME;
      }
      currentFrameTime := currentFrameTime + delta * speedScale;
    }

    method HandleJump(delta: real, store: Store)
      modifies this, store
      ensures State() == JumpStep(old(State()), old(store.style), delta).0
      ensures store.style == JumpStep(old(State()), old(store.style), delta).1
    {
      if !isJumping {
        return;
      }
      ghost var height := JumpHeight(State(), store.style, delta);
      store.IncrementCustomProperty(Sprite, BOTTOM, yVelocity * delta);
      assert store.GetCustomProperty(Sprite, BOTTOM) == height;
      if store.GetCustomProperty(Sprite, BOTTOM) <= 0.0 {
        store.SetCustomProperty(Sprite, BOTTOM, 0.0);
        isJumping := false;
      }
      yVelocity := yVelocity - GRAVITY * delta;
    }

    method OnJump(key: string)
      modifies this
      ensures State() == OnJumpSpec(old(State()), key)
    {
      if key != JUMP_KEY || isJumping {
        return;
      }
      yVelocity := JUMP_SPEED;
      isJumping := true;
    }

    /** The document dispatching a keydown to its listeners. */
    method KeyDown(key: string)
      modifies this
      ensures State() == KeyDownSpec(old(State()), key)
    {
      if listening {
        OnJump(key);
      }
    }
  }

  /** `setupDino` grounds the character with the run animation reset. */
  lemma SetupGrounds(d: DinoState, st: Style)
    ensures var s := SetupState(d);
            !s.isJumping && s.dinoFrame == 0 && s.currentFrameTime == 0.0 && s.yVelocity == 0.0 && s.listening
    ensures Read(SetupStyle(st), DinoSprite, BOTTOM) == 0.0
    ensures OnOrAboveFloor(SetupState(d), SetupStyle(st))
  {
  }

  /** Any other key, or a second jump while airborne, changes nothing. */
  lemma JumpGuard(d: DinoState, key: string)
    requires key != JUMP_KEY || d.isJumping
    ensures OnJumpSpec(d, key) == d
  {
  }

  /** An accepted jump sets the upward speed and the jumping flag, and nothing else. */
  lemma JumpAccepted(d: DinoState)
    requires !d.isJumping
    ensures OnJumpSpec(d, JUMP_KEY) == d.(yVelocity := 0.45, isJumping := true)
  {
  }

  /** The jump physics leave a grounded character alone. */
  lemma JumpStepGroundedNoOp(d: DinoState, st: Style, delta: real)
    requires !d.isJumping
    ensures JumpStep(d, st, delta) == (d, st)
  {
  }

  /** A jumping tick never leaves the sprite below the floor; a tick that reaches the
      floor clamps it to exactly 0 and ends the jump; one that does not keeps jumping
      at the integrated height. Gravity is applied in both cases, landing included. */
  lemma LandingClamp(d: DinoState, st: Style, delta: real)
    requires d.isJumping
    ensures var (d', st') := JumpStep(d, st, delta);
            var h := Read(st, DinoSprite, BOTTOM) + d.yVelocity * delta;
            Read(st', DinoSprite, BOTTOM) >= 0.0 &&
            (h <= 0.0 ==> Read(st', DinoSprite, BOTTOM) == 0.0 && !d'.isJumping) &&
            (h > 0.0 ==> Read(st', DinoSprite, BOTTOM) == h && d'.isJumping) &&
            d'.yVelocity == d.yVelocity - 0.0015 * delta
    ensures forall e, p :: (e, p) != (DinoSprite, BOTTOM) ==> Read(JumpStep(d, st, delta).1, e, p) == Read(st, e, p)
  {
  }

  /** From `setupDino` onward the floor invariant holds: every tick and every key keeps it. */
  lemma FloorInvariantKept(d: DinoState, st: Style, delta: real, speedScale: real, key: string)
    requires OnOrAboveFloor(d, st)
    ensures OnOrAboveFloor(DinoStep(d, st, delta, speedScale).0, DinoStep(d, st, delta, speedScale).1)
    ensures OnOrAboveFloor(KeyDownSpec(d, key), st)
  {
    var r := RunStep(d, delta, speedScale);
    if r.isJumping {
      LandingClamp(r, st, delta);
    }
  }

  /** The run animation only touches the frame, the accumulator and the image; it keeps
      the frame in {0, 1}; it is frozen while jumping; on the ground it subtracts
      FRAME_TIME when the accumulator has reached it (rather than resetting) and then
      adds the scaled delta. */
  lemma RunStepFacts(d: DinoState, delta: real, speedScale: real)
    ensures var r := RunStep(d, delta, speedScale);
            r.isJumping == d.isJumping && r.yVelocity == d.yVelocity && r.listening == d.listening
    ensures d.dinoFrame in {0, 1} ==> RunStep(d, delta, speedScale).dinoFrame in {0, 1}
    ensures d.isJumping ==> RunStep(d, delta, speedScale) == d.(pose := Stationary)
    ensures !d.isJumping ==>
              RunStep(d, delta, speedScale).currentFrameTime
              == d.currentFrameTime - (if d.currentFrameTime >= FRAME_TIME then FRAME_TIME else 0.0) + delta * speedScale
    ensures !d.isJumping && d.dinoFrame in {0, 1} ==>
              RunStep(d, delta, speedScale).dinoFrame
              == (if d.currentFrameTime >= FRAME_TIME then 1 - d.dinoFrame else d.dinoFrame)
  {
  }

  /** The scaled time of a run of ticks, each given as (delta, speedScale). */
  function ScaledTime(ticks: seq<(real, real)>): real {
    if ticks == [] then 0.0 else ticks[0].0 * ticks[0].1 + ScaledTime(ticks[1..])
  }

  /** The state after a run of grounded ticks, and how many frame changes they made. */
  function RunMany(d: DinoState, ticks: seq<(real, real)>): (DinoState, nat)
    decreases |ticks|
  {
    if ticks == [] then (d, 0)
    else
      var next := RunStep(d, ticks[0].0, ticks[0].1);
      var rest := RunMany(next, ticks[1..]);
      (rest.0, rest.1 + (if d.currentFrameTime >= FRAME_TIME then 1 else 0))
  }

  /** The accumulator is leaky, so no timing error builds up: after any run of grounded
      ticks it holds exactly the scaled time that passed, less FRAME_TIME per frame change,
      and the frame has alternated once per change. */
  lemma {:induction false} RunAccumulatorConserves(d: DinoState, ticks: seq<(real, real)>)
    requires !d.isJumping && d.dinoFrame in {0, 1}
    ensures var (r, flips) := RunMany(d, ticks);
            r.currentFrameTime + FRAME_TIME * flips as real == d.currentFrameTime + ScaledTime(ticks) &&
            r.dinoFrame == (d.dinoFrame + flips) % 2 && !r.isJumping
    decreases |ticks|
  {
    if ticks != [] {
      var next := RunStep(d, ticks[0].0, ticks[0].1);
      RunStepFacts(d, ticks[0].0, ticks[0].1);
      RunAccumulatorConserves(next, ticks[1..]);
    }
  }
}
