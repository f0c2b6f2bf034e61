/** The pinch classifier: each detection pass sets the `isTouching` flag from the
    distance between the thumb tip (landmark 4) and the index tip (landmark 8), and a
    `'p'` keydown reaches the game whenever the committed flag changes. */
module PinchClassifier {
  import opened Common
  import opened PropertyStore
  import opened DinoController
  import opened CactusSpawner
  import opened GameLoop

  const THUMB_TIP: int := 4
  const INDEX_TIP: int := 8
  /** The pinch threshold of 30 px, squared, so that no square root is needed. */
  const PINCH_SQUARED: real := 900.0

  /** One hand from the detector: its 21 landmarks. */
  datatype Prediction = Prediction(landmarks: Landmarks)

  function SquaredDistance(a: Point, b: Point): (r: real)
    ensures r >= 0.0
  {
    (a.x - b.x) * (a.x - b.x) + (a.y - b.y) * (a.y - b.y)
  }

  /** `dist < 30`, with `dist` the distance of the two tips. */
  predicate IsPinching(p: Prediction) {
    SquaredDistance(p.landmarks[THUMB_TIP], p.landmarks[INDEX_TIP]) < PINCH_SQUARED
  }

  /** The flag after `forEach` has called `setIsTouching` once per prediction, in order,
      starting from the committed value `current`; the last call wins. */
  function Classify(preds: seq<Prediction>, current: bool): bool {
    if preds == [] then current else Classify(preds[1..], IsPinching(preds[0]))
  }

  /** `handleDistance` followed by the `[isTouching]` effect: whether a `'p'` keydown is dispatched. */
  predicate Dispatches(preds: seq<Prediction>, current: bool) {
    Classify(preds, current) != current
  }

  // ---- properties ----

  /** For the true distance `dist` (the square root of the squared distance), the
      squared test agrees with `dist < 30`; a distance of exactly 30 is not a pinch. */
  lemma PinchMatchesDistance(p: Prediction, dist: real)
    requires dist >= 0.0
    requires dist * dist == SquaredDistance(p.landmarks[THUMB_TIP], p.landmarks[INDEX_TIP])
    ensures IsPinching(p) <==> dist < 30.0
  {
    if dist >= 30.0 {
      assert dist * dist >= 30.0 * dist >= 900.0;
    } else {
      assert dist * dist <= dist * 30.0 < 900.0;
    }
  }

  /** An empty detection leaves the flag as it was, and nothing is dispatched. */
  lemma EmptyKeepsFlag(current: bool)
    ensures Classify([], current) == current && !Dispatches([], current)
  {
  }

  /** With several hands, the last one alone decides the flag. */
  lemma {:induction false} LastPredictionDecides(preds: seq<Prediction>, current: bool)
    requires preds != []
    ensures Classify(preds, current) == IsPinching(preds[|preds| - 1])
    decreases |preds|
  {
    if |preds| > 1 {
      LastPredictionDecides(preds[1..], IsPinching(preds[0]));
    }
  }

  /** A keydown goes out on both edges: when a pinch starts and when it ends. */
  lemma DispatchOnBothEdges(preds: seq<Prediction>, current: bool)
    requires preds != []
    ensures Dispatches(preds, current) <==> IsPinching(preds[|preds| - 1]) != current
    ensures !current ==> (Dispatches(preds, current) <==> IsPinching(preds[|preds| - 1]))
    ensures current ==> (Dispatches(preds, current) <==> !IsPinching(preds[|preds| - 1]))
  {
    LastPredictionDecides(preds, current);
  }

  /** Only the thumb tip and the index tip are looked at. */
  lemma OnlyTipsMatter(p: Prediction, q: Prediction)
    requires p.landmarks[THUMB_TIP] == q.landmarks[THUMB_TIP]
    requires p.landmarks[INDEX_TIP] == q.landmarks[INDEX_TIP]
    ensures IsPinching(p) <==> IsPinching(q)
  {
  }

  // ---- the component ----

  class App {
    var isTouching: bool
    /** How many `'p'` keydowns the effect has dispatched. */
    var keydowns: nat
    const game: Game

    /** Mounting: the game mounts and arms its start click, then the effect dispatches
        its first `'p'`, which no dino listens to yet. */
    constructor (sheet: Style, innerWidth: real, innerHeight: real)
      requires innerWidth > 0.0 && innerHeight > 0.0
      ensures !isTouching && keydowns == 1
      ensures game.Snapshot() == World(false, false, true, None, 1.0, 0.0, 0,
                                       DinoState(false, false, 0, 0.0, 0.0, Stationary),
                                       SpawnerState(500.0, [], 0), sheet)
      ensures fresh(game) && fresh(game.dino) && fresh(game.store) && fresh(game.spawner)
    {
      game := new Game(sheet, innerWidth, innerHeight);
      isTouching := false;
      keydowns := 0;
      new;
      game.KeyDown(JUMP_KEY);
      keydowns := 1;
    }

    /** `handleDistance(predictions)`, the render that commits the flag, and the effect. */
    method HandleDistance(predictions: seq<Prediction>)
      modifies this, game.dino
      ensures isTouching == Classify(predictions, old(isTouching))
      ensures keydowns == old(keydowns) + (if Dispatches(predictions, old(isTouching)) then 1 else 0)
      ensures game.Snapshot() == if Dispatches(predictions, old(isTouching))
                                 then KeySpec(old(game.Snapshot()), JUMP_KEY)
                                 else old(game.Snapshot())
    {
      var next := isTouching;
      if |predictions| > 0 {
        for i := 0 to |predictions|
          invariant i > 0 ==> next == IsPinching(predictions[i - 1])
          invariant i == 0 ==> next == isTouching
        {
          var landmarks := predictions[i].landmarks;
          var thumbTipPoint := landmarks[THUMB_TIP];
          var indexFingerTipPoint := landmarks[INDEX_TIP];
          var xDiff := thumbTipPoint.x - indexFingerTipPoint.x;
          var yDiff := thumbTipPoint.y - indexFingerTipPoint.y;
          assert xDiff * xDiff + yDiff * yDiff == SquaredDistance(thumbTipPoint, indexFingerTipPoint);
          if xDiff * xDiff + yDiff * yDiff < PINCH_SQUARED {
            next := true;
          } else {
            next := false;
          }
        }
        LastPredictionDecides(predictions, isTouching);
      }
      if next != isTouching {
        isTouching := next;
        game.KeyDown(JUMP_KEY);
        keydowns := keydowns + 1;
      }
    }
  }
}
