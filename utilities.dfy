/** Drawing the detected hands: the sequence of canvas commands `drawHand` issues,
    with the joint classification and the optional horizontal mirroring. */
module HandDrawing {
  import opened Common

  /** The style class of a keypoint; colours and sizes are not modelled. */
  datatype JointStyle = Base | Knuckle | Joint | Tip

  const FINGERTIP_INDICES: set<int> := {4, 8, 12, 16, 20}
  const KNUCKLE_INDICES: set<int> := {1, 5, 9, 13, 17}

  /** The five chains in `Object.keys` order: thumb, index, middle, ring, pinky. */
  const FingerConnections: seq<seq<int>> :=
    [[0, 1, 2, 3, 4], [0, 5, 6, 7, 8], [0, 9, 10, 11, 12], [0, 13, 14, 15, 16], [0, 17, 18, 19, 20]]

  /** One hand in the detector's documented shape: 21 keypoints and an optional label. */
  datatype Hand = Hand(keypoints: Landmarks, handedness: Option<string>)

  /** What is drawn, in order; paths are given by their end points. */
  datatype Command =
    | ClearRect(width: real, height: real)
    | Segment(from: Point, to: Point)
    | Dot(center: Point, style: JointStyle)
    | Label(text: string, at: Point)

  function GetJointStyle(index: int): (r: JointStyle)
    ensures r == Base <==> index == 0
    ensures r == Tip <==> index in FINGERTIP_INDICES
    ensures r == Knuckle <==> index in KNUCKLE_INDICES
    ensures r == Joint <==> index != 0 && index !in FINGERTIP_INDICES && index !in KNUCKLE_INDICES
  {
    if index == 0 then Base
    else if index in FINGERTIP_INDICES then Tip
    else if index in KNUCKLE_INDICES then Knuckle
    else Joint
  }

  function MirrorX(x: real, canvasWidth: real, mirrored: bool): real {
    if mirrored then canvasWidth - x else x
  }

  function Mirror(p: Point, canvasWidth: real, mirrored: bool): Point {
    Point(MirrorX(p.x, canvasWidth, mirrored), p.y)
  }

  /** The first `k` links of chain `f`. */
  function ChainSegments(kp: Landmarks, f: nat, k: nat, w: real, m: bool): seq<Command>
    requires f < |FingerConnections| && k < |FingerConnections[f]|
  {
    if k == 0 then []
    else
      var chain := FingerConnections[f];
      ChainSegments(kp, f, k - 1, w, m)
        + [Segment(Mirror(kp[chain[k - 1]], w, m), Mirror(kp[chain[k]], w, m))]
  }

  /** All links of the first `f` chains. */
  function FingerSegments(kp: Landmarks, f: nat, w: real, m: bool): seq<Command>
    requires f <= |FingerConnections|
  {
    if f == 0 then []
    else FingerSegments(kp, f - 1, w, m) + ChainSegments(kp, f - 1, 4, w, m)
  }

  /** The dots of the first `n` keypoints. */
  function Dots(kp: Landmarks, n: nat, w: real, m: bool): seq<Command>
    requires n <= |kp|
  {
    if n == 0 then []
    else Dots(kp, n - 1, w, m) + [Dot(Mirror(kp[n - 1], w, m), GetJointStyle(n - 1))]
  }

  /** `if (hand.handedness)`: a label below-left of the wrist when the label is non-empty. */
  function LabelCommands(hand: Hand, w: real, m: bool): seq<Command> {
    if hand.handedness.Some? && hand.handedness.value != "" then
      var wrist := hand.keypoints[0];
      [Label(hand.handedness.value, Point(MirrorX(wrist.x, w, m) - 20.0, wrist.y + 30.0))]
    else []
  }

  function HandCommands(hand: Hand, w: real, m: bool): seq<Command> {
    FingerSegments(hand.keypoints, 5, w, m) + Dots(hand.keypoints, 21, w, m) + LabelCommands(hand, w, m)
  }

  /** The commands for the first `n` hands. */
  function HandsCommands(hands: seq<Hand>, n: nat, w: real, m: bool): seq<Command>
    requires n <= |hands|
  {
    if n == 0 then [] else HandsCommands(hands, n - 1, w, m) + HandCommands(hands[n - 1], w, m)
  }

  /** `drawHand(hands, ctx, mirrored)` on a canvas of `width` by `height`. */
  method DrawHand(hands: seq<Hand>, width: real, height: real, mirrored: bool) returns (cmds: seq<Command>)
    ensures cmds == [ClearRect(width, height)] + HandsCommands(hands, |hands|, width, mirrored)
  {
    cmds := [ClearRect(width, height)];
    if |hands| == 0 {
      return;
    }
    for h := 0 to |hands|
      invariant cmds == [ClearRect(width, height)] + HandsCommands(hands, h, width, mirrored)
    {
      var drawn := DrawOneHand(hands[h], width, mirrored);
      cmds := cmds + drawn;
    }
  }

  /** `drawHand(hands, ctx)` with the third argument omitted: `mirrored` defaults to true. */
  method DrawHandDefault(hands: seq<Hand>, width: real, height: real) returns (cmds: seq<Command>)
    ensures cmds == [ClearRect(width, height)] + HandsCommands(hands, |hands|, width, true)
  {
    cmds := DrawHand(hands, width, height, true);
  }

  /** The body of the `for (const hand of hands)` loop. */
  method DrawOneHand(hand: Hand, width: real, mirrored: bool) returns (cmds: seq<Command>)
    ensures cmds == HandCommands(hand, width, mirrored)
  {
    var keypoints := hand.keypoints;
    cmds := [];
    for f := 0 to |FingerConnections|
      invariant cmds == FingerSegments(keypoints, f, width, mirrored)
    {
      var indices := FingerConnections[f];
      ghost var chainStart := cmds;
      for k := 0 to |indices| - 1
        invariant cmds == chainStart + ChainSegments(keypoints, f, k, width, mirrored)
      {
        var firstPoint := keypoints[indices[k]];
        var secondPoint := keypoints[indices[k + 1]];
        cmds := cmds + [Segment(Point(MirrorX(firstPoint.x, width, mirrored), firstPoint.y),
                                Point(MirrorX(secondPoint.x, width, mirrored), secondPoint.y))];
      }
    }
    ghost var dotsStart := cmds;
    for i := 0 to |keypoints|
      invariant cmds == dotsStart + Dots(keypoints, i, width, mirrored)
    {
      var p := keypoints[i];
      var style := GetJointStyle(i);
      cmds := cmds + [Dot(Point(MirrorX(p.x, width, mirrored), p.y), style)];
    }
    if hand.handedness.Some? && hand.handedness.value != "" {
      var wrist := keypoints[0];
      cmds := cmds + [Label(hand.handedness.value, Point(MirrorX(wrist.x, width, mirrored) - 20.0, wrist.y + 30.0))];
    }
  }

  // ---- properties ----

  /** The wrist is the base, and the other 20 keypoints are classified by their place
      along a finger: the fifth of each chain is the tip, the second the knuckle. */
  lemma JointStylesByChain(f: nat, k: nat)
    requires f < |FingerConnections| && 1 <= k < |FingerConnections[f]|
    ensures GetJointStyle(0) == Base
    ensures GetJointStyle(FingerConnections[f][k])
            == if k == 4 then Tip else if k == 1 then Knuckle else Joint
  {
  }

  /** Mirroring is `width - x`, undone by mirroring again, and the identity when off. */
  lemma MirrorInvolution(x: real, canvasWidth: real, mirrored: bool)
    ensures MirrorX(MirrorX(x, canvasWidth, mirrored), canvasWidth, mirrored) == x
    ensures !mirrored ==> MirrorX(x, canvasWidth, mirrored) == x
    ensures mirrored ==> MirrorX(x, canvasWidth, mirrored) + x == canvasWidth
  {
  }

  /** With no hands only the clear is issued. */
  lemma NoHandsOnlyClear(width: real, height: real, mirrored: bool)
    ensures [ClearRect(width, height)] + HandsCommands([], 0, width, mirrored) == [ClearRect(width, height)]
  {
  }

  lemma {:induction false} ChainSegmentsShape(kp: Landmarks, f: nat, k: nat, w: real, m: bool)
    requires f < |FingerConnections| && k < |FingerConnections[f]|
    ensures |ChainSegments(kp, f, k, w, m)| == k
    ensures forall j :: 0 <= j < k ==>
              ChainSegments(kp, f, k, w, m)[j]
              == Segment(Mirror(kp[FingerConnections[f][j]], w, m), Mirror(kp[FingerConnections[f][j + 1]], w, m))
  {
    if k > 0 {
      ChainSegmentsShape(kp, f, k - 1, w, m);
    }
  }

  /** Link `k` of chain `f` is the `4*f + k`-th line; every chain's first line starts at
      the wrist, keypoint 0. */
  lemma {:induction false} FingerSegmentsShape(kp: Landmarks, f: nat, w: real, m: bool)
    requires f <= |FingerConnections|
    ensures |FingerSegments(kp, f, w, m)| == 4 * f
    ensures forall g, k :: 0 <= g < f && 0 <= k < 4 ==>
              FingerSegments(kp, f, w, m)[4 * g + k]
              == Segment(Mirror(kp[FingerConnections[g][k]], w, m), Mirror(kp[FingerConnections[g][k + 1]], w, m))
    ensures forall g :: 0 <= g < f ==>
              FingerSegments(kp, f, w, m)[4 * g] == Segment(Mirror(kp[0], w, m), Mirror(kp[FingerConnections[g][1]], w, m))
  {
    if f > 0 {
      FingerSegmentsShape(kp, f - 1, w, m);
      ChainSegmentsShape(kp, f - 1, 4, w, m);
    }
  }

  lemma {:induction false} DotsShape(kp: Landmarks, n: nat, w: real, m: bool)
    requires n <= |kp|
    ensures |Dots(kp, n, w, m)| == n
    ensures forall i :: 0 <= i < n ==> Dots(kp, n, w, m)[i] == Dot(Mirror(kp[i], w, m), GetJointStyle(i))
  {
    if n > 0 {
      DotsShape(kp, n - 1, w, m);
    }
  }

  /** Each hand yields its 20 lines, then one dot per keypoint, then a label exactly
      when its handedness is a non-empty string. */
  lemma HandShape(hand: Hand, w: real, m: bool)
    ensures var c := HandCommands(hand, w, m);
            |c| == 41 + (if hand.handedness.Some? && hand.handedness.value != "" then 1 else 0)
            && (forall j :: 0 <= j < 20 ==> c[j].Segment?)
            && (forall i :: 20 <= i < 41 ==> c[i] == Dot(Mirror(hand.keypoints[i - 20], w, m), GetJointStyle(i - 20)))
            && (hand.handedness.Some? && hand.handedness.value != "" ==>
                  c[41] == Label(hand.handedness.value,
                                 Point(MirrorX(hand.keypoints[0].x, w, m) - 20.0, hand.keypoints[0].y + 30.0)))
  {
    FingerSegmentsShape(hand.keypoints, 5, w, m);
    DotsShape(hand.keypoints, 21, w, m);
    var c := HandCommands(hand, w, m);
    var segs := FingerSegments(hand.keypoints, 5, w, m);
    forall j | 0 <= j < 20 ensures c[j].Segment? {
      assert c[j] == segs[j];
      var g, k := j / 4, j % 4;
      assert j == 4 * g + k;
      assert segs[4 * g + k] == Segment(Mirror(hand.keypoints[FingerConnections[g][k]], w, m),
                                        Mirror(hand.keypoints[FingerConnections[g][k + 1]], w, m));
    }
  }
}
