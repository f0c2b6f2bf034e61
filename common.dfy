/** Small value types shared by the engine and the hand-tracking helpers. */
module Common {

  datatype Option<+T> = None | Some(value: T)

  /** A 2-D point in pixel or world coordinates. */
  datatype Point = Point(x: real, y: real)

  /** An axis-aligned rectangle as `getBoundingClientRect` reports it (y grows downwards). */
  datatype Rect = Rect(left: real, top: real, right: real, bottom: real)

  /** The 21 ordered hand landmarks a detector reports for one hand
      (0 wrist, 1-4 thumb, 5-8 index, 9-12 middle, 13-16 ring, 17-20 pinky). */
  type Landmarks = s: seq<Point> | |s| == 21 witness seq(21, _ => Point(0.0, 0.0))
}
