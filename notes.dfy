/** The records of a chart and of the lane configuration. */
module Notes {
  import opened Geometry

  /** Lane identifiers are unsigned integers; the three instruments are
      0, 1 and 2, and a chart note may name any value. */
  type LaneId = nat

  const GuitarLaneId: LaneId := 0
  const DrumsLaneId: LaneId := 1
  const BassLaneId: LaneId := 2

  /** One chart note: its lane and scheduled tick, fixed at load time, and
      the two fields the play update rewrites in place. */
  datatype Note = Note(lane: LaneId, tick: real, isActive: bool, yPosition: real)

  /** The keyboard keys the scene reads. */
  datatype Key = KeyLeft | KeyDown | KeyRight

  /** A lane's input binding: its key and its on-screen touch rectangle
      (its drawing colour is not modelled). */
  datatype Instrument = Instrument(key: Key, touchRange: Rectangle)
}
