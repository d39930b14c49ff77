/** Objects that the grid, tools and knobs refer to but whose own state is not
    part of this model. They are compared by identity only. */
module Refs {

  /** ELLayer: owns a grid of cells and its playheads. */
  class Layer {
  }

  /** ELNote: the pitch a cell plays. */
  class Note {
  }

  /** ELPlayhead: a cursor moving over the grid. */
  class Playhead {
  }
}
