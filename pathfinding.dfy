/**
 * What the path jobs see of the generic search engine: a node is a position
 * plus the position of the node it was reached from (none for the start
 * node). The search itself is not part of this model.
 */
module Pathfinding {
  import opened Optional
  import opened Geometry

  datatype Node = Node(pos: BlockPos, parent: Option<BlockPos>)
}
