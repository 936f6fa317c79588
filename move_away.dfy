/**
 * PathJobMoveAwayFromLocation: a search whose goal is any node far enough
 * from a point to avoid. The three fields are final in the source, so the job
 * is a value.
 */
module MoveAway {
  import opened Optional
  import opened Geometry
  import opened Pathfinding

  /** The 1.001 tie-breaker, as an exact rational. */
  const TIE_BREAKER: real := 1.001

  datatype PathJobMoveAwayFromLocation = PathJobMoveAwayFromLocation(
    avoid: BlockPos,
    heuristicPoint: BlockPos,
    avoidDistance: int)

  /**
   * The constructor. The source projects the start-to-avoid vector onto a
   * circle of radius avoidDistance with a square root and truncates the
   * result to integers; that floating point projection is the input
   * (projectedDx, projectedDz).
   */
  function NewJob(start: BlockPos, avoid: BlockPos, avoidDistance: int, projectedDx: int, projectedDz: int)
    : (job: PathJobMoveAwayFromLocation)
    ensures job.avoid == avoid && job.avoidDistance == avoidDistance
    ensures job.heuristicPoint.y == start.y
    ensures job.heuristicPoint.x - start.x == projectedDx && job.heuristicPoint.z - start.z == projectedDz
  {
    PathJobMoveAwayFromLocation(avoid, BlockPos(start.x + projectedDx, start.y, start.z + projectedDz), avoidDistance)
  }

  /** getNodeResultScore: the squared distance of the node from the avoided point. */
  function NodeResultScore(job: PathJobMoveAwayFromLocation, n: Node): (score: int)
    ensures score >= 0
    ensures score == 0 <==> n.pos == job.avoid
  {
    DistanceSq(job.avoid, n.pos)
  }

  /**
   * isAtDestination: the node's score reaches avoidDistance squared, that is,
   * the node lies outside the open ball of radius avoidDistance around avoid
   * (the distance taken from the node, whichever way round).
   */
  function IsAtDestination(job: PathJobMoveAwayFromLocation, n: Node): (at: bool)
    ensures at <==> DistanceSq(n.pos, job.avoid) >= job.avoidDistance * job.avoidDistance
  {
    DistanceSqSymmetric(job.avoid, n.pos);
    NodeResultScore(job, n) >= job.avoidDistance * job.avoidDistance
  }

  /** computeHeuristic: Manhattan distance to the heuristic point, scaled by the tie-breaker. */
  function ComputeHeuristic(job: PathJobMoveAwayFromLocation, pos: BlockPos): (h: real)
    ensures h >= 0.0
    ensures h == 0.0 <==> pos == job.heuristicPoint
  {
    (Manhattan(pos, job.heuristicPoint) as real) * TIE_BREAKER
  }

  /** Any node at least as far from avoid as a destination node is a destination too. */
  lemma DestinationMonotone(job: PathJobMoveAwayFromLocation, a: Node, b: Node)
    requires IsAtDestination(job, a)
    requires NodeResultScore(job, b) >= NodeResultScore(job, a)
    ensures IsAtDestination(job, b)
  {
  }

  /** The avoided point itself is a destination only when avoidDistance is 0. */
  lemma AvoidIsDestinationIffZero(job: PathJobMoveAwayFromLocation, parent: Option<BlockPos>)
    ensures IsAtDestination(job, Node(job.avoid, parent)) <==> job.avoidDistance == 0
  {
    SquareIsPositive(job.avoidDistance);
  }

  /** Every job has destinations: the cell avoidDistance blocks along x from avoid is one. */
  lemma DestinationExists(job: PathJobMoveAwayFromLocation, parent: Option<BlockPos>)
    ensures IsAtDestination(job, Node(job.avoid.Add(job.avoidDistance, 0, 0), parent))
  {
    var p := job.avoid.Add(job.avoidDistance, 0, 0);
    assert DistanceSq(job.avoid, p) == (-job.avoidDistance) * (-job.avoidDistance);
  }

  /** Ordering by heuristic is ordering by Manhattan distance to the heuristic point. */
  lemma HeuristicFollowsManhattan(job: PathJobMoveAwayFromLocation, a: BlockPos, b: BlockPos)
    ensures ComputeHeuristic(job, a) <= ComputeHeuristic(job, b)
        <==> Manhattan(a, job.heuristicPoint) <= Manhattan(b, job.heuristicPoint)
  {
  }
}
