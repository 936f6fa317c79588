/**
 * PathJobFindWater: a search from a fisherman's position for a new pond. The
 * goal test looks one block below the node, first in the direction of travel
 * and then to both sides, for a water cell that is far enough from every
 * pond already known and within range of the hut.
 *
 * Whether a cell is a pond (`Pond.createWater` in the source) is a world
 * query outside this model; it is the parameter `isPond`.
 */
module FindWater {
  import opened Optional
  import opened Geometry
  import opened Pathfinding

  const MIN_DISTANCE: int := 40
  const MAX_RANGE: int := 250

  /** The Manhattan tie-breaker of this job, 0.501, as an exact rational. */
  const HALF_TIE_BREAKER: real := 0.501

  /** pondsAreNear: some known pond is at squared distance below MIN_DISTANCE. */
  function PondsAreNear(ponds: seq<BlockPos>, newPond: BlockPos): (near: bool)
    ensures near <==> exists i :: 0 <= i < |ponds| && DistanceSq(ponds[i], newPond) < MIN_DISTANCE
  {
    if |ponds| == 0 then false
    else if DistanceSq(ponds[0], newPond) < MIN_DISTANCE then true
    else
      var rest := PondsAreNear(ponds[1..], newPond);
      assert forall i :: 1 <= i < |ponds| ==> ponds[i] == ponds[1..][i - 1];
      rest
  }

  /** The part of isWater that decides: a new pond, well separated, and water. */
  predicate Accepts(ponds: seq<BlockPos>, candidate: BlockPos, isPond: BlockPos -> bool)
  {
    candidate !in ponds && !PondsAreNear(ponds, candidate) && isPond(candidate)
  }

  /**
   * The three cells isAtDestination tries, in order, all one block below the
   * node: ahead in the direction of travel, then the two cells beside it.
   * Travel is along x when x changed from the parent, otherwise along z.
   */
  function Candidates(pos: BlockPos, parent: BlockPos): (cells: seq<BlockPos>)
    ensures |cells| == 3
    ensures forall i :: 0 <= i < 3 ==> cells[i].y == pos.y - 1
    ensures forall i :: 0 <= i < 3 ==> Manhattan(cells[i], pos.Add(0, -1, 0)) == 1
    ensures pos.x != parent.x ==> cells[0].z == pos.z && (cells[0].x - pos.x) * (pos.x - parent.x) > 0
    ensures pos.x == parent.x && pos.z != parent.z ==> cells[0].x == pos.x && (cells[0].z - pos.z) * (pos.z - parent.z) > 0
    ensures pos.x != parent.x ==> cells[1] == pos.Add(0, -1, -1) && cells[2] == pos.Add(0, -1, 1)
    ensures pos.x == parent.x ==> cells[1] == pos.Add(-1, -1, 0) && cells[2] == pos.Add(1, -1, 0)
    ensures pos.x == parent.x && pos.z == parent.z ==> cells[0] == pos.Add(0, -1, -1)
  {
    if pos.x != parent.x then
      var dx := if pos.x > parent.x then 1 else -1;
      [pos.Add(dx, -1, 0), pos.Add(0, -1, -1), pos.Add(0, -1, 1)]
    else
      var dz := if pos.z > parent.z then 1 else -1;
      [pos.Add(0, -1, dz), pos.Add(-1, -1, 0), pos.Add(1, -1, 0)]
  }

  /** The first accepted cell of a sequence, which is where `||` stops. */
  function FirstAccepted(cells: seq<BlockPos>, ponds: seq<BlockPos>, isPond: BlockPos -> bool): (hit: Option<BlockPos>)
    ensures hit.None? <==> forall i :: 0 <= i < |cells| ==> !Accepts(ponds, cells[i], isPond)
    ensures hit.Some? ==> exists k :: 0 <= k < |cells| && cells[k] == hit.value
                                     && Accepts(ponds, cells[k], isPond)
                                     && forall j :: 0 <= j < k ==> !Accepts(ponds, cells[j], isPond)
  {
    if |cells| == 0 then None
    else if Accepts(ponds, cells[0], isPond) then Some(cells[0])
    else
      var rest := FirstAccepted(cells[1..], ponds, isPond);
      assert forall i :: 1 <= i < |cells| ==> cells[i] == cells[1..][i - 1];
      if rest.Some? then
        var k :| 0 <= k < |cells[1..]| && cells[1..][k] == rest.value && Accepts(ponds, cells[1..][k], isPond)
                 && forall j :: 0 <= j < k ==> !Accepts(ponds, cells[1..][j], isPond);
        assert cells[k + 1] == rest.value;
        rest
      else rest
  }

  /**
   * The pond a node's goal test finds, if any: never for the start node, never
   * beyond MAX_RANGE from the hut, otherwise the first accepted candidate.
   */
  function Goal(hut: BlockPos, ponds: seq<BlockPos>, n: Node, isPond: BlockPos -> bool): Option<BlockPos>
  {
    if n.parent.None? then None
    else if DistanceSq(hut, n.pos) > MAX_RANGE then None
    else FirstAccepted(Candidates(n.pos, n.parent.value), ponds, isPond)
  }

  /** A start node, or a node out of range of the hut, is never a destination. */
  lemma GoalNeedsParentAndRange(hut: BlockPos, ponds: seq<BlockPos>, n: Node, isPond: BlockPos -> bool)
    requires n.parent.None? || DistanceSq(hut, n.pos) > MAX_RANGE
    ensures Goal(hut, ponds, n, isPond).None?
  {
  }

  /**
   * A found pond is one of the node's candidate cells, is water, is not a
   * known pond, keeps at least MIN_DISTANCE (squared) from every known pond,
   * and its node is within MAX_RANGE of the hut.
   */
  lemma {:induction false} GoalIsSeparated(hut: BlockPos, ponds: seq<BlockPos>, n: Node, isPond: BlockPos -> bool)
    requires Goal(hut, ponds, n, isPond).Some?
    ensures var p := Goal(hut, ponds, n, isPond).value;
      && n.parent.Some? && DistanceSq(hut, n.pos) <= MAX_RANGE
      && p in Candidates(n.pos, n.parent.value)
      && isPond(p) && p !in ponds
      && forall q :: q in ponds ==> DistanceSq(q, p) >= MIN_DISTANCE
  {
    var p := Goal(hut, ponds, n, isPond).value;
    var cells := Candidates(n.pos, n.parent.value);
    var k :| 0 <= k < |cells| && cells[k] == p && Accepts(ponds, cells[k], isPond);
    forall q | q in ponds ensures DistanceSq(q, p) >= MIN_DISTANCE {
      var i :| 0 <= i < |ponds| && ponds[i] == q;
    }
  }

  /** A cell closer than MIN_DISTANCE (squared) to a known pond is rejected, water or not. */
  lemma NearCandidateRejected(ponds: seq<BlockPos>, known: BlockPos, candidate: BlockPos, isPond: BlockPos -> bool)
    requires known in ponds
    requires DistanceSq(known, candidate) < MIN_DISTANCE
    ensures !Accepts(ponds, candidate, isPond)
  {
    var i :| 0 <= i < |ponds| && ponds[i] == known;
  }

  /** With no ponds known, every water cell is accepted. */
  lemma EmptyPondsAcceptWater(candidate: BlockPos, isPond: BlockPos -> bool)
    ensures Accepts([], candidate, isPond) <==> isPond(candidate)
  {
  }

  /** The record isWater fills in when it accepts a cell. */
  class WaterPathResult {
    var pond: Option<BlockPos>
    var isEmpty: bool

    constructor ()
      ensures pond.None? && !isEmpty
    {
      pond := None;
      isEmpty := false;
    }
  }

  class PathJobFindWater {
    const start: BlockPos
    const range: int
    const hutLocation: BlockPos
    /** The job's own copy of the known ponds. */
    const ponds: seq<BlockPos>
    const result: WaterPathResult

    /**
     * The constructor copies the caller's pond list, so the job does not
     * hold the caller's array and nothing the caller does to it later
     * reaches the job.
     */
    constructor (start: BlockPos, home: BlockPos, range: int, callerPonds: array<BlockPos>)
      ensures this.start == start && this.range == range && hutLocation == home
      ensures ponds == callerPonds[..]
      ensures fresh(result) && result.pond.None? && !result.isEmpty
    {
      this.start := start;
      this.range := range;
      hutLocation := home;
      ponds := callerPonds[..];
      result := new WaterPathResult();
    }

    /** computeHeuristic: half the Manhattan distance to the hut (0.501 for ties). */
    function ComputeHeuristic(pos: BlockPos): (h: real)
      ensures h >= 0.0
      ensures h == 0.0 <==> pos == hutLocation
    {
      (Manhattan(pos, hutLocation) as real) * HALF_TIE_BREAKER
    }

    /** getNodeResultScore: every node scores the same. */
    function GetNodeResultScore(n: Node): (score: real)
      ensures score == 0.0
    {
      0.0
    }

    /** isWater: decides one cell, and records it in the result when accepted. */
    method IsWater(newPond: BlockPos, isPond: BlockPos -> bool) returns (accepted: bool)
      modifies result
      ensures accepted == Accepts(ponds, newPond, isPond)
      ensures accepted ==> result.pond == Some(newPond) && result.isEmpty == (|ponds| == 0)
      ensures !accepted ==> unchanged(result)
    {
      if newPond in ponds || PondsAreNear(ponds, newPond) {
        return false;
      }
      if isPond(newPond) {
        result.pond := Some(newPond);
        result.isEmpty := |ponds| == 0;
        return true;
      }
      return false;
    }

    /** isAtDestination, with the short-circuit over the three candidate cells. */
    method IsAtDestination(n: Node, isPond: BlockPos -> bool) returns (found: bool)
      modifies result
      ensures found <==> Goal(hutLocation, ponds, n, isPond).Some?
      ensures found ==> result.pond == Goal(hutLocation, ponds, n, isPond)
                        && result.isEmpty == (|ponds| == 0)
      ensures !found ==> unchanged(result)
    {
      if n.parent.None? {
        return false;
      }
      if DistanceSq(hutLocation, n.pos) > MAX_RANGE {
        return false;
      }
      var cells := Candidates(n.pos, n.parent.value);
      found := IsWater(cells[0], isPond);
      if !found {
        found := IsWater(cells[1], isPond);
        if !found {
          found := IsWater(cells[2], isPond);
        }
      }
      assert cells[1..][1..] == [cells[2]];
    }
  }

  /** The job's pond list stays what it was when the caller later rewrites its own array. */
  method CallerEditsAfterConstruction(start: BlockPos, home: BlockPos, callerPonds: array<BlockPos>, replacement: BlockPos)
    returns (job: PathJobFindWater)
    requires callerPonds.Length > 0
    modifies callerPonds
    ensures job.ponds == old(callerPonds[..])
    ensures callerPonds[0] == replacement
  {
    job := new PathJobFindWater(start, home, 10, callerPonds);
    callerPonds[0] := replacement;
  }
}
