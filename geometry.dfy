/**
 * Block coordinates and the integer distances the path jobs are built from.
 * `BlockPos` is Minecraft's immutable integer triple; `DistanceSq` is
 * `Vec3i.distanceSq`, which is exact for integer coordinates.
 */
module Geometry {

  datatype BlockPos = BlockPos(x: int, y: int, z: int) {
    /** `BlockPos.add`: the position offset by the given deltas. */
    function Add(dx: int, dy: int, dz: int): (p: BlockPos)
      ensures p.x - x == dx && p.y - y == dy && p.z - z == dz
    {
      BlockPos(x + dx, y + dy, z + dz)
    }
  }

  function Abs(n: int): (r: nat)
    ensures r == n || r == -n
  {
    if n < 0 then -n else n
  }

  lemma SquareIsPositive(n: int)
    ensures n * n >= 0
    ensures n != 0 ==> n * n > 0
  {
    if n < 0 {
      assert n * n == (-n) * (-n);
    }
  }

  /** Squared Euclidean distance between two block positions. */
  function DistanceSq(a: BlockPos, b: BlockPos): (d: int)
    ensures d >= 0
    ensures d == 0 <==> a == b
  {
    var dx, dy, dz := a.x - b.x, a.y - b.y, a.z - b.z;
    SquareIsPositive(dx); SquareIsPositive(dy); SquareIsPositive(dz);
    dx * dx + dy * dy + dz * dz
  }

  lemma DistanceSqSymmetric(a: BlockPos, b: BlockPos)
    ensures DistanceSq(a, b) == DistanceSq(b, a)
  {
    var dx, dy, dz := a.x - b.x, a.y - b.y, a.z - b.z;
    assert (-dx) * (-dx) == dx * dx;
    assert (-dy) * (-dy) == dy * dy;
    assert (-dz) * (-dz) == dz * dz;
  }

  /** Manhattan distance, the base of both path jobs' heuristics. */
  function Manhattan(a: BlockPos, b: BlockPos): (d: nat)
    ensures d == 0 <==> a == b
    ensures d >= Abs(a.x - b.x) && d >= Abs(a.y - b.y) && d >= Abs(a.z - b.z)
  {
    Abs(a.x - b.x) + Abs(a.y - b.y) + Abs(a.z - b.z)
  }
}
