/**
 * The collision-aware step of WorldBuilder.ClampStep: the destination is
 * clamped to the ±20 square on x and z, and the whole move is refused when
 * the probe box at the destination touches any collider carrying the
 * obstacle tag. There is no sliding.
 */
module Collision {
  import opened Geometry
  import opened Registry

  const WorldBound := 20.0

  /** `start + delta` with x and z clamped to [-20, 20]; y is left free. */
  function Desired(start: Vec3, delta: Vec3): (d: Vec3)
    ensures -WorldBound <= d.x <= WorldBound && -WorldBound <= d.z <= WorldBound
    ensures d.y == start.y + delta.y
    ensures -WorldBound <= start.x + delta.x <= WorldBound ==> d.x == start.x + delta.x
    ensures -WorldBound <= start.z + delta.z <= WorldBound ==> d.z == start.z + delta.z
  {
    var p := Add(start, delta);
    Vec3(Clamp(p.x, -WorldBound, WorldBound), p.y, Clamp(p.z, -WorldBound, WorldBound))
  }

  predicate Blocks(h: Hit, obstacleTag: string)
  {
    h.Collider? && h.tag == obstacleTag
  }

  /** Some collider among the hits is obstacle-tagged. */
  predicate Blocked(hits: seq<Hit>, obstacleTag: string)
  {
    exists i :: 0 <= i < |hits| && Blocks(hits[i], obstacleTag)
  }

  /** Where a step from start by delta ends, given the colliders found at the destination. */
  function StepEnd(start: Vec3, delta: Vec3, hits: seq<Hit>, obstacleTag: string): Vec3
  {
    if Blocked(hits, obstacleTag) then start else Desired(start, delta)
  }

  /** A blocked move leaves the mover exactly where it was. */
  lemma BlockedStaysPut(start: Vec3, delta: Vec3, hits: seq<Hit>, obstacleTag: string, i: nat)
    requires i < |hits| && hits[i] == Collider(obstacleTag)
    ensures StepEnd(start, delta, hits, obstacleTag) == start
  {
    assert Blocks(hits[i], obstacleTag);
  }

  /**
   * Colliders that are destroyed or carry another tag (the floor's among
   * them) never change the outcome, wherever they appear among the hits.
   */
  lemma OtherHitsNeverBlock(start: Vec3, delta: Vec3, hits: seq<Hit>, extra: seq<Hit>, obstacleTag: string, k: nat)
    requires k <= |hits|
    requires forall j :: 0 <= j < |extra| ==> !Blocks(extra[j], obstacleTag)
    ensures StepEnd(start, delta, hits[..k] + extra + hits[k..], obstacleTag) == StepEnd(start, delta, hits, obstacleTag)
  {
    var all := hits[..k] + extra + hits[k..];
    if Blocked(all, obstacleTag) {
      var i :| 0 <= i < |all| && Blocks(all[i], obstacleTag);
      if i < k {
        assert all[i] == hits[i];
      } else if i >= k + |extra| {
        assert all[i] == hits[i - |extra|];
      }
    }
    if Blocked(hits, obstacleTag) {
      var i :| 0 <= i < |hits| && Blocks(hits[i], obstacleTag);
      if i < k {
        assert all[i] == hits[i];
      } else {
        assert all[i + |extra|] == hits[i];
      }
    }
  }

  /** With no obstacle among the hits the move succeeds, clamped only where it leaves the square. */
  lemma UnblockedMoves(start: Vec3, delta: Vec3, hits: seq<Hit>, obstacleTag: string)
    requires forall j :: 0 <= j < |hits| ==> !Blocks(hits[j], obstacleTag)
    ensures StepEnd(start, delta, hits, obstacleTag) == Desired(start, delta)
  {
  }
}
