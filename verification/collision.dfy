/**
 * The collision detector: a strict axis-aligned overlap test between the
 * player's hitbox and the on-screen rectangle of every obstacle
 * (script.js:540-553). Rectangles are the browser's layout measurements and
 * come in from outside.
 */
module Collision {
  import opened Obstacles

  /** A rectangle in viewport coordinates; `top < bottom` downward. */
  datatype Rect = Rect(left: real, right: real, top: real, bottom: real)

  /** The overlap test of script.js:547-548: only a positive-area overlap
      counts; rectangles that merely touch do not collide. */
  predicate Overlaps(a: Rect, b: Rect)
  {
    a.left < b.right && a.right > b.left && a.top < b.bottom && a.bottom > b.top
  }

  /** The obstacle list holds an obstacle whose rectangle overlaps the player's. */
  predicate AnyCollision(player: Rect, obs: seq<Obstacle>, rectOf: Obstacle -> Rect)
  {
    exists k :: 0 <= k < |obs| && Overlaps(player, rectOf(obs[k]))
  }

  /** `checkCollisions`: scan the obstacles in order and stop at the first
      one whose rectangle overlaps the player's hitbox. */
  method CheckCollisions(player: Rect, obs: seq<Obstacle>, rectOf: Obstacle -> Rect) returns (hit: bool)
    ensures hit <==> exists k :: 0 <= k < |obs| && Overlaps(player, rectOf(obs[k]))
  {
    for k := 0 to |obs|
      invariant forall j :: 0 <= j < k ==> !Overlaps(player, rectOf(obs[j]))
    {
      if Overlaps(player, rectOf(obs[k])) {
        return true;
      }
    }
    return false;
  }

  /** Overlap is symmetric, and rectangles that share only an edge, on
      either axis, do not overlap. */
  lemma OverlapIsStrict(a: Rect, b: Rect)
    ensures Overlaps(a, b) <==> Overlaps(b, a)
    ensures a.right == b.left || a.left == b.right ==> !Overlaps(a, b)
    ensures a.bottom == b.top || a.top == b.bottom ==> !Overlaps(a, b)
  {
  }
}
