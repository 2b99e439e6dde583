/**
 * The per-phase player hitbox: a horizontally centered sub-rectangle of the
 * player's sprite, sized by fractions of the sprite (script.js:15-19, 39-57).
 */
module Hitbox {

  /** Width and height fractions and the top offset fraction of a hitbox. */
  datatype Profile = Profile(w: real, h: real, top: real)

  /** A box relative to the sprite's top-left corner. */
  datatype Box = Box(left: real, top: real, width: real, height: real)

  /** The profiles of swim, bike and run, in phase order (script.js:15-19, 424-425). */
  const PhaseHitbox: seq<Profile> := [
    Profile(0.85, 0.20, 0.40),
    Profile(0.15, 0.45, 0.40),
    Profile(0.32, 0.48, 0.45)
  ]

  predicate WellFormedProfile(p: Profile)
  {
    0.0 <= p.w <= 1.0 && 0.0 <= p.h && 0.0 <= p.top && p.top + p.h <= 1.0
  }

  /** The hitbox of a sprite `pw` by `ph` pixels (script.js:46-56). */
  function PlayerHitbox(p: Profile, pw: real, ph: real): Box
  {
    var w := pw * p.w;
    var h := ph * p.h;
    Box((pw - w) / 2.0, ph * p.top, w, h)
  }

  /** A well-formed profile gives a box centered on the sprite's vertical
      axis and lying entirely within the sprite. */
  lemma HitboxInsideSprite(p: Profile, pw: real, ph: real)
    requires WellFormedProfile(p)
    requires pw >= 0.0 && ph >= 0.0
    ensures var b := PlayerHitbox(p, pw, ph);
      && b.left + b.width / 2.0 == pw / 2.0
      && 0.0 <= b.left && b.left + b.width <= pw
      && 0.0 <= b.top && b.top + b.height <= ph
      && b.width >= 0.0 && b.height >= 0.0
  {
    assert pw * p.w <= pw by { assert pw * (1.0 - p.w) >= 0.0; }
    assert pw * p.w >= 0.0;
    assert ph * p.top + ph * p.h <= ph by { assert ph * (1.0 - p.top - p.h) >= 0.0; }
    assert ph * p.top >= 0.0 && ph * p.h >= 0.0;
  }

  /** The three phase profiles are well formed. */
  lemma PhaseHitboxesWellFormed()
    ensures forall i :: 0 <= i < |PhaseHitbox| ==> WellFormedProfile(PhaseHitbox[i])
  {
  }
}
