/**
 One animation frame in its fixed order: flight step, then terrain
 regeneration around the ship's new position, then the patch moved under the
 ship. Camera follow and rendering come after this and are not modelled.
 */
module Frame {
  import opened Keys
  import opened Flight
  import opened Terrain

  /** What one frame reads and writes: the ship, the terrain vertex buffer and
      the terrain mesh's translation. */
  datatype World = World(ship: Ship, terrain: seq<real>, terrainOffset: Vec3)

  /** The patch is centred under the ship: its translation is the ship's
      horizontal position at ground level. */
  ghost predicate Centred(w: World) {
    w.terrainOffset == Vec3(w.ship.position.x, 0.0, w.ship.position.z)
  }

  method Animate(keys: KeyState, w: World, noise: Noise) returns (r: World)
    ensures r.ship == Step(keys, w.ship)
    ensures Centred(r)
    ensures |r.terrain| == |w.terrain|
    ensures forall k :: 0 <= k < |w.terrain| && k % Stride == 2 ==>
              r.terrain[k] == HeightAt(noise, k / Stride, r.terrainOffset.x, r.terrainOffset.z)
    ensures forall k :: 0 <= k < |w.terrain| && k % Stride != 2 ==> r.terrain[k] == w.terrain[k]
  {
    var ship := Step(keys, w.ship);
    var offsetX := ship.position.x;
    var offsetZ := ship.position.z;
    var terrain := Regenerate(w.terrain, noise, offsetX, offsetZ);
    r := World(ship, terrain, Vec3(offsetX, 0.0, offsetZ));
  }

  /** The patch follows the ship: the sample point of every vertex moves by
      exactly the horizontal distance the ship flew this frame. */
  lemma SamplesFollowShip(keys: KeyState, w: World, j: nat)
    requires Centred(w)
    ensures var s := Step(keys, w.ship);
            SampleX(j, s.position.x) - SampleX(j, w.terrainOffset.x) == s.velocity.x
            && SampleZ(j, s.position.z) - SampleZ(j, w.terrainOffset.z) == s.velocity.z
  {
  }
}
