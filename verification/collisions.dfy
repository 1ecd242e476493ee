/**
 * The collision registry as Game uses it: an ordered list of registered pairs, each
 * tagged with the Game handler it was bound to. Game only ever appends a pair
 * (`addCollisionEvent`) and asks the registry to drop stale pairs (`clean`), so the
 * registry is modelled as that list; overlap testing and callback dispatch
 * (`checkCollisions`) are not modelled.
 */
module Collisions {
  import opened Entities

  /**
   * A registered pair. `BulletHitsFighter(b, f)` is registered as (b, f) and bound to
   * `bulletCollideFighter(b, f)`; `FighterHitsMoon(f, m)` is registered as (m, f) and
   * bound to `fighterCollideMoon(f, m)`.
   */
  datatype CollisionEvent =
    | BulletHitsFighter(bullet: Entity, fighter: Entity)
    | FighterHitsMoon(fighter: Entity, moon: Entity)
  {
    /** The first entity passed to `addCollisionEvent`. */
    function EntityA(): Entity {
      if BulletHitsFighter? then bullet else moon
    }

    /** The second entity passed to `addCollisionEvent`. */
    function EntityB(): Entity {
      fighter
    }
  }

  /** A pair is stale once either of its entities is destroyed. */
  predicate Stale(ev: CollisionEvent, destroyed: set<Entity>) {
    ev.EntityA() in destroyed || ev.EntityB() in destroyed
  }

  /** What `CollisionGroup.clean` leaves: the pairs of `evs` that are not stale, in order. */
  function LiveEvents(evs: seq<CollisionEvent>, destroyed: set<Entity>): (r: seq<CollisionEvent>)
    ensures |r| <= |evs|
  {
    if evs == [] then []
    else (if Stale(evs[0], destroyed) then [] else [evs[0]]) + LiveEvents(evs[1..], destroyed)
  }

  /** Cleaning keeps exactly the pairs both of whose entities are still alive. */
  lemma {:induction false} LiveEventsMembers(
    evs: seq<CollisionEvent>, destroyed: set<Entity>, ev: CollisionEvent)
    ensures ev in LiveEvents(evs, destroyed) <==> ev in evs && !Stale(ev, destroyed)
  {
    if evs != [] {
      LiveEventsMembers(evs[1..], destroyed, ev);
    }
  }
}
