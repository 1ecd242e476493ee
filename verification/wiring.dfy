/**
 * The cross-wiring Game maintains between its collections and the collision registry:
 * every live bullet is paired with every live fighter, and every live fighter with the
 * Moon. The pair lists registered on a spawn, and the lemmas that spawning and
 * cleaning keep the wiring.
 */
module Wiring {
  import opened Entities
  import opened Collisions

  /** The pairs `addFighter` registers for a new fighter `f`: one per bullet, in order. */
  function PairsWithFighter(bs: seq<Entity>, f: Entity): (r: seq<CollisionEvent>)
    ensures |r| == |bs|
    ensures forall k :: 0 <= k < |bs| ==> r[k] == BulletHitsFighter(bs[k], f)
  {
    if bs == [] then []
    else PairsWithFighter(bs[..|bs| - 1], f) + [BulletHitsFighter(bs[|bs| - 1], f)]
  }

  /** The pairs `addBullet` registers for a new bullet `b`: one per fighter, in order. */
  function PairsWithBullet(b: Entity, fs: seq<Entity>): (r: seq<CollisionEvent>)
    ensures |r| == |fs|
    ensures forall k :: 0 <= k < |fs| ==> r[k] == BulletHitsFighter(b, fs[k])
  {
    if fs == [] then []
    else PairsWithBullet(b, fs[..|fs| - 1]) + [BulletHitsFighter(b, fs[|fs| - 1])]
  }

  /** Every live (bullet, fighter) combination has a registered pair. */
  ghost predicate CrossWired(
    bs: seq<Entity>, fs: seq<Entity>, evs: seq<CollisionEvent>, destroyed: set<Entity>)
  {
    forall b, f {:trigger BulletHitsFighter(b, f)} ::
      b in bs && f in fs && b !in destroyed && f !in destroyed ==>
      BulletHitsFighter(b, f) in evs
  }

  /** Every live fighter has a registered pair with `moon`. */
  ghost predicate MoonWired(
    fs: seq<Entity>, evs: seq<CollisionEvent>, moon: Entity, destroyed: set<Entity>)
  {
    forall f {:trigger FighterHitsMoon(f, moon)} ::
      f in fs && f !in destroyed ==> FighterHitsMoon(f, moon) in evs
  }

  /**
   * Spawning a fighter the way `addFighter` does (append it, pair it with every bullet,
   * then with the Moon) keeps the wiring, and the new fighter is wired to the Moon.
   */
  lemma {:induction false} AddFighterKeepsWiring(
    bs: seq<Entity>, fs: seq<Entity>, evs: seq<CollisionEvent>, f: Entity, moon: Entity,
    destroyed: set<Entity>)
    requires CrossWired(bs, fs, evs, destroyed) && MoonWired(fs, evs, moon, destroyed)
    ensures var evs' := evs + PairsWithFighter(bs, f) + [FighterHitsMoon(f, moon)];
      CrossWired(bs, fs + [f], evs', destroyed) && MoonWired(fs + [f], evs', moon, destroyed)
      && FighterHitsMoon(f, moon) in evs'
  {
    var added := PairsWithFighter(bs, f);
    var evs' := evs + added + [FighterHitsMoon(f, moon)];
    forall b, g | b in bs && g in fs + [f] && b !in destroyed && g !in destroyed
      ensures BulletHitsFighter(b, g) in evs'
    {
      if g in fs {
        assert BulletHitsFighter(b, g) in evs;
      } else {
        var k :| 0 <= k < |bs| && bs[k] == b;
        assert added[k] == BulletHitsFighter(b, g);
        assert evs'[|evs| + k] == added[k];
      }
    }
    assert evs'[|evs'| - 1] == FighterHitsMoon(f, moon);
  }

  /**
   * Spawning a bullet the way `addBullet` does (pair it with every fighter, then append
   * it) keeps the wiring.
   */
  lemma {:induction false} AddBulletKeepsWiring(
    bs: seq<Entity>, fs: seq<Entity>, evs: seq<CollisionEvent>, b: Entity,
    destroyed: set<Entity>)
    requires CrossWired(bs, fs, evs, destroyed)
    ensures CrossWired(bs + [b], fs, evs + PairsWithBullet(b, fs), destroyed)
  {
    var added := PairsWithBullet(b, fs);
    var evs' := evs + added;
    forall c, f | c in bs + [b] && f in fs && c !in destroyed && f !in destroyed
      ensures BulletHitsFighter(c, f) in evs'
    {
      if c in bs {
        assert BulletHitsFighter(c, f) in evs;
      } else {
        var k :| 0 <= k < |fs| && fs[k] == f;
        assert added[k] == BulletHitsFighter(c, f);
        assert evs'[|evs| + k] == added[k];
      }
    }
  }

  /**
   * `clean` keeps the wiring: it drops only pairs with a destroyed member, and the
   * wiring speaks only about live members (the Moon among them).
   */
  lemma {:induction false} CleanKeepsWiring(
    bs: seq<Entity>, fs: seq<Entity>, evs: seq<CollisionEvent>, moon: Entity,
    destroyed: set<Entity>)
    requires CrossWired(bs, fs, evs, destroyed) && MoonWired(fs, evs, moon, destroyed)
    requires moon !in destroyed
    ensures CrossWired(bs, fs, LiveEvents(evs, destroyed), destroyed)
    ensures MoonWired(fs, LiveEvents(evs, destroyed), moon, destroyed)
  {
    forall b, f | b in bs && f in fs && b !in destroyed && f !in destroyed
      ensures BulletHitsFighter(b, f) in LiveEvents(evs, destroyed)
    {
      LiveEventsMembers(evs, destroyed, BulletHitsFighter(b, f));
    }
    forall f | f in fs && f !in destroyed
      ensures FighterHitsMoon(f, moon) in LiveEvents(evs, destroyed)
    {
      LiveEventsMembers(evs, destroyed, FighterHitsMoon(f, moon));
    }
  }

  /** Cleaning `fighters` keeps the bullet–fighter wiring: it only drops fighters. */
  lemma {:induction false} LiveFightersKeepWiring(
    bs: seq<Entity>, fs: seq<Entity>, evs: seq<CollisionEvent>, destroyed: set<Entity>)
    requires CrossWired(bs, fs, evs, destroyed)
    ensures CrossWired(bs, Live(fs, destroyed), evs, destroyed)
  {
    forall b, f | b in bs && f in Live(fs, destroyed) && b !in destroyed && f !in destroyed
      ensures BulletHitsFighter(b, f) in evs
    {
      LiveMembers(fs, destroyed, f);
    }
  }

  /** Cleaning `fighters` keeps the Moon wiring. */
  lemma {:induction false} LiveFightersKeepMoonWiring(
    fs: seq<Entity>, evs: seq<CollisionEvent>, moon: Entity, destroyed: set<Entity>)
    requires MoonWired(fs, evs, moon, destroyed)
    ensures MoonWired(Live(fs, destroyed), evs, moon, destroyed)
  {
    forall f | f in Live(fs, destroyed) && f !in destroyed
      ensures FighterHitsMoon(f, moon) in evs
    {
      LiveMembers(fs, destroyed, f);
    }
  }

  /** Cleaning `bullets` keeps the bullet–fighter wiring: it only drops bullets. */
  lemma {:induction false} LiveBulletsKeepWiring(
    bs: seq<Entity>, fs: seq<Entity>, evs: seq<CollisionEvent>, destroyed: set<Entity>)
    requires CrossWired(bs, fs, evs, destroyed)
    ensures CrossWired(Live(bs, destroyed), fs, evs, destroyed)
  {
    forall b, f | b in Live(bs, destroyed) && f in fs && b !in destroyed && f !in destroyed
      ensures BulletHitsFighter(b, f) in evs
    {
      LiveMembers(bs, destroyed, b);
    }
  }

  /**
   * Destroying entities never breaks the wiring: it only shrinks the set of live
   * combinations the wiring speaks about.
   */
  lemma DestroyingKeepsWiring(
    bs: seq<Entity>, fs: seq<Entity>, evs: seq<CollisionEvent>, moon: Entity,
    destroyed: set<Entity>, destroyed': set<Entity>)
    requires CrossWired(bs, fs, evs, destroyed) && MoonWired(fs, evs, moon, destroyed)
    requires destroyed <= destroyed'
    ensures CrossWired(bs, fs, evs, destroyed') && MoonWired(fs, evs, moon, destroyed')
  {
  }
}
