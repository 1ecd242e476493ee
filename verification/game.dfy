/**
 * The Game orchestrator: it owns the Moon, the Gun, the bullet and fighter collections
 * and the collision registry, wires collision pairs when entities spawn, prunes
 * destroyed entities after a collision, and keeps the player's input flags.
 */
module MoonDefender {
  import opened Entities
  import opened Collisions
  import opened Wiring
  import opened Controls

  datatype Option<T> = None | Some(value: T)

  /** Opaque handles for the level script and the screen objects Game is given. */
  type LevelId = nat
  type ScreenId = nat

  class Game {
    var moon: Entity?
    var gun: Entity?
    var bullets: seq<Entity>
    var fighters: seq<Entity>
    /** The collision registry: the pairs registered so far, in registration order. */
    var collisions: seq<CollisionEvent>
    /** The bodies whose `destroyed` flag is set. */
    var destroyed: set<Entity>

    var level: Option<LevelId>
    var screen: Option<ScreenId>

    var lastBullet: real
    const bulletPeriod: real
    /** The `cw`, `ccw` and `firingBullets` flags, held together. */
    var input: Intent

    /**
     * The object invariant: the Moon and the Gun exist together; the Moon is alive;
     * every live bullet is paired with every live fighter; every live fighter is
     * paired with the Moon.
     */
    ghost predicate Valid()
      reads this
    {
      (moon == null <==> gun == null)
      && (moon != null ==>
            moon.kind == Entities.Moon && moon !in destroyed
            && MoonWired(fighters, collisions, moon, destroyed))
      && CrossWired(bullets, fighters, collisions, destroyed)
    }

    constructor ()
      ensures Valid()
      ensures moon == null && gun == null && bullets == [] && fighters == []
      ensures collisions == [] && destroyed == {}
      ensures level == None && screen == None
      ensures input == Idle && lastBullet == 0.0 && bulletPeriod == 0.5
    {
      moon := null;
      gun := null;
      bullets := [];
      fighters := [];
      collisions := [];
      destroyed := {};
      level := None;
      screen := None;
      input := Idle;
      lastBullet := 0.0;
      bulletPeriod := 0.5;
    }

    method SetScreen(s: ScreenId)
      modifies this`screen
      ensures screen == Some(s)
    {
      screen := Some(s);
    }

    method PlayLevel(l: LevelId)
      modifies this`level
      ensures level == Some(l)
    {
      level := Some(l);
    }

    /** What the presentation layer draws: the Moon, the Gun, then every bullet and fighter. */
    method GetEntities() returns (entities: seq<Entity?>)
      ensures entities == [moon, gun] + bullets + fighters
      ensures |entities| == 2 + |bullets| + |fighters|
      ensures entities[0] == moon && entities[1] == gun
    {
      entities := [];
      entities := entities + [moon];
      entities := entities + [gun];
      entities := entities + bullets;
      entities := entities + fighters;
    }

    predicate HasNoFighters()
      reads this
      ensures HasNoFighters() <==> fighters == []
    {
      !(|fighters| > 0)
    }

    /**
     * Resets the stage: a fresh Moon and Gun, no bullets, a fresh registry, one fighter
     * wired to the Moon, and no input held. `lastBullet` and the level are kept.
     */
    method Start()
      modifies this
      ensures Valid()
      ensures moon != null && fresh(moon) && moon.kind == Entities.Moon
      ensures gun != null && fresh(gun) && gun.kind == Entities.Gun
      ensures bullets == [] && |fighters| == 1
      ensures fresh(fighters[0]) && fighters[0].kind == Entities.Fighter
      ensures collisions == [FighterHitsMoon(fighters[0], moon)]
      ensures destroyed == old(destroyed) && moon !in destroyed && fighters[0] !in destroyed
      ensures input == Idle
      ensures lastBullet == old(lastBullet) && level == old(level) && screen == old(screen)
    {
      moon := new Entity(Entities.Moon);
      gun := new Entity(Entities.Gun);
      bullets := [];
      fighters := [];
      collisions := [];

      AddFighter();

      input := Idle;
    }

    /**
     * Spawns a fighter: appends it to `fighters`, registers one pair with each current
     * bullet in `bullets` order, then one pair with the Moon.
     */
    method AddFighter()
      requires Valid() && moon != null
      modifies this`fighters, this`collisions
      ensures Valid()
      ensures |fighters| == |old(fighters)| + 1 && fighters[..|old(fighters)|] == old(fighters)
      ensures var f := fighters[|fighters| - 1];
        fresh(f) && f.kind == Entities.Fighter && f !in destroyed
        && collisions
           == old(collisions) + PairsWithFighter(bullets, f) + [FighterHitsMoon(f, moon)]
    {
      var fighter := new Entity(Entities.Fighter);
      fighters := fighters + [fighter];
      ghost var registered := collisions;
      for i := 0 to |bullets|
        modifies this`collisions
        invariant collisions == registered + PairsWithFighter(bullets[..i], fighter)
      {
        var bullet := bullets[i];
        assert bullets[..i + 1][..i] == bullets[..i];
        collisions := collisions + [BulletHitsFighter(bullet, fighter)];
      }
      assert bullets[..|bullets|] == bullets;
      collisions := collisions + [FighterHitsMoon(fighter, moon)];
      AddFighterKeepsWiring(bullets, old(fighters), registered, fighter, moon, destroyed);
    }

    /** Removes the destroyed fighters, keeping the others in order; a valid game stays valid. */
    method CleanFighters()
      modifies this`fighters
      ensures fighters == Live(old(fighters), destroyed)
      ensures old(Valid()) ==> Valid()
    {
      ghost var fighters0, wasValid := fighters, Valid();
      var i := 0;
      while i < |fighters|
        invariant 0 <= i <= |fighters|
        invariant Live(fighters, destroyed) == Live(old(fighters), destroyed)
        invariant AllLive(fighters[..i], destroyed)
        decreases |fighters| - i
      {
        if fighters[i] in destroyed {
          RemoveDestroyedKeepsLive(fighters, i, destroyed);
          fighters := fighters[..i] + fighters[i + 1..];
          i := i - 1;
        }
        i := i + 1;
      }
      assert fighters[..i] == fighters;
      LiveFixpoint(fighters, destroyed);
      if wasValid {
        LiveFightersKeepWiring(bullets, fighters0, collisions, destroyed);
        if moon != null {
          LiveFightersKeepMoonWiring(fighters0, collisions, moon, destroyed);
        }
      }
    }

    /** Removes the destroyed bullets, keeping the others in order; a valid game stays valid. */
    method CleanBullets()
      modifies this`bullets
      ensures bullets == Live(old(bullets), destroyed)
      ensures old(Valid()) ==> Valid()
    {
      ghost var bullets0, wasValid := bullets, Valid();
      var i := 0;
      while i < |bullets|
        invariant 0 <= i <= |bullets|
        invariant Live(bullets, destroyed) == Live(old(bullets), destroyed)
        invariant AllLive(bullets[..i], destroyed)
        decreases |bullets| - i
      {
        if bullets[i] in destroyed {
          RemoveDestroyedKeepsLive(bullets, i, destroyed);
          bullets := bullets[..i] + bullets[i + 1..];
          i := i - 1;
        }
        i := i + 1;
      }
      assert bullets[..i] == bullets;
      LiveFixpoint(bullets, destroyed);
      if wasValid {
        LiveBulletsKeepWiring(bullets0, fighters, collisions, destroyed);
      }
    }

    /**
     * Adds a bullet: registers one pair with each current fighter in `fighters` order,
     * then appends it to `bullets`.
     */
    method AddBullet(bullet: Entity)
      requires Valid()
      modifies this`bullets, this`collisions
      ensures Valid()
      ensures bullets == old(bullets) + [bullet]
      ensures collisions == old(collisions) + PairsWithBullet(bullet, fighters)
    {
      ghost var registered := collisions;
      for i := 0 to |fighters|
        modifies this`collisions
        invariant collisions == registered + PairsWithBullet(bullet, fighters[..i])
      {
        var fighter := fighters[i];
        assert fighters[..i + 1][..i] == fighters[..i];
        collisions := collisions + [BulletHitsFighter(bullet, fighter)];
      }
      assert fighters[..|fighters|] == fighters;
      bullets := bullets + [bullet];
      AddBulletKeepsWiring(old(bullets), fighters, registered, bullet, destroyed);
    }

    /**
     * The handler bound to a bullet–fighter pair: destroys both, drops stale pairs and
     * prunes both collections, so neither keeps a destroyed entry.
     */
    method BulletCollideFighter(bullet: Entity, fighter: Entity)
      requires Valid() && moon != null
      requires bullet.kind == Entities.Bullet && fighter.kind == Entities.Fighter
      modifies this`bullets, this`fighters, this`destroyed, this`collisions
      ensures Valid()
      ensures destroyed == old(destroyed) + {bullet, fighter}
      ensures collisions == LiveEvents(old(collisions), destroyed)
      ensures bullets == Live(old(bullets), destroyed) && fighters == Live(old(fighters), destroyed)
      ensures AllLive(bullets, destroyed) && AllLive(fighters, destroyed)
      ensures bullet !in bullets && fighter !in fighters
    {
      ghost var bullets0, fighters0, events0, destroyed0 := bullets, fighters, collisions, destroyed;
      destroyed := destroyed + {bullet, fighter};
      DestroyingKeepsWiring(bullets0, fighters0, events0, moon, destroyed0, destroyed);
      CleanKeepsWiring(bullets0, fighters0, events0, moon, destroyed);
      collisions := LiveEvents(collisions, destroyed);
      CleanFighters();
      CleanBullets();
      LiveAllLive(bullets0, destroyed);
      LiveAllLive(fighters0, destroyed);
    }

    /**
     * The handler bound to a fighter–Moon pair: destroys the fighter, drops stale pairs
     * and prunes `fighters`; `bullets` is left as it is.
     */
    method FighterCollideMoon(fighter: Entity, m: Entity)
      requires Valid() && moon != null && fighter.kind == Entities.Fighter
      modifies this`fighters, this`destroyed, this`collisions
      ensures Valid()
      ensures destroyed == old(destroyed) + {fighter}
      ensures collisions == LiveEvents(old(collisions), destroyed)
      ensures fighters == Live(old(fighters), destroyed)
      ensures AllLive(fighters, destroyed) && fighter !in fighters
    {
      ghost var fighters0, events0, destroyed0 := fighters, collisions, destroyed;
      destroyed := destroyed + {fighter};
      DestroyingKeepsWiring(bullets, fighters0, events0, moon, destroyed0, destroyed);
      CleanKeepsWiring(bullets, fighters0, events0, moon, destroyed);
      collisions := LiveEvents(collisions, destroyed);
      CleanFighters();
      LiveAllLive(fighters0, destroyed);
    }

    method HandleKeyDown(keyCode: int)
      modifies this`input
      ensures input == KeyDown(old(input), keyCode)
    {
      if keyCode == CwKey {
        input := input.(cw := true);
      }
      if keyCode == CcwKey {
        input := input.(ccw := true);
      }
    }

    method HandleKeyUp(keyCode: int)
      modifies this`input
      ensures input == KeyUp(old(input), keyCode)
    {
      if keyCode == CwKey {
        input := input.(cw := false);
      }
      if keyCode == CcwKey {
        input := input.(ccw := false);
      }
    }

    /**
     * The firing part of `handleMouseDown`; other buttons fire the laser instead. The
     * source reads the Gun's angle before it tests the button, so a Gun must exist.
     */
    method HandleMouseDown(button: int)
      requires gun != null
      modifies this`input
      ensures input == MouseDown(old(input), button)
    {
      if button == BulletButton {
        input := input.(firingBullets := true);
      }
    }

    method HandleMouseUp(button: int)
      modifies this`input
      ensures input == MouseUp(old(input), button)
    {
      if button == BulletButton {
        input := input.(firingBullets := false);
      }
    }

    /**
     * The bookkeeping part of one frame. `gunReady` is the gun's cooldown verdict and
     * `shot` the bullet the gun fires. The bullet is spawned and wired before anything
     * moves or collides; the result is the direction the gun turns this frame.
     */
    method Step(gunReady: bool, shot: Entity) returns (turn: int)
      requires Valid() && gun != null && level.Some?
      requires input.firingBullets ==> screen.Some?
      modifies this`bullets, this`collisions
      ensures Valid()
      ensures turn == Rotation(input)
      ensures if input.firingBullets && gunReady
        then bullets == old(bullets) + [shot]
             && collisions == old(collisions) + PairsWithBullet(shot, fighters)
        else bullets == old(bullets) && collisions == old(collisions)
    {
      if input.firingBullets && gunReady {
        AddBullet(shot);
      }
      turn := 0;
      if input.cw || input.ccw {
        turn := Rotation(input);
      }
    }
  }
}
