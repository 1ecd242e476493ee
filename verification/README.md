# Moon Defender: the Game's collection and collision bookkeeping

Moon Defender is a browser arcade game. The player's gun sits on the Moon and shoots
down enemy fighters that fall towards it. `Game` in `js/game.js` is its orchestrator.
This project models the parts of `Game` that are discrete bookkeeping and proves
properties about them:

- it owns the Moon, the Gun, the ordered lists `bullets` and `fighters`, and the
  collision registry;
- when a fighter or a bullet spawns (`addFighter`, `addBullet`), it registers one
  collision pair between the newcomer and every member of the other list, and for a
  fighter also a pair with the Moon;
- when a collision handler fires (`bulletCollideFighter`, `fighterCollideMoon`), it
  destroys the bodies involved, cleans the registry, and removes the destroyed entries
  from the lists with index loops that `splice` and then step back (`i--`);
- `start` resets the stage;
- the key and mouse handlers drive three input flags, and `step` turns the gun in the
  direction `ccw - cw`.

The model is split into five modules:

- `Entities` (`entities.dfy`): the bodies (a class with a constant `kind`) and
  `Live`, the order-preserving filter of the entries that are not destroyed. Its
  lemmas say what a cleanup pass must produce.
- `Collisions` (`collisions.dfy`): the registered pairs, tagged with the handler each
  is bound to, and `LiveEvents`, the registry after `clean`.
- `Wiring` (`wiring.dfy`): the cross-wiring invariant `CrossWired` (every live bullet
  is paired with every live fighter) and `MoonWired` (every live fighter is paired with
  the Moon). Also the pair lists registered on a spawn and the lemmas that spawning,
  destroying and cleaning keep the wiring.
- `Controls` (`controls.dfy`): the input flags as a record, one transition function
  per handler, and the rotation sign.
- `MoonDefender` (`game.dfy`): the `Game` class. Its methods update its fields in
  place, as the JavaScript does. The clean loops keep the source's `splice` and `i--`
  and are proved equal to `Live`. `Valid()` is the object invariant: the Moon and the
  Gun exist together, the Moon is alive, and the wiring holds. Every state-changing
  method that can run after `start` preserves it.

Modelling choices:

- Bodies are references (`Entity`), so identity works as in JavaScript. Every body
  created by `start` or `addFighter` is fresh.
- Each body's `destroyed` flag is held in one place: `Game.destroyed` is the set of
  destroyed bodies. Destroying a body adds it to the set. Only `Game` sets or reads
  the flags here, and a flag never reverts, so this set records the same facts as the
  per-body flags.
- The registry (`CollisionGroup`, which is not part of this model) is the sequence
  `Game.collisions` of pairs in registration order. `addCollisionEvent` appends one
  pair. `clean` is given the contract that it drops exactly the pairs with a destroyed
  member and keeps the rest in order (`Collisions.LiveEvents`).
- The flags `cw`, `ccw` and `firingBullets` are held together in one field,
  `Game.input`, of type `Controls.Intent`.
- The key codes are those of 'A' (65, counter-clockwise) and 'D' (68, clockwise). Mouse
  button 0 fires bullets.
- `step`'s calls into the gun become parameters: `gunReady` is the verdict of
  `gun.ready(...)` and `shot` is the bullet `gun.shoot(...)` returns. Its result is
  the sign of the rotation it applies.

## Model

| member | source | states |
|---|---|---|
| Entities.Live | js/game.js:129-144 | the filter a cleanup pass must leave; it is never longer than the list it filters |
| Entities.LiveMembers | js/game.js:129-144 | an entity is in the cleaned list exactly when it was in the list and is not destroyed: no live entry is dropped and no destroyed one survives |
| Entities.LiveAllLive | js/game.js:129-144 | a cleaned list holds no destroyed entry |
| Entities.LiveAppend | js/game.js:129-144 | cleaning a concatenation is the concatenation of the cleaned parts |
| Entities.LiveFixpoint | js/game.js:129-144 | a list is left unchanged by cleaning exactly when none of its entries is destroyed |
| Entities.LiveIdempotent | js/game.js:129-144 | cleaning an already cleaned list changes nothing |
| Entities.RemoveDestroyedKeepsLive | js/game.js:131-134 | splicing one destroyed entry out of a list leaves its live entries, and their order, unchanged |
| Collisions.LiveEvents | js/game.js:167 | what the registry holds after `clean`; it never grows |
| Collisions.LiveEventsMembers | js/game.js:178 | a pair survives `clean` exactly when it was registered and neither of its entities is destroyed |
| Wiring.PairsWithFighter | js/game.js:116-122 | `addFighter` registers one pair per bullet, the k-th pairing the k-th bullet with the new fighter |
| Wiring.PairsWithBullet | js/game.js:148-155 | `addBullet` registers one pair per fighter, the k-th pairing the new bullet with the k-th fighter |
| Wiring.AddFighterKeepsWiring | js/game.js:112-127 | if every live bullet–fighter combination and every live fighter–Moon combination had a pair, this still holds after a fighter is added as `addFighter` adds it, and the new fighter is paired with the Moon |
| Wiring.AddBulletKeepsWiring | js/game.js:146-156 | if every live bullet–fighter combination had a pair, this still holds after a bullet is added as `addBullet` adds it |
| Wiring.DestroyingKeepsWiring | js/game.js:164-165 | destroying more bodies never breaks the wiring |
| Wiring.CleanKeepsWiring | js/game.js:167 | `clean` keeps the wiring: every live bullet–fighter combination and every live fighter–Moon combination still has a pair, provided the Moon is alive |
| Wiring.LiveFightersKeepWiring | js/game.js:129-136 | removing the destroyed fighters keeps every live bullet–fighter combination paired |
| Wiring.LiveFightersKeepMoonWiring | js/game.js:129-136 | removing the destroyed fighters keeps every live fighter paired with the Moon |
| Wiring.LiveBulletsKeepWiring | js/game.js:138-144 | removing the destroyed bullets keeps every live bullet–fighter combination paired |
| Controls.Rotation | js/game.js:267-268 | the direction `ccw - cw` is -1, 0 or 1; it is 0 exactly when both keys or neither are held, 1 exactly when only counter-clockwise is held, -1 exactly when only clockwise is held |
| Controls.KeyDownStartsRotation | js/game.js:248-253 | pressing 'D' sets `cw` and pressing 'A' sets `ccw`, and nothing else changes |
| Controls.KeyUpStopsRotation | js/game.js:255-260 | releasing 'D' clears `cw` and releasing 'A' clears `ccw`, and nothing else changes |
| Controls.OtherKeysIgnored | js/game.js:248-260 | no key touches `firingBullets`, and any other key code changes nothing |
| Controls.ReleaseUndoesPress | js/game.js:248-260 | a press followed by the release of the same key or button leaves what the release alone leaves |
| Controls.OnlyBulletButtonFires | js/game.js:207-229 | button 0 sets `firingBullets` on press and clears it on release; other buttons leave it alone; no button changes the rotation flags |
| Controls.BothKeysCancel | js/game.js:267-268 | holding both direction keys does not turn the gun |
| MoonDefender.Game.constructor | js/game.js:3-51 | no Moon, no Gun, empty lists and registry, no level or screen, no input held, `lastBullet` 0 and `bulletPeriod` 0.5; the invariant holds |
| MoonDefender.Game.SetScreen | js/game.js:53-55 | the screen is the one given |
| MoonDefender.Game.PlayLevel | js/game.js:280-283 | the level is the one given |
| MoonDefender.Game.GetEntities | js/game.js:65-72 | returns the Moon, the Gun, every bullet and every fighter, in that order, of length 2 + number of bullets + number of fighters, and changes nothing |
| MoonDefender.Game.HasNoFighters | js/game.js:231-233 | true exactly when `fighters` is empty |
| MoonDefender.Game.Start | js/game.js:74-91 | fresh Moon and Gun; no bullets; exactly one fighter, fresh and alive; the registry holds exactly the pair of that fighter with the Moon; no input held; `lastBullet`, the level and the screen untouched; the invariant holds |
| MoonDefender.Game.AddFighter | js/game.js:112-127 | `fighters` gains one fresh, live fighter at its end and is otherwise unchanged; the registry gains one pair per bullet in `bullets` order, then the pair with the Moon, i.e. number of bullets + 1 pairs; `bullets` untouched; the invariant is preserved |
| MoonDefender.Game.CleanFighters | js/game.js:129-136 | the splice loop leaves `fighters` equal to its live entries in their original order; a valid game stays valid |
| MoonDefender.Game.CleanBullets | js/game.js:138-144 | the splice loop leaves `bullets` equal to its live entries in their original order; a valid game stays valid |
| MoonDefender.Game.AddBullet | js/game.js:146-156 | `bullets` gains the bullet at its end; the registry gains one pair per fighter in `fighters` order; `fighters` untouched; the invariant is preserved |
| MoonDefender.Game.BulletCollideFighter | js/game.js:162-172 | both bodies are destroyed; the registry is cleaned; both lists equal their live entries, hold no destroyed entry and no longer contain the bullet or the fighter; the invariant is preserved |
| MoonDefender.Game.FighterCollideMoon | js/game.js:174-181 | the fighter is destroyed; the registry is cleaned; `fighters` equals its live entries and no longer contains it; `bullets` untouched; the invariant is preserved |
| MoonDefender.Game.HandleKeyDown | js/game.js:248-253 | the input becomes `KeyDown` of the previous input |
| MoonDefender.Game.HandleKeyUp | js/game.js:255-260 | the input becomes `KeyUp` of the previous input |
| MoonDefender.Game.HandleMouseDown | js/game.js:195-221 | with a Gun present, the input becomes `MouseDown` of the previous input |
| MoonDefender.Game.HandleMouseUp | js/game.js:225-229 | the input becomes `MouseUp` of the previous input |
| MoonDefender.Game.Step | js/game.js:262-268 | when firing and the gun is ready, the shot is added and wired exactly as `addBullet` does, before anything else; otherwise the lists and registry are unchanged; the result is the rotation direction `ccw - cw`; the invariant is preserved |

## Left out

- Images and audio (js/game.js:19-35, 88-90, 99, 108, 157-159): browser media side effects.
- Canvas origin, crosshair, mouse position, `updateMouse`, `handleMove`, `handleContext` and the gun angle computed in `handleMouseDown` (js/game.js:6-8, 16, 189-205, 235-246): DOM input plumbing and floating-point geometry.
- `shootLaser` and the right-button branch of `handleMouseDown` (js/game.js:183-187, 211-216): only a log line and a sound.
- Positions, velocities, `addGravity`, gravity integration in each entity's `step`, `gun.rotate`'s magnitude `dt * (ccw - cw)` and `gun.pointAt`: floating-point physics in `Vector`, `Moon`, `Gun`, `Fighter` and `Bullet`, which are not part of this model. Only the sign of the rotation is modelled.
- The `pos`/`vel` arguments of `addFighter`: they only feed the physics.
- `CollisionGroup` (`checkCollisions`, the overlap test, callback dispatch) is not part of this model. The registry is the list of pairs, and `clean` is given the contract stated above.
- `Moon.damage` in `fighterCollideMoon`, `lose`, `win`, `setLossScreen`, `setWinScreen` and the screens' `open`/`close`: the Moon's health and the UI screens are not part of this model. The constructor initialises `wonScreen` while `setWinScreen` and `win` use `winScreen`; this changes no modelled state.
- `gun.ready`, `gun.shoot`, `screen.elapsedTime` and the bullet cooldown: foreign objects. They become the parameters `gunReady` and `shot`. `lastBullet` and `bulletPeriod` are only initialised.
- `level.step`, `level.won`, `level.useGame`: the level script is not part of this model. A level is an opaque handle.
- The unused `fighter` parameter of `cleanFighters` (js/game.js:129): it is ignored by the source too.
- MoonDefender.Game.Step: after the spawn it does not model `level.step`, the entities' `step`, `checkCollisions` or the win check (js/game.js:264-277). It states the implicit preconditions as `requires`: a Gun exists, a level is set (line 276 calls `this.level.won()` without a guard), and a screen is set whenever `firingBullets` holds (line 263).
- MoonDefender.Game.BulletCollideFighter and MoonDefender.Game.FighterCollideMoon: these require a started game and the right kinds of body. The handlers are bound only by `addFighter` and `addBullet` after `start`, and always to a bullet and a fighter, or a fighter and the Moon.
- MoonDefender.Game.AddFighter: this requires a Moon, because it pairs the new fighter with `this.moon`.
- MoonDefender.Game.HandleMouseDown: this requires a Gun. The source calls `this.gun.getAngle()` (js/game.js:204) before it tests the button (js/game.js:208). Without a Gun that call throws and `firingBullets` is never set. The model does not describe that failure; it excludes the case.
