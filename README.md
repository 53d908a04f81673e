# Space-shooter simulation core, modelled in Dafny

This project models the client-side simulation of a multiplayer space-shooter demo. Three classes in the source hold its logic, and the model covers each of them:

- **SpaceShip** (`js/spaceship.js`) is one player's ship. It covers:
  - the speed ramp, clamped to `[0, MAX_SPEED]`;
  - movement along the hull's heading;
  - hit registration and the destroyed flag;
  - the red hit flash and its expiry after `HIT_HIGHLIGHT_DURATION`;
  - the name label's green-to-red colour;
  - the fire-rate gate (`FIRE_INTERVAL`);
  - the player colour, hashed from the name (sum of character codes modulo 9).
- **BulletManager** (`js/bullet-manager.js`) is the bullet pool. It keeps two lists: bullets in flight and idle bullets for reuse. `add` reuses the last idle bullet, or creates one when none is idle. Each frame, `_update` moves the bullets in flight, except the one directly behind a recycled bullet, which is passed over that frame. A bullet that has left the renderer's area goes back to the idle list, parked at (-50, -50) with rotation 0.
- **Loader** (`js/loader.js`) is the start-up gate. It starts the game (runs its callback) once three things are true: the images are loaded, the player has logged in, and the player list has arrived.

Files:
- `common.dfy`: `Options` (the `null` stand-in) and `Motion` (points, the trigonometry parameters, forward motion).
- `bullet_manager.dfy`: module `BulletPool`.
- `spaceship.dfy`: module `Ship`.
- `loader.dfy`: module `Loading`.

Each class is a Dafny `class` whose methods change its fields the way the source does. Beside each class, pure functions describe what one call does:
- `Added` and `Swept` for the pool;
- `NextSpeed`, `ShouldFire`, `FlashOver`, `Hit` and `LabelFill` for the ship;
- `Step` for the loader.

The methods' postconditions tie the new state to these functions. Lemmas then prove what the source promises about them, over single calls and over runs of frames or events.

Modelling choices:
- **Numbers.** Times, speeds and positions are `real` and use exact arithmetic.
- **Trigonometry.** `Math.sin` and `Math.cos` are the two functions of a `Trig` parameter. Nothing is assumed about them.
- **Hit testing.** The body sprite's `containsPoint` is a `Point -> bool` parameter of `CheckHit`.
- **Time.** The clock (`performance.now()`) is a parameter.
- **Control record.** The player's record is a `ControlRecord` parameter of `Update`: a ready flag plus the four control fields.
- **Explosion.** That the animation has reached its last frame is the `explosionFinished` parameter.
- **Game object.** The ship reaches the game through a `Game` class. It holds the bullet manager and records the names passed to `removePlayer`.

Behaviours of the code that the model reproduces:
- **Skipped bullet.** `_update` splices a bullet out of the active list inside a `for` loop but does not step the index back. So the bullet that slides into the freed slot is neither moved nor tested in that frame (`SkipsBulletBehindRecycled`).
- **Flash start of 0.** The flash-expiry test reads the start time for JavaScript truthiness. A flash that started at time 0 is never cleared (`FlashOver`).
- **Hits after destruction.** Nothing stops hits on a destroyed ship (js/spaceship.js:122-126). Health keeps dropping below 0, and `_onDestroyed` runs again on every later hit, since each hit leaves health at 0 or below. A destroyed ship also keeps moving and firing.
- **Null callback.** The image load and the login that set the flags start only inside `load`, after the callback is stored (js/loader.js:21-23). So in the source a null call can happen only when `load` is given no callback; `_checkReady` then calls a missing function, which throws a TypeError in JavaScript. The model's `Load` always stores a callback, but `Step` over-approximates the source: it also accepts the three completion events before `Load`, and for such runs `ReadyOutcome` reports the null call as `NullCallback`.
- **Owner argument.** The pool's `add` ignores the owner argument the ship passes. It hit-tests nothing and gives no self-hit immunity.

## Model

| member | source | states |
|---|---|---|
| `Motion.Forward` | js/spaceship.js:233-234 | defines the movement rule: x grows by sin(heading)·distance and y shrinks by cos(heading)·distance, with sine and cosine given as parameters |
| `BulletPool.Parked` | js/bullet-manager.js:51-59 | a created bullet is idle at (-50, -50) with rotation 0; `n` of them form a list of length `n`, all parked |
| `BulletPool.Added` | js/bullet-manager.js:16-26 | `add` appends a bullet at the given position and direction to the active list (the rest of the list unchanged); the idle list loses its last entry, or stays empty when it was empty; the total grows by 1 exactly when no bullet was idle |
| `BulletPool.KeptConserves` | js/bullet-manager.js:31-48 | a frame neither creates nor destroys bullets: kept plus recycled equals the number in flight before |
| `BulletPool.KeptEmbeds` | js/bullet-manager.js:31-48 | the bullets still in flight after a frame are the old ones in their original relative order, with some removed and each of the rest unchanged or advanced one step |
| `BulletPool.SweepFromSplits` | js/bullet-manager.js:31-48 | the loop from index `i` on leaves the processed prefix alone, keeps what `Kept` says of the remainder, and appends one parked bullet per recycled one |
| `BulletPool.SweptSplits` | js/bullet-manager.js:28-48 | one call of `_update` yields the kept bullets as the active list and the old idle list followed by the recycled bullets, all parked |
| `BulletPool.SweptConserves` | js/bullet-manager.js:28-48 | `_update` preserves the total bullet count, keeps the idle list's old entries, appends only parked bullets, and keeps the order of the bullets in flight |
| `BulletPool.KeptAllStay` | js/bullet-manager.js:31-48 | when no bullet leaves the stage, every bullet in flight is advanced in place and none is recycled |
| `BulletPool.SweptAllStay` | js/bullet-manager.js:28-48 | when no bullet leaves the stage, `_update` advances every bullet in place and leaves the idle list alone |
| `BulletPool.SweepFrom` | js/bullet-manager.js:31-47 | defines the loop from index `i` step for step: advance the bullet at `i`; if it left the stage, splice it out and park it at the end of the idle list; move on to `i + 1` either way; the total count is kept, the active list never grows, and the old idle list stays a prefix |
| `BulletPool.Swept` | js/bullet-manager.js:28-48 | defines one `_update` as the loop from index 0; it keeps the total count and the old idle list as a prefix |
| `BulletPool.SkipsBulletBehindRecycled` | js/bullet-manager.js:31-47 | after a bullet is spliced out, the one behind it stays in flight unmoved and untested in that frame, even when its next step would take it off stage |
| `BulletPool.BulletManager.constructor` | js/bullet-manager.js:5-14 | the pool starts with no bullet in flight and `initialBullets` idle bullets (none when not positive), all parked |
| `BulletPool.BulletManager.CreateBullet` | js/bullet-manager.js:51-60 | one parked bullet joins the end of the idle list; nothing else changes |
| `BulletPool.BulletManager.Add` | js/bullet-manager.js:16-26 | the lists become `Added` of the old lists; idle bullets stay parked |
| `BulletPool.BulletManager.Update` | js/bullet-manager.js:28-49 | the lists become `Swept` of the old lists; idle bullets stay parked |
| `Ship.GetTint` | js/spaceship.js:151-159 | the loop's sum equals the sum of the name's character codes; the result is the tint at that sum modulo 9, always one of the nine tints |
| `Ship.CharSumAppend` | js/spaceship.js:152-156 | the character-code sum of a concatenation is the sum of the parts' sums |
| `Ship.TintRotation` | js/spaceship.js:151-159 | the tint depends only on the name: rotating the name (`a + b` against `b + a`) gives the same colour |
| `Ship.LabelFill` | js/spaceship.js:128-134 | for health in [0, MAX_HEALTH] the label's red and green lie in [0, 255] and blue is 0; red plus green is 255 for even health, 254 for odd; at full health it is pure green |
| `Ship.LabelFillMonotone` | js/spaceship.js:129-131 | more health never gives less green nor more red |
| `Ship.NextSpeed` | js/spaceship.js:215-229 | the new speed lies in [0, MAX_SPEED]; it is the ramped value or one of the two bounds; with elapsed time ≥ 0 it never rises when not moving and never falls when moving |
| `Ship.SpeedRamp` | js/spaceship.js:215-229 | over frames that all hold (or all release) the pad, speed is min(MAX_SPEED, start + ACCELERATION·elapsed) (or max(0, start − ACCELERATION·elapsed)): steps never overshoot |
| `Ship.Shots` | js/spaceship.js:257-267 | over any run of frames at most one shot per frame is fired; the first comes more than FIRE_INTERVAL after the last shot, and each later one more than FIRE_INTERVAL after the one before |
| `Ship.ShouldFire` | js/spaceship.js:260 | defines the fire-rate gate: the pad says shoot and more than FIRE_INTERVAL has passed since the last shot |
| `Ship.FlashOver` | js/spaceship.js:242 | defines when a frame ends the hit flash; it ends only when a start is set and the time is past start + HIT_HIGHLIGHT_DURATION, and a flash started at time 0 never ends, because the start is tested for truthiness |
| `Ship.Hit` | js/spaceship.js:122-126 | defines one registered hit: health drops by one, and the ship is destroyed once health is 0 or below; a destroyed ship stays destroyed |
| `Ship.HitsCount` | js/spaceship.js:121-126 | after `n` hits health is exactly `n` lower, and the ship is destroyed once a hit brought health to 0 or below; nothing resets the destroyed flag |
| `Ship.TenthHitDestroys` | js/spaceship.js:122-126 | a ship at full health is destroyed after `n` hits exactly when `n` ≥ MAX_HEALTH |
| `Ship.Game.RemovePlayer` | js/spaceship.js:251-253 | the game records the name of the player to remove |
| `Ship.SpaceShip.constructor` | js/spaceship.js:48-104 | a new ship has its name's tint, full health, speed 0, no flash, last shot at time 0, is not destroyed, and sits at the given position with a green label |
| `Ship.SpaceShip.CheckHit` | js/spaceship.js:114-140 | returns whether the point lies in the hit area; on a hit: red flash started now, one health point less, destroyed when health reaches 0 or below, otherwise the label recoloured from health; on a miss nothing changes |
| `Ship.SpaceShip.OnDestroyed` | js/spaceship.js:181-187 | marks the ship destroyed and changes nothing else of its state |
| `Ship.SpaceShip.Update` | js/spaceship.js:199-268 | when the record is not ready nothing changes; otherwise it steers, clamps the speed, moves, ends an expired flash, asks for removal when destroyed with the explosion over, and fires at most one bullet through the gate, stamping the time; health and the destroyed flag never change |
| `Ship.SpaceShip.Steer` | js/spaceship.js:208-239 | hull rotation is the body rotation, turret rotation is turret minus body; speed is `NextSpeed`; the ship moves by that speed along the hull's heading and the label follows 45 px below |
| `Ship.SpaceShip.EndFlash` | js/spaceship.js:241-246 | the flash ends (tints restored, start cleared) only when a start is set and truthy and the time is past start + HIT_HIGHLIGHT_DURATION; otherwise it persists |
| `Ship.SpaceShip.Fire` | js/spaceship.js:257-267 | a bullet is added at the barrel's end along the turret rotation only through the gate, and the shot time becomes the current time; otherwise neither changes |
| `Loading.CheckedReady` | js/loader.js:41-49 | defines `_checkReady`'s effect on the state: one more callback run when all three flags are set and a callback is stored, otherwise no change |
| `Loading.ReadyOutcome` | js/loader.js:41-49 | reports `Started` exactly when `CheckedReady` runs the callback, and `NullCallback` only with all three flags set and no run |
| `Loading.Step` | js/loader.js:20-39 | defines the state after one event: `load` stores the callback; image or list completion sets its flag and then applies `CheckedReady`; login sets its flag and requests the list |
| `Loading.StepGuarded` | js/loader.js:26-48 | no event clears a flag; the callback runs at most once per event, only on image or list completion and only with all three flags set; login requests the list and never runs the callback |
| `Loading.RunGuarded` | js/loader.js:26-48 | over any run of events flags only go from false to true, and a run that ran the callback ends with all three flags set |
| `Loading.RunStartsOnceFrom` | js/loader.js:26-48 | with a callback stored and each of images and list completing once more (the list after login), the callback runs exactly once more unless both were already loaded |
| `Loading.RunStartsOnce` | js/loader.js:26-39 | if images and list each load once, the list after login, the callback fires exactly once, whichever completes last |
| `Loading.StartsOnceEitherOrder` | js/loader.js:20-39 | from a fresh loader: load, login, then images and list in either order, or images before login, fire the callback exactly once |
| `Loading.Loader.constructor` | js/loader.js:10-18 | all three flags false, no callback, no run |
| `Loading.Loader.Load` | js/loader.js:20-25 | stores the callback; no flag changes and nothing runs |
| `Loading.Loader.OnImagesLoaded` | js/loader.js:26-29 | sets the images flag, then checks readiness |
| `Loading.Loader.OnLoggedIn` | js/loader.js:31-34 | sets the login flag and requests the player list; does not run the callback |
| `Loading.Loader.OnListLoaded` | js/loader.js:36-39 | sets the list flag, then checks readiness |
| `Loading.Loader.CheckReady` | js/loader.js:41-49 | runs the callback only when all three flags are set; with no callback stored it reports the null call |

## Left out

- Ship.LabelFill: computed in exact arithmetic. The source computes in IEEE-754 doubles, where `(1 - 0.8) * 255` is slightly below 51. So at health 8 the source's red component is 50, where the model gives 51. Every other health value agrees.
- Ship.SpeedRamp: holds for the model's exact reals, not exactly for the source. There, 0.01 is not exactly representable and each frame's sum is rounded, so the speed can differ slightly from min(MAX_SPEED, start + ACCELERATION·elapsed). The bounds and the direction of change survive the rounding.
- Ship.GetTint: a Dafny `char` is a Unicode scalar value, while `charCodeAt` returns UTF-16 code units. Names with characters outside the Basic Multilingual Plane hash differently.
- Floating-point trigonometry. Ship and bullet movement, the muzzle point and the turret angle use `Math.sin` and `Math.cos`. These are the `Trig` parameter; only the bounds test on bullet positions is modelled.
- Explosion animation (js/spaceship.js:251-254). The explosion sprite, its frame bookkeeping and the container's alpha formula are not modelled. They depend on the rendering library's `MovieClip`. The last-frame test is the `explosionFinished` parameter.
- Rendering library objects. Sprites, the stage and its children, anchors, pivots, text style objects and `containsPoint` are left out. Tints, the label colour and positions are kept as plain fields.
- `remove()` (js/spaceship.js:168-173). It removes display objects and deletes the record on the server; both are external side effects.
- Data-sync service. `getRecord`, `record.get()`, the player list, login, `global.ds` and the game's `on('update', …)` binding are left out. The record's ready flag and fields are passed to `Update`. The ship keeps only the record's name.
- Loader I/O. The asset loader, the image list, the server URL and the callback's own effect are left out. Only the callback's invocations are counted, and only that the callback is stored is kept, not its identity.
- Bullet identity. Bullets are values, so the model does not capture that each sprite is one object present in exactly one of the two lists. Conservation is stated by counts.
- Owner-based self-hit immunity and hit-testing in the pool. The source's pool does neither.
- The render loop in js/game.js, the control pads in controls/, the drafts in js/objects/, js/index.js and webpack.config.js. These are bootstrapping, input and rendering glue with no simulation logic.
