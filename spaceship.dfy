/**
 * One player's ship (js/spaceship.js): speed ramp, hit points, hit flash, the
 * fire-rate gate, the player's colour and the name label's colour.
 */
module Ship {
  import opened Options
  import opened Motion
  import BulletPool

  /** Top speed, in pixels per frame step. */
  const MAX_SPEED: real := 5.0
  /** Hits a ship takes before it explodes. */
  const MAX_HEALTH: int := 10
  /** Gain (or loss) of speed per elapsed millisecond. */
  const ACCELERATION: real := 0.01
  /** Milliseconds that must pass between two shots. */
  const FIRE_INTERVAL: real := 100.0
  /** Length of the turret's barrel; bullets start at its end. */
  const BARREL_LENGTH: real := 27.0
  /** Milliseconds a hit ship flashes red. */
  const HIT_HIGHLIGHT_DURATION: real := 70.0
  /** The colour of the hit flash. */
  const HIT_TINT: int := 0xFF0000
  /** How far below the ship its name label sits. */
  const LABEL_OFFSET: real := 45.0

  /** The nine player colours. */
  const TINTS: seq<int> := [
    0x00FF00, 0x66FFAA, 0x00FFFF, 0xFF00FF, 0xFFAAFF, 0x00FF33, 0x99FF44, 0xFFFF00, 0xFF6600
  ]

  /** A player's input as the control pads publish it. */
  datatype ControlState = ControlState(moving: bool, shooting: bool, bodyRotation: real, turretRotation: real)

  /** The player's record as last synchronised: whether it has loaded, and its fields. */
  datatype ControlRecord = ControlRecord(isReady: bool, data: ControlState)

  /** A label colour `rgb(r, g, b)`. */
  datatype Rgb = Rgb(r: int, g: int, b: int)

  /** The label colour of a ship at full health. */
  const FULL_HEALTH_FILL := Rgb(0, 255, 0)

  // ---------------------------------------------------------------- colour of a player

  /** The sum of the character codes of `s`, accumulated front to back. */
  function CharSum(s: string): nat
  {
    if s == [] then 0 else CharSum(s[..|s| - 1]) + s[|s| - 1] as int
  }

  /** The colour a player's name hashes to. */
  function TintOf(name: string): int
  {
    TINTS[CharSum(name) % |TINTS|]
  }

  /** `_getTint`: sums the name's character codes and picks the colour at that sum modulo nine. */
  method GetTint(name: string) returns (tint: int)
    ensures tint == TintOf(name)
    ensures tint in TINTS
  {
    var sum := 0;
    var i := 0;
    while i < |name|
      invariant 0 <= i <= |name|
      invariant sum == CharSum(name[..i])
    {
      assert name[..i + 1][..i] == name[..i];
      sum := sum + name[i] as int;
      i := i + 1;
    }
    assert name[..i] == name;
    tint := TINTS[sum % |TINTS|];
  }

  lemma {:induction false} CharSumAppend(a: string, b: string)
    ensures CharSum(a + b) == CharSum(a) + CharSum(b)
    decreases |b|
  {
    if b != [] {
      var b' := b[..|b| - 1];
      assert (a + b)[..|a + b| - 1] == a + b';
      CharSumAppend(a, b');
    } else {
      assert a + b == a;
    }
  }

  /** The colour does not depend on where the name is cut and rotated: "ab" + "cd" and "cd" + "ab" get the same ship. */
  lemma TintRotation(a: string, b: string)
    ensures TintOf(a + b) == TintOf(b + a)
  {
    CharSumAppend(a, b);
    CharSumAppend(b, a);
  }

  // ---------------------------------------------------------------- label colour

  /**
   * The name label's colour after a hit that leaves `health` points, health / MAX_HEALTH
   * being the share of green: `rgb(floor((1 - f) * 255), floor(f * 255), 0)`.
   */
  function LabelFill(health: int): (c: Rgb)
    ensures 0 <= health <= MAX_HEALTH ==> 0 <= c.r <= 255 && 0 <= c.g <= 255
    ensures c.b == 0
    ensures 0 <= health <= MAX_HEALTH ==> c.r + c.g == (if health % 2 == 0 then 255 else 254)
    ensures health == MAX_HEALTH ==> c == FULL_HEALTH_FILL
  {
    var f := health as real / MAX_HEALTH as real;
    Rgb(((1.0 - f) * 255.0).Floor, (f * 255.0).Floor, 0)
  }

  /** More health means at least as much green and at most as much red. */
  lemma LabelFillMonotone(h1: int, h2: int)
    requires h1 <= h2
    ensures LabelFill(h1).g <= LabelFill(h2).g
    ensures LabelFill(h1).r >= LabelFill(h2).r
  {
  }

  // ---------------------------------------------------------------- speed

  /**
   * The speed after a frame of `ms` milliseconds: it ramps up by ACCELERATION per
   * millisecond while the player holds the movement pad and down otherwise, and is
   * then clamped to [0, MAX_SPEED].
   */
  function NextSpeed(speed: real, ms: real, moving: bool): (s: real)
    ensures 0.0 <= s <= MAX_SPEED
    ensures 0.0 <= speed <= MAX_SPEED && ms >= 0.0 && !moving ==> s <= speed
    ensures 0.0 <= speed <= MAX_SPEED && ms >= 0.0 && moving ==> s >= speed
    ensures s == speed + ms * ACCELERATION * (if moving then 1.0 else -1.0) || s == 0.0 || s == MAX_SPEED
  {
    var s0 := speed + ms * ACCELERATION * (if moving then 1.0 else -1.0);
    var s1 := if s0 < 0.0 then 0.0 else s0;
    if s1 > MAX_SPEED then MAX_SPEED else s1
  }

  /** One call of the ship's update: elapsed milliseconds, the clock, and the record as it stands. */
  datatype Frame = Frame(ms: real, currentTime: real, record: ControlRecord)

  /** The speed after a run of frames; a frame whose record is not ready leaves it alone. */
  function SpeedAfter(speed: real, frames: seq<Frame>): real
    decreases |frames|
  {
    if frames == [] then speed
    else
      var f := frames[0];
      SpeedAfter(if f.record.isReady then NextSpeed(speed, f.ms, f.record.data.moving) else speed, frames[1..])
  }

  function Elapsed(frames: seq<Frame>): real
    decreases |frames|
  {
    if frames == [] then 0.0 else frames[0].ms + Elapsed(frames[1..])
  }

  function Min(a: real, b: real): real { if a <= b then a else b }
  function Max(a: real, b: real): real { if a >= b then a else b }

  /**
   * Over frames that all hold (or all release) the movement pad, the speed ramps
   * linearly with the elapsed time and stops at MAX_SPEED (or at 0): several small
   * steps never overshoot.
   */
  lemma {:induction false} SpeedRamp(speed: real, frames: seq<Frame>, moving: bool)
    requires 0.0 <= speed <= MAX_SPEED
    requires forall k :: 0 <= k < |frames| ==> frames[k].ms >= 0.0 && frames[k].record.isReady && frames[k].record.data.moving == moving
    ensures moving ==> SpeedAfter(speed, frames) == Min(MAX_SPEED, speed + ACCELERATION * Elapsed(frames))
    ensures !moving ==> SpeedAfter(speed, frames) == Max(0.0, speed - ACCELERATION * Elapsed(frames))
    decreases |frames|
  {
    if frames != [] {
      var f, rest := frames[0], frames[1..];
      var s' := NextSpeed(speed, f.ms, moving);
      assert forall k :: 0 <= k < |rest| ==> rest[k] == frames[k + 1];
      SpeedRamp(s', rest, moving);
      ElapsedNonNegative(rest);
      assert SpeedAfter(speed, frames) == SpeedAfter(s', rest);
      assert Elapsed(frames) == f.ms + Elapsed(rest);
    }
  }

  lemma {:induction false} ElapsedNonNegative(frames: seq<Frame>)
    requires forall k :: 0 <= k < |frames| ==> frames[k].ms >= 0.0
    ensures Elapsed(frames) >= 0.0
    decreases |frames|
  {
    if frames != [] {
      ElapsedNonNegative(frames[1..]);
    }
  }

  // ---------------------------------------------------------------- firing and flash

  /** The fire-rate gate: the pad says shoot and more than FIRE_INTERVAL has passed since the last shot. */
  predicate ShouldFire(shooting: bool, currentTime: real, lastFired: real)
  {
    shooting && currentTime > lastFired + FIRE_INTERVAL
  }

  /**
   * The times at which a ship fires over a run of frames, starting from the time of
   * its last shot: at most one shot per frame, each more than FIRE_INTERVAL after the one before.
   */
  function Shots(lastFired: real, frames: seq<Frame>): (shots: seq<real>)
    ensures |shots| <= |frames|
    ensures |shots| > 0 ==> shots[0] > lastFired + FIRE_INTERVAL
    ensures forall k :: 0 < k < |shots| ==> shots[k] > shots[k - 1] + FIRE_INTERVAL
    decreases |frames|
  {
    if frames == [] then []
    else
      var f := frames[0];
      if f.record.isReady && ShouldFire(f.record.data.shooting, f.currentTime, lastFired) then
        [f.currentTime] + Shots(f.currentTime, frames[1..])
      else
        Shots(lastFired, frames[1..])
  }

  /**
   * Whether the frame at `currentTime` ends the hit flash. The start time is tested
   * for JavaScript truthiness, so a flash that started at time 0 is never cleared.
   */
  function FlashOver(start: Option<real>, currentTime: real): (over: bool)
    ensures over ==> start.Some? && currentTime > start.value + HIT_HIGHLIGHT_DURATION
    ensures start == Some(0.0) ==> !over
  {
    start.Some? && start.value != 0.0 && currentTime > start.value + HIT_HIGHLIGHT_DURATION
  }

  // ---------------------------------------------------------------- hits

  /** Hit points and the destroyed flag. */
  datatype Combat = Combat(health: int, destroyed: bool)

  /** The effect of one registered hit: one point less, destroyed once the points run out. */
  function Hit(c: Combat): (d: Combat)
    ensures d.health < c.health
    ensures c.destroyed ==> d.destroyed
  {
    var health := c.health - 1;
    Combat(health, c.destroyed || health <= 0)
  }

  function Hits(c: Combat, n: nat): Combat
    decreases n
  {
    if n == 0 then c else Hits(Hit(c), n - 1)
  }

  /**
   * After `n` hits health has dropped by exactly `n` (it keeps dropping below 0),
   * and the ship is destroyed once a hit has brought health to 0 or below; nothing
   * makes it whole again.
   */
  lemma {:induction false} HitsCount(c: Combat, n: nat)
    ensures Hits(c, n) == Combat(c.health - n, c.destroyed || (n > 0 && c.health - n <= 0))
    decreases n
  {
    if n > 0 {
      HitsCount(Hit(c), n - 1);
    }
  }

  /** A ship at full health survives nine hits and is destroyed by the tenth. */
  lemma TenthHitDestroys(n: nat)
    ensures Hits(Combat(MAX_HEALTH, false), n).destroyed <==> n >= MAX_HEALTH
  {
    HitsCount(Combat(MAX_HEALTH, false), n);
  }

  // ---------------------------------------------------------------- the game as the ship sees it

  /**
   * The parts of the game object a ship calls: its bullet manager and `removePlayer`,
   * whose calls are recorded.
   */
  class Game {
    const bulletManager: BulletPool.BulletManager
    var removedPlayers: seq<string>

    constructor (initialBullets: int)
      ensures fresh(bulletManager) && bulletManager.Valid()
      ensures bulletManager.active == []
      ensures |bulletManager.passive| == if initialBullets > 0 then initialBullets else 0
      ensures removedPlayers == []
    {
      bulletManager := new BulletPool.BulletManager(initialBullets);
      removedPlayers := [];
    }

    method RemovePlayer(name: string)
      modifies this
      ensures removedPlayers == old(removedPlayers) + [name]
    {
      removedPlayers := removedPlayers + [name];
    }
  }

  // ---------------------------------------------------------------- the ship

  class SpaceShip {
    const name: string
    const tint: int
    /** Path of the player's control record. */
    const recordName: string
    const game: Game

    var isDestroyed: bool
    var timeLastBulletFired: real
    var hitHighlightStart: Option<real>
    var speed: real
    var health: int

    /** The hull's position and rotation (the container's). */
    var position: Point
    var rotation: real
    /** The turret's rotation relative to the hull. */
    var turretRotation: real
    var bodyTint: int
    var turretTint: int
    var labelFill: Rgb
    var labelPosition: Point

    /**
     * The ship's lasting invariant: speed within [0, MAX_SPEED], health never above
     * MAX_HEALTH, destroyed whenever health is gone, and the colour its name hashes to.
     */
    ghost predicate Valid()
      reads this
    {
      && 0.0 <= speed <= MAX_SPEED
      && health <= MAX_HEALTH
      && (health <= 0 ==> isDestroyed)
      && tint == TintOf(name)
    }

    function CombatState(): Combat
      reads this
    {
      Combat(health, isDestroyed)
    }

    constructor (game: Game, x: real, y: real, name: string)
      ensures Valid()
      ensures this.game == game && this.name == name && recordName == "player/" + name
      ensures tint == TintOf(name)
      ensures !isDestroyed && health == MAX_HEALTH && speed == 0.0
      ensures timeLastBulletFired == 0.0 && hitHighlightStart == None
      ensures position == Point(x, y) && rotation == 0.0 && turretRotation == 0.0
      ensures bodyTint == tint && turretTint == tint
      ensures labelFill == FULL_HEALTH_FILL && labelPosition == Point(0.0, 0.0)
    {
      recordName := "player/" + name;
      this.name := name;
      var t := GetTint(name);
      tint := t;
      this.game := game;
      isDestroyed := false;
      timeLastBulletFired := 0.0;
      hitHighlightStart := None;
      speed := 0.0;
      health := MAX_HEALTH;
      labelFill := FULL_HEALTH_FILL;
      labelPosition := Point(0.0, 0.0);
      position := Point(x, y);
      rotation := 0.0;
      turretRotation := 0.0;
      bodyTint := t;
      turretTint := t;
    }

    /**
     * `checkHit`: when the bullet's position lies inside the ship's body (`hitArea`
     * stands for the sprite's `containsPoint`), the ship flashes red from `now`, loses a
     * point, and is destroyed or has its label recoloured; otherwise nothing changes.
     */
    method CheckHit(bulletPosition: Point, hitArea: Point -> bool, now: real) returns (wasHit: bool)
      requires Valid()
      modifies this
      ensures Valid()
      ensures wasHit == hitArea(bulletPosition)
      ensures !wasHit ==> unchanged(this)
      ensures wasHit ==> CombatState() == Hit(old(CombatState()))
      ensures wasHit ==> bodyTint == HIT_TINT && turretTint == HIT_TINT && hitHighlightStart == Some(now)
      ensures wasHit ==> labelFill == if health > 0 then LabelFill(health) else old(labelFill)
      ensures wasHit ==> speed == old(speed) && timeLastBulletFired == old(timeLastBulletFired)
      ensures wasHit ==> position == old(position) && rotation == old(rotation) && turretRotation == old(turretRotation)
      ensures wasHit ==> labelPosition == old(labelPosition)
    {
      wasHit := hitArea(bulletPosition);
      if wasHit {
        bodyTint := HIT_TINT;
        turretTint := HIT_TINT;
        hitHighlightStart := Some(now);
        health := health - 1;
        if health <= 0 {
          OnDestroyed();
        } else {
          labelFill := LabelFill(health);
        }
      }
    }

    /** `_onDestroyed`, its state part: the ship is marked destroyed (the explosion sprite is not modelled). */
    method OnDestroyed()
      modifies this
      ensures isDestroyed
      ensures health == old(health) && speed == old(speed) && labelFill == old(labelFill)
      ensures bodyTint == old(bodyTint) && turretTint == old(turretTint) && hitHighlightStart == old(hitHighlightStart)
      ensures timeLastBulletFired == old(timeLastBulletFired) && labelPosition == old(labelPosition)
      ensures position == old(position) && rotation == old(rotation) && turretRotation == old(turretRotation)
    {
      isDestroyed := true;
    }

    /**
     * `_update(msSinceLastFrame, currentTime)`: nothing happens until the record is
     * ready. Then the ship turns as the pads say, ramps its speed, moves, clears an
     * expired hit flash, asks the game to remove it once a destroyed ship's explosion
     * is on its last frame (`explosionFinished`), and fires through the gate.
     */
    method Update(msSinceLastFrame: real, currentTime: real, record: ControlRecord, trig: Trig, explosionFinished: bool)
      requires Valid() && game.bulletManager.Valid()
      modifies this, game, game.bulletManager
      ensures Valid() && game.bulletManager.Valid()
      ensures !record.isReady ==> unchanged(this) && unchanged(game) && unchanged(game.bulletManager)
      ensures record.isReady ==>
        && rotation == record.data.bodyRotation
        && turretRotation == record.data.turretRotation - record.data.bodyRotation
        && speed == NextSpeed(old(speed), msSinceLastFrame, record.data.moving)
        && position == Forward(old(position), record.data.bodyRotation, speed, trig)
        && labelPosition == Point(position.x, position.y + LABEL_OFFSET)
      ensures record.isReady && FlashOver(old(hitHighlightStart), currentTime) ==>
        bodyTint == tint && turretTint == tint && hitHighlightStart == None
      ensures !FlashOver(old(hitHighlightStart), currentTime) ==>
        bodyTint == old(bodyTint) && turretTint == old(turretTint) && hitHighlightStart == old(hitHighlightStart)
      ensures record.isReady ==>
        game.removedPlayers == old(game.removedPlayers) + (if isDestroyed && explosionFinished then [name] else [])
      ensures record.isReady && ShouldFire(record.data.shooting, currentTime, old(timeLastBulletFired)) ==>
        && timeLastBulletFired == currentTime
        && game.bulletManager.Lists() == BulletPool.Added(old(game.bulletManager.Lists()),
             Forward(position, record.data.turretRotation, BARREL_LENGTH, trig), record.data.turretRotation)
      ensures !(record.isReady && ShouldFire(record.data.shooting, currentTime, old(timeLastBulletFired))) ==>
        timeLastBulletFired == old(timeLastBulletFired) && game.bulletManager.Lists() == old(game.bulletManager.Lists())
      ensures health == old(health) && isDestroyed == old(isDestroyed) && labelFill == old(labelFill)
    {
      if !record.isReady {
        return;
      }
      var data := record.data;
      Steer(msSinceLastFrame, data, trig);
      EndFlash(currentTime);
      if isDestroyed && explosionFinished {
        game.RemovePlayer(name);
      }
      Fire(currentTime, data, trig);
    }

    /** The turning, speed and movement part of `_update`. */
    method Steer(msSinceLastFrame: real, data: ControlState, trig: Trig)
      modifies this`rotation, this`turretRotation, this`speed, this`position, this`labelPosition
      ensures rotation == data.bodyRotation
      ensures turretRotation == data.turretRotation - data.bodyRotation
      ensures speed == NextSpeed(old(speed), msSinceLastFrame, data.moving)
      ensures position == Forward(old(position), data.bodyRotation, speed, trig)
      ensures labelPosition == Point(position.x, position.y + LABEL_OFFSET)
    {
      turretRotation := data.turretRotation - data.bodyRotation;
      rotation := data.bodyRotation;

      speed := speed + (msSinceLastFrame * ACCELERATION) * (if data.moving then 1.0 else -1.0);
      if speed < 0.0 {
        speed := 0.0;
      }
      if speed > MAX_SPEED {
        speed := MAX_SPEED;
      }

      position := Forward(position, rotation, speed, trig);
      labelPosition := Point(position.x, position.y + LABEL_OFFSET);
    }

    /** The part of `_update` that ends the red hit flash once HIT_HIGHLIGHT_DURATION has passed. */
    method EndFlash(currentTime: real)
      modifies this`bodyTint, this`turretTint, this`hitHighlightStart
      ensures FlashOver(old(hitHighlightStart), currentTime) ==>
        bodyTint == tint && turretTint == tint && hitHighlightStart == None
      ensures !FlashOver(old(hitHighlightStart), currentTime) ==>
        bodyTint == old(bodyTint) && turretTint == old(turretTint) && hitHighlightStart == old(hitHighlightStart)
    {
      if hitHighlightStart.Some? && hitHighlightStart.value != 0.0
        && currentTime > hitHighlightStart.value + HIT_HIGHLIGHT_DURATION
      {
        bodyTint := tint;
        turretTint := tint;
        hitHighlightStart := None;
      }
    }

    /** The firing part of `_update`: through the gate, one bullet leaves the turret's muzzle. */
    method Fire(currentTime: real, data: ControlState, trig: Trig)
      requires game.bulletManager.Valid()
      modifies this`timeLastBulletFired, game.bulletManager
      ensures game.bulletManager.Valid()
      ensures ShouldFire(data.shooting, currentTime, old(timeLastBulletFired)) ==>
        && timeLastBulletFired == currentTime
        && game.bulletManager.Lists() == BulletPool.Added(old(game.bulletManager.Lists()),
             Forward(position, data.turretRotation, BARREL_LENGTH, trig), data.turretRotation)
      ensures !ShouldFire(data.shooting, currentTime, old(timeLastBulletFired)) ==>
        timeLastBulletFired == old(timeLastBulletFired) && game.bulletManager.Lists() == old(game.bulletManager.Lists())
    {
      if data.shooting && currentTime > timeLastBulletFired + FIRE_INTERVAL {
        var alpha := data.turretRotation;
        var muzzle := Forward(position, alpha, BARREL_LENGTH, trig);
        game.bulletManager.Add(muzzle.x, muzzle.y, alpha);
        timeLastBulletFired := currentTime;
      }
    }
  }
}
