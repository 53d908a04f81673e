/**
 * The bullet pool of js/bullet-manager.js: bullets in flight and idle bullets kept
 * for reuse, so that sprites are recycled instead of being allocated per shot.
 */
module BulletPool {
  import opened Motion

  /** Pixels a bullet travels per frame. */
  const SPEED: real := 7.0

  /** The mutable state of one bullet sprite: where it is and where it is heading. */
  datatype Bullet = Bullet(position: Point, rotation: real)

  /** The state of an idle bullet: off stage at (-50, -50), pointing up. */
  const PARKED := Bullet(Point(-50.0, -50.0), 0.0)

  /** The manager's two lists: `_activeBullets` and `_passiveBullets`. */
  datatype Pool = Pool(active: seq<Bullet>, passive: seq<Bullet>)

  /** Every bullet the manager owns, in flight or idle. */
  function Total(p: Pool): nat
  {
    |p.active| + |p.passive|
  }

  /** `n` idle bullets. */
  function Parked(n: nat): (s: seq<Bullet>)
    ensures |s| == n && AllParked(s)
  {
    seq(n, _ => PARKED)
  }

  predicate AllParked(s: seq<Bullet>)
  {
    forall k :: 0 <= k < |s| ==> s[k] == PARKED
  }

  /**
   * The pool after `add(x, y, alpha)`: when no idle bullet is left one is created,
   * then the last idle bullet is placed at `at` with direction `alpha` and appended
   * to the bullets in flight.
   */
  function Added(p: Pool, at: Point, alpha: real): (q: Pool)
    ensures q.active == p.active + [Bullet(at, alpha)]
    ensures |q.passive| == if p.passive == [] then 0 else |p.passive| - 1
    ensures q.passive == p.passive[..|q.passive|]
    ensures Total(q) == Total(p) + (if p.passive == [] then 1 else 0)
  {
    var free := if p.passive == [] then p.passive + [PARKED] else p.passive;
    Pool(p.active + [Bullet(at, alpha)], free[..|free| - 1])
  }

  /** True when a position lies outside the renderer's area [0, width] x [0, height]. */
  predicate OutOfBounds(p: Point, width: real, height: real)
  {
    p.x < 0.0 || p.x > width || p.y < 0.0 || p.y > height
  }

  /** A bullet moved one frame along its direction. */
  function Advanced(b: Bullet, trig: Trig): Bullet
  {
    b.(position := Forward(b.position, b.rotation, SPEED, trig))
  }

  /**
   * The frame update from loop index `i` on, step for step as `_update` runs it:
   * the bullet at `i` is advanced; if it has left the stage it is spliced out of the
   * active list, parked and appended to the idle list; either way the index moves on,
   * so after a removal the bullet that slid into position `i` is passed over.
   */
  function SweepFrom(p: Pool, i: nat, width: real, height: real, trig: Trig): (q: Pool)
    ensures Total(q) == Total(p)
    ensures |q.active| <= |p.active|
    ensures p.passive <= q.passive
    decreases |p.active| - i
  {
    if i >= |p.active| then p
    else
      var b := Advanced(p.active[i], trig);
      if OutOfBounds(b.position, width, height) then
        SweepFrom(Pool(p.active[..i] + p.active[i + 1..], p.passive + [PARKED]), i + 1, width, height, trig)
      else
        SweepFrom(Pool(p.active[i := b], p.passive), i + 1, width, height, trig)
  }

  /** The pool after one call of `_update` on a renderer of the given size. */
  function Swept(p: Pool, width: real, height: real, trig: Trig): (q: Pool)
    ensures Total(q) == Total(p)
    ensures p.passive <= q.passive
  {
    SweepFrom(p, 0, width, height, trig)
  }

  /**
   * The bullets still in flight after a frame, read off the old active list front
   * to back: a bullet that stays on stage is kept, advanced; one that leaves is
   * dropped, and the bullet right behind it is kept as it was, neither moved nor tested.
   */
  function Kept(s: seq<Bullet>, width: real, height: real, trig: Trig): seq<Bullet>
  {
    if s == [] then []
    else if OutOfBounds(Advanced(s[0], trig).position, width, height) then
      if |s| == 1 then [] else [s[1]] + Kept(s[2..], width, height, trig)
    else
      [Advanced(s[0], trig)] + Kept(s[1..], width, height, trig)
  }

  /** How many bullets of `s` leave the stage in a frame (and are recycled). */
  function Recycled(s: seq<Bullet>, width: real, height: real, trig: Trig): nat
  {
    if s == [] then 0
    else if OutOfBounds(Advanced(s[0], trig).position, width, height) then
      if |s| == 1 then 1 else 1 + Recycled(s[2..], width, height, trig)
    else
      Recycled(s[1..], width, height, trig)
  }

  /**
   * `q` is `s` with some bullets removed and each of the others either unchanged or
   * advanced by one frame, in their original order.
   */
  ghost predicate Embeds(q: seq<Bullet>, s: seq<Bullet>, trig: Trig)
    decreases |s|
  {
    if q == [] then true
    else if s == [] then false
    else
      ((q[0] == s[0] || q[0] == Advanced(s[0], trig)) && Embeds(q[1..], s[1..], trig))
      || Embeds(q, s[1..], trig)
  }

  /** No bullet is removed or added by a frame: those that leave move to the idle list. */
  lemma {:induction false} KeptConserves(s: seq<Bullet>, width: real, height: real, trig: Trig)
    ensures |Kept(s, width, height, trig)| + Recycled(s, width, height, trig) == |s|
    decreases |s|
  {
    if s != [] {
      if OutOfBounds(Advanced(s[0], trig).position, width, height) {
        if |s| > 1 { KeptConserves(s[2..], width, height, trig); }
      } else {
        KeptConserves(s[1..], width, height, trig);
      }
    }
  }

  /** The bullets still in flight keep their relative order. */
  lemma {:induction false} KeptEmbeds(s: seq<Bullet>, width: real, height: real, trig: Trig)
    ensures Embeds(Kept(s, width, height, trig), s, trig)
    decreases |s|
  {
    var k := Kept(s, width, height, trig);
    if s != [] {
      if OutOfBounds(Advanced(s[0], trig).position, width, height) {
        if |s| > 1 {
          KeptEmbeds(s[2..], width, height, trig);
          assert k[0] == s[1..][0] && k[1..] == Kept(s[2..], width, height, trig);
          assert s[1..][1..] == s[2..];
          assert Embeds(k, s[1..], trig);
        }
      } else {
        KeptEmbeds(s[1..], width, height, trig);
        assert k[1..] == Kept(s[1..], width, height, trig);
      }
    }
  }

  /** The loop from index `i` leaves the processed prefix alone and handles the rest as `Kept` says. */
  lemma {:induction false} SweepFromSplits(p: Pool, i: nat, width: real, height: real, trig: Trig)
    requires i <= |p.active|
    ensures SweepFrom(p, i, width, height, trig)
      == Pool(p.active[..i] + Kept(p.active[i..], width, height, trig),
              p.passive + Parked(Recycled(p.active[i..], width, height, trig)))
    decreases |p.active| - i
  {
    var a := p.active;
    if i < |a| {
      var b := Advanced(a[i], trig);
      if OutOfBounds(b.position, width, height) {
        var p' := Pool(a[..i] + a[i + 1..], p.passive + [PARKED]);
        if i + 1 == |a| {
          assert a[i..] == [a[i]];
          assert p'.active == a[..i];
          assert p.passive + [PARKED] == p.passive + Parked(1);
        } else {
          SweepFromSplits(p', i + 1, width, height, trig);
          RecycleStep(p, i, width, height, trig);
        }
      } else {
        SweepFromSplits(Pool(a[i := b], p.passive), i + 1, width, height, trig);
        AdvanceStep(p, i, width, height, trig);
      }
    } else {
      assert a[..i] == a;
      assert a[i..] == [];
    }
  }

  /** One step of `SweepFromSplits` where the bullet at `i` leaves and another follows it. */
  lemma RecycleStep(p: Pool, i: nat, width: real, height: real, trig: Trig)
    requires i + 1 < |p.active|
    requires OutOfBounds(Advanced(p.active[i], trig).position, width, height)
    requires
      var p' := Pool(p.active[..i] + p.active[i + 1..], p.passive + [PARKED]);
      SweepFrom(p', i + 1, width, height, trig)
        == Pool(p'.active[..i + 1] + Kept(p'.active[i + 1..], width, height, trig),
                p'.passive + Parked(Recycled(p'.active[i + 1..], width, height, trig)))
    ensures SweepFrom(p, i, width, height, trig)
      == Pool(p.active[..i] + Kept(p.active[i..], width, height, trig),
              p.passive + Parked(Recycled(p.active[i..], width, height, trig)))
  {
    var a, rest := p.active, p.active[i..];
    var p' := Pool(a[..i] + a[i + 1..], p.passive + [PARKED]);
    var n := Recycled(rest[2..], width, height, trig);
    assert rest[0] == a[i];
    assert Kept(rest, width, height, trig) == [rest[1]] + Kept(rest[2..], width, height, trig);
    assert Recycled(rest, width, height, trig) == 1 + n;
    assert p'.active[..i + 1] == a[..i] + [rest[1]];
    assert p'.active[i + 1..] == a[i + 2..] == rest[2..];
    ParkedAfterOne(p.passive, n);
  }

  lemma ParkedAfterOne(s: seq<Bullet>, n: nat)
    ensures s + Parked(1 + n) == (s + [PARKED]) + Parked(n)
  {
    assert Parked(1 + n) == [PARKED] + Parked(n);
  }

  /** One step of `SweepFromSplits` where the bullet at `i` stays on stage. */
  lemma AdvanceStep(p: Pool, i: nat, width: real, height: real, trig: Trig)
    requires i < |p.active|
    requires !OutOfBounds(Advanced(p.active[i], trig).position, width, height)
    requires
      var p' := Pool(p.active[i := Advanced(p.active[i], trig)], p.passive);
      SweepFrom(p', i + 1, width, height, trig)
        == Pool(p'.active[..i + 1] + Kept(p'.active[i + 1..], width, height, trig),
                p'.passive + Parked(Recycled(p'.active[i + 1..], width, height, trig)))
    ensures SweepFrom(p, i, width, height, trig)
      == Pool(p.active[..i] + Kept(p.active[i..], width, height, trig),
              p.passive + Parked(Recycled(p.active[i..], width, height, trig)))
  {
    var a, rest := p.active, p.active[i..];
    var b := Advanced(a[i], trig);
    var p' := Pool(a[i := b], p.passive);
    assert rest[0] == a[i];
    assert p'.active[..i + 1] == a[..i] + [b];
    assert p'.active[i + 1..] == a[i + 1..] == rest[1..];
  }

  /** One frame, described from the old active list: kept bullets stay in flight, recycled ones are parked at the end of the idle list. */
  lemma SweptSplits(p: Pool, width: real, height: real, trig: Trig)
    ensures Swept(p, width, height, trig)
      == Pool(Kept(p.active, width, height, trig), p.passive + Parked(Recycled(p.active, width, height, trig)))
  {
    SweepFromSplits(p, 0, width, height, trig);
    assert p.active[..0] == [] && p.active[0..] == p.active;
  }

  /**
   * `_update` never creates or destroys a bullet, keeps the idle list's old entries,
   * appends only parked bullets to it, and leaves the bullets in flight in their order.
   */
  lemma SweptConserves(p: Pool, width: real, height: real, trig: Trig)
    ensures var q := Swept(p, width, height, trig);
      && Total(q) == Total(p)
      && |q.passive| >= |p.passive|
      && q.passive[..|p.passive|] == p.passive
      && AllParked(q.passive[|p.passive|..])
      && Embeds(q.active, p.active, trig)
  {
    SweptSplits(p, width, height, trig);
    KeptConserves(p.active, width, height, trig);
    KeptEmbeds(p.active, width, height, trig);
    var q := Swept(p, width, height, trig);
    assert q.passive[|p.passive|..] == Parked(Recycled(p.active, width, height, trig));
  }

  /** When no bullet leaves the stage, every bullet in flight is advanced in place and the idle list is untouched. */
  lemma {:induction false} SweptAllStay(p: Pool, width: real, height: real, trig: Trig)
    requires forall k :: 0 <= k < |p.active| ==> !OutOfBounds(Advanced(p.active[k], trig).position, width, height)
    ensures Swept(p, width, height, trig)
      == Pool(seq(|p.active|, k requires 0 <= k < |p.active| => Advanced(p.active[k], trig)), p.passive)
  {
    SweptSplits(p, width, height, trig);
    KeptAllStay(p.active, width, height, trig);
  }

  lemma {:induction false} KeptAllStay(s: seq<Bullet>, width: real, height: real, trig: Trig)
    requires forall k :: 0 <= k < |s| ==> !OutOfBounds(Advanced(s[k], trig).position, width, height)
    ensures Kept(s, width, height, trig) == seq(|s|, k requires 0 <= k < |s| => Advanced(s[k], trig))
    ensures Recycled(s, width, height, trig) == 0
    decreases |s|
  {
    if s != [] {
      assert !OutOfBounds(Advanced(s[0], trig).position, width, height);
      KeptAllStay(s[1..], width, height, trig);
    }
  }

  /**
   * The bullet behind one that leaves the stage is passed over in that frame: it is
   * neither moved nor tested, so it stays in flight even if its next step would
   * take it off stage.
   */
  lemma SkipsBulletBehindRecycled(b1: Bullet, b2: Bullet, idle: seq<Bullet>, width: real, height: real, trig: Trig)
    requires OutOfBounds(Advanced(b1, trig).position, width, height)
    ensures Swept(Pool([b1, b2], idle), width, height, trig) == Pool([b2], idle + [PARKED])
  {
    SweptSplits(Pool([b1, b2], idle), width, height, trig);
    assert [b1, b2][2..] == [];
  }

  /**
   * `BulletManager`: the two lists are fields that `add` and `_update` reassign.
   * Bullets are values, so the sprites' identity is not part of the model.
   */
  class BulletManager {
    var active: seq<Bullet>
    var passive: seq<Bullet>

    function Lists(): Pool
      reads this
    {
      Pool(active, passive)
    }

    /** Every idle bullet is parked: recycling leaves no stale state behind. */
    ghost predicate Valid()
      reads this
    {
      AllParked(passive)
    }

    /** Creates `initialBullets` idle bullets (none when it is not positive). */
    constructor (initialBullets: int)
      ensures Valid()
      ensures active == []
      ensures passive == Parked(if initialBullets > 0 then initialBullets else 0)
    {
      active := [];
      passive := [];
      new;
      var i := 0;
      while i < initialBullets
        invariant if initialBullets > 0 then 0 <= i <= initialBullets else i == 0
        invariant active == [] && passive == Parked(i)
      {
        CreateBullet();
        i := i + 1;
      }
    }

    /** `_createBullet`: a new parked bullet joins the idle list. */
    method CreateBullet()
      modifies this
      ensures active == old(active)
      ensures passive == old(passive) + [PARKED]
    {
      var bullet := PARKED;
      passive := passive + [bullet];
    }

    /** `add(x, y, alpha)`: reuse the last idle bullet, or grow the pool by one when none is idle. */
    method Add(x: real, y: real, alpha: real)
      requires Valid()
      modifies this
      ensures Valid()
      ensures Lists() == Added(old(Lists()), Point(x, y), alpha)
    {
      if |passive| == 0 {
        CreateBullet();
      }
      var bullet := passive[|passive| - 1];
      passive := passive[..|passive| - 1];
      bullet := bullet.(position := Point(x, y), rotation := alpha);
      active := active + [bullet];
    }

    /** `_update`: move every bullet in flight and recycle those that left the renderer's area. */
    method Update(width: real, height: real, trig: Trig)
      requires Valid()
      modifies this
      ensures Valid()
      ensures Lists() == Swept(old(Lists()), width, height, trig)
    {
      var i := 0;
      while i < |active|
        invariant Valid()
        invariant SweepFrom(Lists(), i, width, height, trig) == Swept(old(Lists()), width, height, trig)
        decreases |active| - i
      {
        var bullet := active[i];
        bullet := bullet.(position := Forward(bullet.position, bullet.rotation, SPEED, trig));
        if OutOfBounds(bullet.position, width, height) {
          bullet := bullet.(position := Point(-50.0, -50.0), rotation := 0.0);
          active := active[..i] + active[i + 1..];
          passive := passive + [bullet];
        } else {
          active := active[i := bullet];
        }
        i := i + 1;
      }
    }
  }
}
