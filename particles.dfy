/** One point of the hero constellation: its six fields, how the
    constructor draws them, and how `update()` drifts it, pushes it away
    from the pointer and wraps it at the canvas edges. Coordinates are
    `real`s; distances are compared through their squares. */
module Particles {

  /** The pointer: absent until the first `mousemove` (`mouse.x == null`). */
  datatype Pointer = Absent | At(x: real, y: real)

  datatype Point = Point(x: real, y: real)

  /** A snapshot of the six fields of a `Particle`. */
  datatype Body = Body(x: real, y: real, speedX: real, speedY: real, size: real, opacity: real)
  {
    function Pos(): Point {
      Point(x, y)
    }
  }

  /** The six `Math.random()` draws the constructor consumes, in the order
      it consumes them. */
  datatype Rolls = Rolls(x: real, y: real, size: real, speedX: real, speedY: real, opacity: real)

  predicate UnitInterval(r: real) {
    0.0 <= r < 1.0
  }

  /** What `Math.random()` guarantees of each draw. */
  predicate ValidRolls(r: Rolls) {
    && UnitInterval(r.x) && UnitInterval(r.y) && UnitInterval(r.size)
    && UnitInterval(r.speedX) && UnitInterval(r.speedY) && UnitInterval(r.opacity)
  }

  /** 100 px, the interaction radius of the pointer and of the connection
      pass, squared. */
  const RadiusSq: real := 10000.0

  /** The fraction of the vector to the pointer by which a particle is
      pushed away. */
  const PushFraction: real := 0.02

  function DistSq(a: Point, b: Point): (d: real)
    ensures d >= 0.0
    ensures a == b ==> d == 0.0
  {
    (a.x - b.x) * (a.x - b.x) + (a.y - b.y) * (a.y - b.y)
  }

  /** `Math.sqrt(dsq) < 100` is decided exactly by `dsq < 10000`, which is
      how the model decides it: for the distance `d >= 0` with `d * d == dsq`
      the two tests agree. */
  lemma WithinRadius(d: real, dsq: real)
    requires 0.0 <= d && d * d == dsq
    ensures d < 100.0 <==> dsq < RadiusSq
  {
    if d < 100.0 {
      assert d * d <= 100.0 * d;
      assert 100.0 * d < 100.0 * 100.0;
    } else {
      assert d * d >= 100.0 * d;
      assert 100.0 * d >= 100.0 * 100.0;
    }
  }

  /** The constructor's draws turned into fields. Every field lands in the
      range its formula promises; the position lies inside the canvas
      (half-open when the canvas is not empty). */
  function Spawn(r: Rolls, width: nat, height: nat): (b: Body)
    requires ValidRolls(r)
    ensures 0.0 <= b.x <= width as real && (width > 0 ==> b.x < width as real)
    ensures 0.0 <= b.y <= height as real && (height > 0 ==> b.y < height as real)
    ensures 0.5 <= b.size < 2.5
    ensures -0.1 <= b.speedX < 0.1 && -0.1 <= b.speedY < 0.1
    ensures 0.2 <= b.opacity < 0.7
  {
    Body(Scale(r.x, width), Scale(r.y, height),
         r.speedX * 0.2 - 0.1, r.speedY * 0.2 - 0.1,
         r.size * 2.0 + 0.5, r.opacity * 0.5 + 0.2)
  }

  /** `Math.random() * n`: a coordinate on a canvas side of length `n`. */
  function Scale(r: real, n: nat): (v: real)
    requires UnitInterval(r)
    ensures 0.0 <= v <= n as real
    ensures n > 0 ==> v < n as real
  {
    var side := n as real;
    ProductBounds(r, side);
    r * side
  }

  lemma ProductBounds(r: real, side: real)
    requires 0.0 <= r < 1.0 && 0.0 <= side
    ensures 0.0 <= r * side <= side
    ensures 0.0 < side ==> r * side < side
  {
    assert side - r * side == (1.0 - r) * side;
    if 0.0 < side {
      assert (1.0 - r) * side > 0.0;
    }
  }

  /** Whether the pointer is present and closer than 100 px to `p`. */
  predicate Repels(p: Point, m: Pointer) {
    m.At? && DistSq(Point(m.x, m.y), p) < RadiusSq
  }

  /** The gentle push: when the pointer repels `p`, `p` moves by
      `-0.02 * (pointer - p)`; otherwise it stays. */
  function Repel(p: Point, m: Pointer): (q: Point)
    ensures !Repels(p, m) ==> q == p
  {
    if Repels(p, m) then
      Point(p.x - (m.x - p.x) * PushFraction, p.y - (m.y - p.y) * PushFraction)
    else p
  }

  /** The push points away from the pointer: its dot product with the
      vector from the pointer to `p` is never negative, and it stretches
      that vector by 2%, so the distance to the pointer never shrinks and
      a particle exactly at the pointer stays put. */
  lemma RepelPushesAway(p: Point, mx: real, my: real)
    ensures var q := Repel(p, At(mx, my));
      && (q.x - p.x) * (p.x - mx) + (q.y - p.y) * (p.y - my) >= 0.0
      && (Repels(p, At(mx, my)) ==>
            DistSq(q, Point(mx, my)) == 1.0404 * DistSq(p, Point(mx, my)))
      && DistSq(q, Point(mx, my)) >= DistSq(p, Point(mx, my))
      && (p == Point(mx, my) ==> q == p)
  {
    var q := Repel(p, At(mx, my));
    var ex, ey := p.x - mx, p.y - my;
    if Repels(p, At(mx, my)) {
      assert q.x - mx == 1.02 * ex && q.y - my == 1.02 * ey;
      assert q.x - p.x == PushFraction * ex && q.y - p.y == PushFraction * ey;
      assert (q.x - p.x) * ex + (q.y - p.y) * ey == PushFraction * (ex * ex + ey * ey);
      assert DistSq(q, Point(mx, my)) == (1.02 * ex) * (1.02 * ex) + (1.02 * ey) * (1.02 * ey);
      assert DistSq(p, Point(mx, my)) == ex * ex + ey * ey;
    }
  }

  /** One axis of the edge handling: beyond the far edge goes to 0, below
      0 goes to the far edge. The result is in the CLOSED range [0, bound]:
      a value equal to `bound` is kept. */
  function Wrap(v: real, bound: nat): (r: real)
    ensures 0.0 <= r <= bound as real
    ensures 0.0 <= v <= bound as real ==> r == v
    ensures v < 0.0 ==> r == bound as real
    ensures v > bound as real ==> r == 0.0
  {
    var v' := if v > bound as real then 0.0 else v;
    if v' < 0.0 then bound as real else v'
  }

  /** `update()`: drift by the velocity, push away from the pointer, wrap
      each axis. */
  function Advance(b: Body, m: Pointer, width: nat, height: nat): (c: Body)
  {
    var q := Repel(Point(b.x + b.speedX, b.y + b.speedY), m);
    b.(x := Wrap(q.x, width), y := Wrap(q.y, height))
  }

  /** Whatever the starting position, `update()` leaves the particle inside
      the closed canvas rectangle, and it never writes the speeds, the size
      or the opacity. */
  lemma AdvanceStaysInCanvas(b: Body, m: Pointer, width: nat, height: nat)
    ensures var c := Advance(b, m, width, height);
      && 0.0 <= c.x <= width as real && 0.0 <= c.y <= height as real
      && c.speedX == b.speedX && c.speedY == b.speedY
      && c.size == b.size && c.opacity == b.opacity
  {
  }

  /** Without a pointer in range, a particle whose drifted position is still
      on the canvas moves by its own velocity only. */
  lemma AdvanceDriftOnly(b: Body, m: Pointer, width: nat, height: nat)
    requires !Repels(Point(b.x + b.speedX, b.y + b.speedY), m)
    requires 0.0 <= b.x + b.speedX <= width as real
    requires 0.0 <= b.y + b.speedY <= height as real
    ensures Advance(b, m, width, height).Pos() == Point(b.x + b.speedX, b.y + b.speedY)
  {
  }

  /** The wrap keeps the far edge: a particle that lands exactly on it
      stays there, and one that goes below zero lands exactly on it. */
  lemma WrapKeepsFarEdge(b: Body, width: nat, height: nat)
    requires b.speedX == 0.0 && b.speedY == 0.0
    requires b.x == width as real && 0.0 <= b.y <= height as real
    ensures Advance(b, Absent, width, height).x == width as real
    ensures Advance(b.(x := -0.5), Absent, width, height).x == width as real
  {
  }

  /** A particle at x = 99.95 drifting by 0.1 on a 100 px wide canvas
      reaches 100.05 and reappears at x = 0. */
  lemma WrapScenario(y: real, height: nat, size: real, opacity: real)
    requires 0.0 <= y <= height as real
    ensures Advance(Body(99.95, y, 0.1, 0.0, size, opacity), Absent, 100, height).Pos()
            == Point(0.0, y)
  {
  }

  /** A motionless particle exactly under the pointer at (10, 10) does not
      move. */
  lemma PointerOnParticleScenario(width: nat, height: nat, size: real, opacity: real)
    requires width >= 10 && height >= 10
    ensures Advance(Body(10.0, 10.0, 0.0, 0.0, size, opacity), At(10.0, 10.0), width, height).Pos()
            == Point(10.0, 10.0)
  {
  }

  /** A particle: the six fields of script.js's `Particle` class. */
  class Particle {
    var x: real
    var y: real
    var size: real
    var speedX: real
    var speedY: real
    var opacity: real

    function State(): Body
      reads this
    {
      Body(x, y, speedX, speedY, size, opacity)
    }

    /** `new Particle()`, with its six random draws passed in and the
        canvas size it scales the position by. */
    constructor (r: Rolls, width: nat, height: nat)
      requires ValidRolls(r)
      ensures State() == Spawn(r, width, height)
    {
      x := Scale(r.x, width);
      y := Scale(r.y, height);
      size := r.size * 2.0 + 0.5;
      speedX := r.speedX * 0.2 - 0.1;
      speedY := r.speedY * 0.2 - 0.1;
      opacity := r.opacity * 0.5 + 0.2;
    }

    /** `update()`, given the pointer and the canvas size it reads. It
        writes only the position. */
    method Update(m: Pointer, width: nat, height: nat)
      modifies this`x, this`y
      ensures State() == Advance(old(State()), m, width, height)
      ensures 0.0 <= x <= width as real && 0.0 <= y <= height as real
    {
      x := x + speedX;
      y := y + speedY;
      ghost var q := Repel(Point(x, y), m);

      if m.At? {
        var dx := m.x - x;
        var dy := m.y - y;
        assert dx * dx + dy * dy == DistSq(Point(m.x, m.y), Point(x, y));
        if dx * dx + dy * dy < RadiusSq {
          x := x - dx * PushFraction;
          y := y - dy * PushFraction;
        }
      }
      assert Point(x, y) == q;

      if x > width as real { x := 0.0; }
      if x < 0.0 { x := width as real; }
      if y > height as real { y := 0.0; }
      if y < 0.0 { y := height as real; }
    }
  }
}
