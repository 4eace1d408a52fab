/** The particle field behind the hero: the canvas size, the pointer, the
    particles, and one animation frame, which updates each particle in
    place and, right after updating particle `i`, tests it against every
    particle `j >= i` for a connecting line. */
module Constellation {
  import opened Particles

  /** The number of particles `initParticles()` creates. */
  const ParticleCount: nat := 150

  /** A line the connection pass draws: from particle `i` to particle `j`,
      between the two positions it saw when it tested the pair. */
  datatype Link = Link(i: nat, j: nat, from: Point, to: Point)

  /** Two points are joined when they are closer than 100 px. */
  predicate Close(a: Point, b: Point) {
    DistSq(a, b) < RadiusSq
  }

  /** The stroke alpha of a line of length `d`: full 0.1 for a zero-length
      line, fading towards 0 as `d` approaches 100. */
  function StrokeAlpha(d: real): (alpha: real)
    requires 0.0 <= d < 100.0
    ensures 0.0 < alpha <= 0.1
  {
    0.1 - d / 1000.0
  }

  /** The alpha strictly decreases as the line grows. */
  lemma StrokeAlphaDecreasing(d1: real, d2: real)
    requires 0.0 <= d1 < d2 < 100.0
    ensures StrokeAlpha(d2) < StrokeAlpha(d1)
  {
  }

  /** The lines of length 0 and 50 get alpha 0.1 and 0.05. */
  lemma StrokeAlphaScenario()
    ensures StrokeAlpha(0.0) == 0.1 && StrokeAlpha(50.0) == 0.05
  {
  }

  /** Every particle advanced, as one frame does. */
  function AdvanceAll(s: seq<Body>, m: Pointer, width: nat, height: nat): (t: seq<Body>)
    ensures |t| == |s|
    ensures forall k :: 0 <= k < |s| ==> t[k] == Advance(s[k], m, width, height)
  {
    seq(|s|, k requires 0 <= k < |s| => Advance(s[k], m, width, height))
  }

  /** Particle `k` of `after` is particle `k` of `before` advanced. */
  predicate AdvancedAt(before: seq<Body>, after: seq<Body>, k: nat, m: Pointer, width: nat, height: nat)
    requires k < |before| == |after|
  {
    after[k] == Advance(before[k], m, width, height)
  }

  predicate AllAdvanced(before: seq<Body>, after: seq<Body>, m: Pointer, width: nat, height: nat) {
    |before| == |after| && forall k: nat :: k < |after| ==> AdvancedAt(before, after, k, m, width, height)
  }

  /** A frame's outcome is determined: the only sequence in which every
      particle has advanced is `AdvanceAll`'s, and that one qualifies. */
  lemma AllAdvancedUnique(before: seq<Body>, after: seq<Body>, m: Pointer, width: nat, height: nat)
    ensures AllAdvanced(before, AdvanceAll(before, m, width, height), m, width, height)
    ensures AllAdvanced(before, after, m, width, height) <==> after == AdvanceAll(before, m, width, height)
  {
    var t := AdvanceAll(before, m, width, height);
    if AllAdvanced(before, after, m, width, height) {
      forall k | 0 <= k < |after|
        ensures after[k] == t[k]
      {
        assert AdvancedAt(before, after, k, m, width, height);
      }
    }
  }

  /** Where the pass sees particle `j` while it handles row `i`: particles
      up to `i` have already been updated this frame, the later ones not
      yet. */
  function Seen(i: nat, j: nat, before: seq<Body>, after: seq<Body>): Point
    requires j < |before| == |after|
  {
    if j <= i then after[j].Pos() else before[j].Pos()
  }

  /** The line (if any) for the pair `(i, j)`. */
  function Probe(i: nat, j: nat, before: seq<Body>, after: seq<Body>): seq<Link>
    requires i < |after| && j < |before| == |after|
  {
    var a, b := after[i].Pos(), Seen(i, j, before, after);
    if Close(a, b) then [Link(i, j, a, b)] else []
  }

  /** The lines of row `i` found by the inner loop before it reaches `j`. */
  function Row(i: nat, j: nat, before: seq<Body>, after: seq<Body>): seq<Link>
    requires i <= j <= |before| == |after| && i < |after|
    decreases j - i
  {
    if j == i then [] else Row(i, j - 1, before, after) + Probe(i, j - 1, before, after)
  }

  /** The lines of the rows before `i`. */
  function Pass(i: nat, before: seq<Body>, after: seq<Body>): seq<Link>
    requires i <= |before| == |after|
  {
    if i == 0 then [] else Pass(i - 1, before, after) + Row(i - 1, |after|, before, after)
  }

  lemma PassStep(i: nat, before: seq<Body>, after: seq<Body>)
    requires i < |before| == |after|
    ensures Pass(i + 1, before, after) == Pass(i, before, after) + Row(i, |after|, before, after)
  {
  }

  /** The whole connection pass of one frame. */
  function Connections(before: seq<Body>, after: seq<Body>): seq<Link>
    requires |before| == |after|
  {
    Pass(|after|, before, after)
  }

  /** The line drawn for `(i, j)`, with the positions it joins. */
  function Line(i: nat, j: nat, before: seq<Body>, after: seq<Body>): Link
    requires i < |after| && j < |before| == |after|
  {
    Link(i, j, after[i].Pos(), Seen(i, j, before, after))
  }

  /** Row `i` up to `j` holds only lines for close pairs `(i, k)` with
      `i <= k < j`, each joining the positions the pass compares. */
  lemma {:induction false} RowMembers(i: nat, j: nat, before: seq<Body>, after: seq<Body>)
    requires i <= j <= |before| == |after| && i < |after|
    ensures forall l :: l in Row(i, j, before, after) ==>
      l.i == i && i <= l.j < j && l == Line(i, l.j, before, after)
      && Close(l.from, l.to)
    decreases j - i
  {
    if j > i {
      RowMembers(i, j - 1, before, after);
    }
  }

  /** Row `i` up to `j` holds the line of every close pair `(i, k)` with
      `i <= k < j`. */
  lemma {:induction false} RowComplete(i: nat, j: nat, before: seq<Body>, after: seq<Body>)
    requires i <= j <= |before| == |after| && i < |after|
    ensures forall k :: i <= k < j && Close(after[i].Pos(), Seen(i, k, before, after)) ==>
      Line(i, k, before, after) in Row(i, j, before, after)
    decreases j - i
  {
    if j > i {
      RowComplete(i, j - 1, before, after);
    }
  }

  /** The lines of a row come in strictly increasing `j`. */
  lemma {:induction false} RowOrder(i: nat, j: nat, before: seq<Body>, after: seq<Body>)
    requires i <= j <= |before| == |after| && i < |after|
    ensures forall a, b :: 0 <= a < b < |Row(i, j, before, after)| ==>
      Row(i, j, before, after)[a].j < Row(i, j, before, after)[b].j
    decreases j - i
  {
    if j > i {
      RowOrder(i, j - 1, before, after);
      RowMembers(i, j - 1, before, after);
    }
  }

  /** The rows before `i` hold only lines for close pairs `(r, k)` with
      `r < i` and `r <= k`, each joining the positions the pass compares. */
  lemma {:induction false} PassMembers(i: nat, before: seq<Body>, after: seq<Body>)
    requires i <= |before| == |after|
    ensures forall l :: l in Pass(i, before, after) ==>
      l.i < i && l.i <= l.j < |after| && l == Line(l.i, l.j, before, after)
      && Close(l.from, l.to)
  {
    if i > 0 {
      PassMembers(i - 1, before, after);
      RowMembers(i - 1, |after|, before, after);
    }
  }

  /** The rows before `i` hold the line of every close pair `(r, k)` with
      `r < i` and `r <= k`. */
  lemma {:induction false} PassComplete(i: nat, before: seq<Body>, after: seq<Body>)
    requires i <= |before| == |after|
    ensures forall r, k ::
      (0 <= r < i && r <= k < |after| && Close(after[r].Pos(), Seen(r, k, before, after))) ==>
      Line(r, k, before, after) in Pass(i, before, after)
  {
    if i > 0 {
      PassComplete(i - 1, before, after);
      RowComplete(i - 1, |after|, before, after);
    }
  }

  /** The lines of the rows before `i` come in row-major order. */
  lemma {:induction false} PassOrder(i: nat, before: seq<Body>, after: seq<Body>)
    requires i <= |before| == |after|
    ensures forall a, b :: 0 <= a < b < |Pass(i, before, after)| ==>
      RowMajorBefore(Pass(i, before, after)[a], Pass(i, before, after)[b])
  {
    if i > 0 {
      PassOrder(i - 1, before, after);
      PassMembers(i - 1, before, after);
      RowMembers(i - 1, |after|, before, after);
      RowOrder(i - 1, |after|, before, after);
      RowsInOrder(Pass(i - 1, before, after), Row(i - 1, |after|, before, after), i - 1);
    }
  }

  /** Rows before `r` in row-major order, followed by row `r` in increasing
      `j`, are in row-major order. */
  lemma RowsInOrder(p: seq<Link>, q: seq<Link>, r: nat)
    requires forall a, b :: 0 <= a < b < |p| ==> RowMajorBefore(p[a], p[b])
    requires forall a, b :: 0 <= a < b < |q| ==> q[a].j < q[b].j
    requires forall l :: l in p ==> l.i < r
    requires forall l :: l in q ==> l.i == r
    ensures forall a, b :: 0 <= a < b < |p + q| ==> RowMajorBefore((p + q)[a], (p + q)[b])
  {
    forall a, b | 0 <= a < b < |p + q|
      ensures RowMajorBefore((p + q)[a], (p + q)[b])
    {
      if b < |p| {
      } else if a < |p| {
        assert p[a] in p && q[b - |p|] in q;
      } else {
        assert (p + q)[a] == q[a - |p|] && (p + q)[b] == q[b - |p|];
      }
    }
  }

  /** `(i, j)` comes strictly before `(i', j')` in row-major order. */
  predicate RowMajorBefore(l: Link, l': Link) {
    l.i < l'.i || (l.i == l'.i && l.j < l'.j)
  }

  /** The pass draws a line for the pair `(i, j)` if and only if `i <= j`
      and the two positions it compares (particle `i` after its update,
      particle `j` after it for `j == i` and before it for `j > i`) are
      closer than 100 px; the line joins exactly those positions, and each
      pair is drawn at most once, in row-major order. */
  lemma ConnectionsSpec(before: seq<Body>, after: seq<Body>)
    requires |before| == |after|
    ensures forall l :: l in Connections(before, after) ==>
      l.i <= l.j < |after| && l == Line(l.i, l.j, before, after) && Close(l.from, l.to)
    ensures forall i, j ::
      (0 <= i <= j < |after| && Close(after[i].Pos(), Seen(i, j, before, after))) ==>
      Line(i, j, before, after) in Connections(before, after)
    ensures forall a, b :: 0 <= a < b < |Connections(before, after)| ==>
      RowMajorBefore(Connections(before, after)[a], Connections(before, after)[b])
  {
    PassMembers(|after|, before, after);
    PassComplete(|after|, before, after);
    PassOrder(|after|, before, after);
  }

  /** Every particle is joined to itself by a zero-length line at full
      alpha: the self-pair `(i, i)` is always tested. */
  lemma SelfPairsDrawn(before: seq<Body>, after: seq<Body>, i: nat)
    requires |before| == |after| && i < |after|
    ensures Link(i, i, after[i].Pos(), after[i].Pos()) in Connections(before, after)
  {
    ConnectionsSpec(before, after);
    assert Close(after[i].Pos(), Seen(i, i, before, after));
  }

  /** A drawn line is shorter than 100 px, so its alpha, taken at its
      length `d`, lies in (0, 0.1]. */
  lemma LinkAlpha(before: seq<Body>, after: seq<Body>, l: Link, d: real)
    requires |before| == |after| && l in Connections(before, after)
    requires 0.0 <= d && d * d == DistSq(l.from, l.to)
    ensures d < 100.0 && 0.0 < StrokeAlpha(d) <= 0.1
  {
    ConnectionsSpec(before, after);
    WithinRadius(d, DistSq(l.from, l.to));
  }

  /** Two particles at (0, 0) and (50, 0) that stay put are 50 px apart
      and are joined by a line. */
  lemma TwoParticleScenario(width: nat, height: nat, p: Body, q: Body)
    requires width >= 50
    requires p == Body(0.0, 0.0, 0.0, 0.0, 1.0, 0.5)
    requires q == Body(50.0, 0.0, 0.0, 0.0, 1.0, 0.5)
    ensures var after := AdvanceAll([p, q], Absent, width, height);
      && after == [p, q]
      && Link(0, 1, Point(0.0, 0.0), Point(50.0, 0.0)) in Connections([p, q], after)
      && DistSq(Point(0.0, 0.0), Point(50.0, 0.0)) == 50.0 * 50.0
  {
    var after := AdvanceAll([p, q], Absent, width, height);
    assert after == [p, q];
    ConnectionsSpec([p, q], after);
    assert Close(after[0].Pos(), Seen(0, 1, [p, q], after));
  }

  /** The canvas, the pointer and the particles: the page script's
      closure variables `width`, `height`, `mouse` and `particles`. */
  class Field {
    var width: nat
    var height: nat
    var mouse: Pointer
    var particles: array<Particle>

    /** Every particle is its own object. */
    ghost predicate Valid()
      reads this, particles
    {
      forall a, b :: 0 <= a < b < particles.Length ==> particles[a] != particles[b]
    }

    ghost function Objects(): set<Particle>
      reads this, particles
    {
      set k | 0 <= k < particles.Length :: particles[k]
    }

    function States(): (s: seq<Body>)
      reads this, particles, Objects()
      ensures |s| == particles.Length
      ensures forall k :: 0 <= k < particles.Length ==> s[k] == particles[k].State()
    {
      var a := particles;
      seq(a.Length, k requires 0 <= k < a.Length reads a, set m | 0 <= m < a.Length :: a[m] => a[k].State())
    }

    /** Page load: the first `resize()`, no pointer, no particles. */
    constructor (w: nat, h: nat)
      ensures Valid() && width == w && height == h && mouse == Absent
      ensures particles.Length == 0
    {
      width, height := w, h;
      mouse := Absent;
      particles := new Particle[0];
    }

    /** `resize()`: the canvas takes the window's size; the particles stay
        where they are. */
    method Resize(w: nat, h: nat)
      requires Valid()
      modifies this`width, this`height
      ensures Valid() && width == w && height == h
    {
      width, height := w, h;
    }

    /** The `mousemove` listener: the pointer becomes present and is never
        absent again. */
    method PointerMove(x: real, y: real)
      requires Valid()
      modifies this`mouse
      ensures Valid() && mouse == At(x, y)
    {
      mouse := At(x, y);
    }

    /** `initParticles()`: 150 fresh particles, the `k`-th built from the
        `k`-th set of random draws at the current canvas size. */
    method InitParticles(rolls: seq<Rolls>)
      requires |rolls| == ParticleCount
      requires forall k :: 0 <= k < |rolls| ==> ValidRolls(rolls[k])
      modifies this`particles
      ensures Valid() && fresh(particles) && particles.Length == ParticleCount
      ensures forall k :: 0 <= k < ParticleCount ==>
        fresh(particles[k]) && particles[k].State() == Spawn(rolls[k], width, height)
    {
      var made: seq<Particle> := [];
      var i := 0;
      while i < ParticleCount
        invariant 0 <= i <= ParticleCount && |made| == i
        invariant forall k :: 0 <= k < i ==>
          fresh(made[k]) && made[k].State() == Spawn(rolls[k], width, height)
        invariant forall a, b :: 0 <= a < b < i ==> made[a] != made[b]
      {
        var p := new Particle(rolls[i], width, height);
        made := made + [p];
        i := i + 1;
      }
      particles := new Particle[ParticleCount](k requires 0 <= k < ParticleCount => made[k]);
    }

    /** One frame of `animate()` (drawing left out): every particle is
        updated in place, and the lines the connection pass draws are
        returned in the order it draws them. */
    method Animate() returns (links: seq<Link>)
      requires Valid()
      modifies Objects()
      ensures Valid()
      ensures States() == AdvanceAll(old(States()), mouse, width, height)
      ensures links == Connections(old(States()), States())
    {
      ghost var before := States();
      var n := particles.Length;
      // `after` is known only through `AdvancedAt`, so that the loop does not
      // unfold `Advance` at every index it mentions.
      assert exists s :: AllAdvanced(before, s, mouse, width, height) by {
        AllAdvancedUnique(before, before, mouse, width, height);
      }
      ghost var after: seq<Body> :| AllAdvanced(before, after, mouse, width, height);
      links := [];
      var i := 0;
      while i < n
        invariant 0 <= i <= n
        invariant forall k :: 0 <= k < i ==> particles[k].State() == after[k]
        invariant forall k :: i <= k < n ==> particles[k].State() == before[k]
        invariant links == Pass(i, before, after)
        invariant Valid()
      {
        var row := Step(i, before, after);
        assert links + row == Pass(i + 1, before, after) by {
          PassStep(i, before, after);
        }
        links := links + row;
        i := i + 1;
      }
      assert States() == after;
      AllAdvancedUnique(before, after, mouse, width, height);
    }

    /** One turn of the outer loop of `animate()`: update particle `i` in
        place, then run the inner loop for row `i`. */
    method Step(i: nat, ghost before: seq<Body>, ghost after: seq<Body>) returns (row: seq<Link>)
      requires Valid()
      requires i < particles.Length == |before| == |after|
      requires AdvancedAt(before, after, i, mouse, width, height)
      requires forall k :: 0 <= k < i ==> particles[k].State() == after[k]
      requires forall k :: i <= k < particles.Length ==> particles[k].State() == before[k]
      modifies particles[i]
      ensures Valid()
      ensures forall k :: 0 <= k <= i ==> particles[k].State() == after[k]
      ensures forall k :: i < k < particles.Length ==> particles[k].State() == before[k]
      ensures row == Row(i, |after|, before, after)
    {
      particles[i].Update(mouse, width, height);
      row := ConnectRow(i, before, after);
    }

    /** The inner loop of `animate()` for row `i`, run right after particle
        `i` was updated: it tests `i` against every `j >= i` as they stand
        and returns the lines drawn, in order. */
    method ConnectRow(i: nat, ghost before: seq<Body>, ghost after: seq<Body>)
      returns (row: seq<Link>)
      requires i < particles.Length == |before| == |after|
      requires forall k :: 0 <= k <= i ==> particles[k].State() == after[k]
      requires forall k :: i < k < particles.Length ==> particles[k].State() == before[k]
      ensures row == Row(i, |after|, before, after)
    {
      var n := particles.Length;
      row := [];
      var j := i;
      while j < n
        invariant i <= j <= n
        invariant row == Row(i, j, before, after)
      {
        var a, b := Point(particles[i].x, particles[i].y), Point(particles[j].x, particles[j].y);
        assert a == after[i].Pos() && b == Seen(i, j, before, after);
        var dx := particles[i].x - particles[j].x;
        var dy := particles[i].y - particles[j].y;
        assert dx * dx + dy * dy == DistSq(a, b);
        if dx * dx + dy * dy < RadiusSq {
          row := row + [Link(i, j, a, b)];
        }
        j := j + 1;
      }
    }
  }
}
