/** The animated particle background: a fixed number of particles that drift
    by their velocity, are reset to the opposite edge when they leave the
    canvas, and are joined by fading lines when two are closer than 150.
    Drawing is modelled as the list of shapes one frame emits. */
module Particles {

  /** Number of particles `init` creates. */
  const ParticleCount: nat := 80

  /** Two particles are joined when their distance is below this. */
  const LinkDistance: real := 150.0

  /** Largest alpha a connection line can have (at distance zero). */
  const MaxLineAlpha: real := 0.15

  datatype Particle = Particle(x: real, y: real, radius: real, vx: real, vy: real, opacity: real)

  /** The six uniform draws that `init` takes for one particle, in the order
      the source takes them: x, y, radius, vx, vy, opacity. */
  datatype Draws = Draws(x: real, y: real, radius: real, vx: real, vy: real, opacity: real)

  predicate Unit(u: real) { 0.0 <= u < 1.0 }

  predicate ValidDraws(d: Draws)
  {
    Unit(d.x) && Unit(d.y) && Unit(d.radius) && Unit(d.vx) && Unit(d.vy) && Unit(d.opacity)
  }

  /** What a frame draws: a filled circle per particle, then one line per
      connected pair (i, j), i < j, with the squared distance between them. */
  datatype Shape =
    | Circle(cx: real, cy: real, radius: real, opacity: real)
    | Line(i: nat, j: nat, x1: real, y1: real, x2: real, y2: real, dist2: real)

  predicate InBounds(p: Particle, width: nat, height: nat)
  {
    0.0 <= p.x <= width as real && 0.0 <= p.y <= height as real
  }

  lemma UnitScaled(u: real, w: nat)
    ensures Unit(u) ==> 0.0 <= u * w as real <= w as real
    ensures Unit(u) && w > 0 ==> u * w as real < w as real
  {
    if Unit(u) {
      var wr := w as real;
      assert (1.0 - u) * wr >= 0.0;
      if w > 0 {
        assert (1.0 - u) * wr > 0.0;
      }
    }
  }

  /** One particle as `init` builds it from its draws. With draws in [0, 1)
      every field lies in the range the source intends; a particle sits on
      the far edge only when that dimension of the canvas is 0. */
  function Spawn(d: Draws, width: nat, height: nat): (p: Particle)
    ensures ValidDraws(d) ==> 1.0 <= p.radius < 3.0 && 0.3 <= p.opacity < 0.8
    ensures ValidDraws(d) ==> -0.25 <= p.vx < 0.25 && -0.25 <= p.vy < 0.25
    ensures ValidDraws(d) ==> InBounds(p, width, height)
    ensures ValidDraws(d) && width > 0 ==> p.x < width as real
    ensures ValidDraws(d) && height > 0 ==> p.y < height as real
  {
    UnitScaled(d.x, width);
    UnitScaled(d.y, height);
    Particle(d.x * width as real, d.y * height as real,
             d.radius * 2.0 + 1.0,
             (d.vx - 0.5) * 0.5, (d.vy - 0.5) * 0.5,
             d.opacity * 0.5 + 0.3)
  }

  /** One axis of the wrap-around rule, as the two `if`s run in sequence: below
      0 resets to the far edge, beyond the far edge resets to 0. It is a hard
      reset, not a modulo: the overshoot is dropped. */
  function Wrap(c: real, bound: nat): (r: real)
    ensures 0.0 <= r <= bound as real
    ensures c < 0.0 ==> r == bound as real
    ensures c > bound as real ==> r == 0.0
    ensures 0.0 <= c <= bound as real ==> r == c
  {
    var c1 := if c < 0.0 then bound as real else c;
    if c1 > bound as real then 0.0 else c1
  }

  /** The per-particle update of one frame. */
  function Advance(p: Particle, width: nat, height: nat): (q: Particle)
    ensures InBounds(q, width, height)
    ensures q.vx == p.vx && q.vy == p.vy && q.radius == p.radius && q.opacity == p.opacity
    ensures 0.0 <= p.x + p.vx <= width as real ==> q.x == p.x + p.vx
    ensures 0.0 <= p.y + p.vy <= height as real ==> q.y == p.y + p.vy
  {
    p.(x := Wrap(p.x + p.vx, width), y := Wrap(p.y + p.vy, height))
  }

  function CircleOf(p: Particle): Shape
  {
    Circle(p.x, p.y, p.radius, p.opacity)
  }

  function Dist2(p: Particle, q: Particle): (d2: real)
    ensures d2 >= 0.0
  {
    (p.x - q.x) * (p.x - q.x) + (p.y - q.y) * (p.y - q.y)
  }

  /** The distance test, on squares so that no square root is needed. */
  predicate Close(p: Particle, q: Particle)
  {
    Dist2(p, q) < LinkDistance * LinkDistance
  }

  /** The line drawn between particles i and j. */
  function LinkShape(ps: seq<Particle>, i: nat, j: nat): Shape
    requires i < j < |ps|
  {
    Line(i, j, ps[i].x, ps[i].y, ps[j].x, ps[j].y, Dist2(ps[i], ps[j]))
  }

  /** The pair (i, j), if it is drawn at all. */
  function Link(ps: seq<Particle>, i: nat, j: nat): seq<Shape>
    requires i < j < |ps|
  {
    if Close(ps[i], ps[j]) then [LinkShape(ps, i, j)] else []
  }

  /** Lines from particle i to particles i+1 .. j-1, in order of j. */
  function Row(ps: seq<Particle>, i: nat, j: nat): seq<Shape>
    requires i < j <= |ps|
    decreases j
  {
    if j == i + 1 then [] else Row(ps, i, j - 1) + Link(ps, i, j - 1)
  }

  /** Lines of every pair whose first particle is before i. */
  function Rows(ps: seq<Particle>, i: nat): seq<Shape>
    requires i <= |ps|
  {
    if i == 0 then [] else Rows(ps, i - 1) + Row(ps, i - 1, |ps|)
  }

  /** The connection pass of one frame. */
  function Connections(ps: seq<Particle>): seq<Shape>
  {
    Rows(ps, |ps|)
  }

  /** Strict lexicographic order on the pair indices of two lines. */
  predicate PairBefore(s: Shape, t: Shape)
  {
    s.Line? && t.Line? && (s.i < t.i || (s.i == t.i && s.j < t.j))
  }

  /** The shape is the line of a close pair i < j of the particles. */
  predicate IsCloseLine(ps: seq<Particle>, s: Shape)
  {
    s.Line? && s.i < s.j < |ps| && Close(ps[s.i], ps[s.j]) && s == LinkShape(ps, s.i, s.j)
  }

  /** Every shape of a connection pass is the line of a close pair. */
  predicate OnlyCloseLines(ps: seq<Particle>, lines: seq<Shape>)
  {
    forall k :: 0 <= k < |lines| ==> IsCloseLine(ps, lines[k])
  }

  predicate PairsIncreasing(lines: seq<Shape>)
  {
    forall k, l :: 0 <= k < l < |lines| ==> PairBefore(lines[k], lines[l])
  }

  /** Every pair of a comes before every pair of b. */
  predicate AllPairsBefore(a: seq<Shape>, b: seq<Shape>)
  {
    forall k, l :: 0 <= k < |a| && 0 <= l < |b| ==> PairBefore(a[k], b[l])
  }

  /** The shape is a line whose first index is i and second below j. */
  predicate InRowAt(s: Shape, i: nat, j: nat)
  {
    s.Line? && s.i == i && s.j < j
  }

  predicate InRow(lines: seq<Shape>, i: nat, j: nat)
  {
    forall k :: 0 <= k < |lines| ==> InRowAt(lines[k], i, j)
  }

  /** The shape is a line whose first index is below i. */
  predicate FirstBelow(s: Shape, i: nat)
  {
    s.Line? && s.i < i
  }

  predicate AllBefore(lines: seq<Shape>, i: nat)
  {
    forall k :: 0 <= k < |lines| ==> FirstBelow(lines[k], i)
  }

  /** Two increasing runs of lines stay increasing when every pair of the
      first comes before every pair of the second. */
  lemma IncreasingAppend(a: seq<Shape>, b: seq<Shape>)
    requires PairsIncreasing(a) && PairsIncreasing(b) && AllPairsBefore(a, b)
    ensures PairsIncreasing(a + b)
  {
    var c := a + b;
    forall k, l | 0 <= k < l < |c|
      ensures PairBefore(c[k], c[l])
    {
      if l < |a| {
        assert c[k] == a[k] && c[l] == a[l];
      } else if k >= |a| {
        assert c[k] == b[k - |a|] && c[l] == b[l - |a|];
      } else {
        assert c[k] == a[k] && c[l] == b[l - |a|];
      }
    }
  }

  lemma OnlyCloseAppend(ps: seq<Particle>, a: seq<Shape>, b: seq<Shape>)
    requires OnlyCloseLines(ps, a) && OnlyCloseLines(ps, b)
    ensures OnlyCloseLines(ps, a + b)
  {
    var c := a + b;
    forall k | 0 <= k < |c| ensures IsCloseLine(ps, c[k]) {
      if k < |a| { assert c[k] == a[k]; } else { assert c[k] == b[k - |a|]; }
    }
  }

  lemma InRowAppend(a: seq<Shape>, b: seq<Shape>, i: nat, j: nat)
    requires InRow(a, i, j) && InRow(b, i, j + 1) && |b| <= 1
    requires forall k :: 0 <= k < |b| ==> b[k].j == j
    ensures InRow(a + b, i, j + 1)
  {
    var c := a + b;
    forall k | 0 <= k < |c| ensures InRowAt(c[k], i, j + 1) {
      if k < |a| { assert c[k] == a[k]; } else { assert c[k] == b[k - |a|]; }
    }
  }

  lemma AllBeforeAppend(a: seq<Shape>, b: seq<Shape>, i: nat, n: nat)
    requires AllBefore(a, i) && InRow(b, i, n)
    ensures AllBefore(a + b, i + 1)
  {
    var c := a + b;
    forall k | 0 <= k < |c| ensures FirstBelow(c[k], i + 1) {
      if k < |a| { assert c[k] == a[k]; } else { assert c[k] == b[k - |a|]; }
    }
  }

  /** Every pair of earlier rows comes before every pair of row i. */
  lemma RowsBeforeRow(r: seq<Shape>, row: seq<Shape>, i: nat, n: nat)
    requires AllBefore(r, i) && InRow(row, i, n)
    ensures AllPairsBefore(r, row)
  {
    forall k, l | 0 <= k < |r| && 0 <= l < |row| ensures PairBefore(r[k], row[l]) {
      assert FirstBelow(r[k], i) && InRowAt(row[l], i, n);
    }
  }

  /** The last line of a row comes after every earlier one of that row. */
  lemma RowBeforeLink(a: seq<Shape>, b: seq<Shape>, i: nat, j: nat)
    requires InRow(a, i, j) && forall k :: 0 <= k < |b| ==> b[k].Line? && b[k].i == i && b[k].j == j
    ensures AllPairsBefore(a, b)
  {
    forall k, l | 0 <= k < |a| && 0 <= l < |b| ensures PairBefore(a[k], b[l]) {
      assert InRowAt(a[k], i, j);
    }
  }

  lemma {:induction false} RowOnlyClose(ps: seq<Particle>, i: nat, j: nat)
    requires i < j <= |ps|
    ensures OnlyCloseLines(ps, Row(ps, i, j))
    decreases j
  {
    if j > i + 1 {
      RowOnlyClose(ps, i, j - 1);
      OnlyCloseAppend(ps, Row(ps, i, j - 1), Link(ps, i, j - 1));
    }
  }

  lemma {:induction false} RowInRow(ps: seq<Particle>, i: nat, j: nat)
    requires i < j <= |ps|
    ensures InRow(Row(ps, i, j), i, j)
    decreases j
  {
    if j > i + 1 {
      RowInRow(ps, i, j - 1);
      InRowAppend(Row(ps, i, j - 1), Link(ps, i, j - 1), i, j - 1);
    }
  }

  lemma {:induction false} RowContains(ps: seq<Particle>, i: nat, j: nat, b: nat)
    requires i < b < j <= |ps| && Close(ps[i], ps[b])
    ensures LinkShape(ps, i, b) in Row(ps, i, j)
    decreases j
  {
    var r, link := Row(ps, i, j - 1), Link(ps, i, j - 1);
    assert Row(ps, i, j) == r + link;
    if b < j - 1 {
      RowContains(ps, i, j - 1, b);
    } else {
      assert link == [LinkShape(ps, i, b)];
    }
  }

  lemma {:induction false} RowIncreasing(ps: seq<Particle>, i: nat, j: nat)
    requires i < j <= |ps|
    ensures PairsIncreasing(Row(ps, i, j))
    decreases j
  {
    if j > i + 1 {
      var r, link := Row(ps, i, j - 1), Link(ps, i, j - 1);
      RowIncreasing(ps, i, j - 1);
      RowInRow(ps, i, j - 1);
      RowBeforeLink(r, link, i, j - 1);
      IncreasingAppend(r, link);
    }
  }

  lemma {:induction false} RowsOnlyClose(ps: seq<Particle>, i: nat)
    requires i <= |ps|
    ensures OnlyCloseLines(ps, Rows(ps, i))
  {
    if i > 0 {
      var r, row := Rows(ps, i - 1), Row(ps, i - 1, |ps|);
      RowsOnlyClose(ps, i - 1);
      RowOnlyClose(ps, i - 1, |ps|);
      OnlyCloseAppend(ps, r, row);
    }
  }

  lemma {:induction false} RowsAllBefore(ps: seq<Particle>, i: nat)
    requires i <= |ps|
    ensures AllBefore(Rows(ps, i), i)
  {
    if i > 0 {
      var r, row := Rows(ps, i - 1), Row(ps, i - 1, |ps|);
      RowsAllBefore(ps, i - 1);
      RowInRow(ps, i - 1, |ps|);
      AllBeforeAppend(r, row, i - 1, |ps|);
    }
  }

  lemma {:induction false} RowsContains(ps: seq<Particle>, i: nat, a: nat, b: nat)
    requires a < i <= |ps| && a < b < |ps| && Close(ps[a], ps[b])
    ensures LinkShape(ps, a, b) in Rows(ps, i)
  {
    var r, row := Rows(ps, i - 1), Row(ps, i - 1, |ps|);
    assert Rows(ps, i) == r + row;
    if a < i - 1 {
      RowsContains(ps, i - 1, a, b);
    } else {
      RowContains(ps, a, |ps|, b);
    }
  }

  lemma {:induction false} RowsIncreasing(ps: seq<Particle>, i: nat)
    requires i <= |ps|
    ensures PairsIncreasing(Rows(ps, i))
  {
    if i > 0 {
      var r, row := Rows(ps, i - 1), Row(ps, i - 1, |ps|);
      assert Rows(ps, i) == r + row;
      assert AllPairsBefore(r, row) by {
        RowsAllBefore(ps, i - 1);
        RowInRow(ps, i - 1, |ps|);
        RowsBeforeRow(r, row, i - 1, |ps|);
      }
      RowsIncreasing(ps, i - 1);
      RowIncreasing(ps, i - 1, |ps|);
      IncreasingAppend(r, row);
    }
  }

  /** The connection pass draws exactly the close pairs (i, j) with i < j,
      each once, in the order of the nested loops. */
  lemma ConnectionsExact(ps: seq<Particle>)
    ensures OnlyCloseLines(ps, Connections(ps))
    ensures forall a, b :: 0 <= a < b < |ps| && Close(ps[a], ps[b]) ==>
      LinkShape(ps, a, b) in Connections(ps)
    ensures PairsIncreasing(Connections(ps))
  {
    RowsOnlyClose(ps, |ps|);
    forall a, b | 0 <= a < b < |ps| && Close(ps[a], ps[b])
      ensures LinkShape(ps, a, b) in Connections(ps)
    {
      RowsContains(ps, |ps|, a, b);
    }
    RowsIncreasing(ps, |ps|);
  }

  /** Squared distances decide the same as the true distance d. */
  lemma CloseIffBelowLinkDistance(p: Particle, q: Particle, d: real)
    requires 0.0 <= d && d * d == Dist2(p, q)
    ensures Close(p, q) <==> d < LinkDistance
  {
    var l := LinkDistance;
    if d < l {
      MulMonotone(d, l, d);
      MulStrictMonotone(d, l, l);
      assert d * l == l * d;
      assert d * d < l * l;
    } else {
      MulMonotone(l, d, d);
      MulMonotone(l, d, l);
      assert d * l == l * d;
      assert d * d >= l * l;
    }
  }

  lemma MulMonotone(a: real, b: real, c: real)
    requires 0.0 <= a <= b && 0.0 <= c
    ensures a * c <= b * c
  {
  }

  lemma MulStrictMonotone(a: real, b: real, c: real)
    requires 0.0 <= a < b && 0.0 < c
    ensures a * c < b * c
  {
  }

  /** The alpha of a connection line at distance d: linear fade to 0 at 150. */
  function Alpha(d: real): (a: real)
    requires 0.0 <= d < LinkDistance
    ensures 0.0 < a <= MaxLineAlpha
    ensures d == 0.0 ==> a == MaxLineAlpha
  {
    MaxLineAlpha * (1.0 - d / LinkDistance)
  }

  /** Every line drawn has an alpha in (0, 0.15], computed from its true
      distance d. */
  lemma LineAlphaInRange(ps: seq<Particle>, k: nat, d: real)
    requires k < |Connections(ps)|
    requires Connections(ps)[k].Line? && 0.0 <= d && d * d == Connections(ps)[k].dist2
    ensures d < LinkDistance && 0.0 < Alpha(d) <= MaxLineAlpha
  {
    ConnectionsExact(ps);
    var s := Connections(ps)[k];
    assert IsCloseLine(ps, s);
    CloseIffBelowLinkDistance(ps[s.i], ps[s.j], d);
  }

  /** Worked example: particles at (0, 0) and (140, 0) are joined with alpha
      0.01; at (150, 0) they are not joined. */
  lemma ConnectionExample()
    ensures var p := Particle(0.0, 0.0, 1.0, 0.0, 0.0, 0.5);
            var q := Particle(140.0, 0.0, 1.0, 0.0, 0.0, 0.5);
            Close(p, q) && Alpha(140.0) == 0.01
    ensures !Close(Particle(0.0, 0.0, 1.0, 0.0, 0.0, 0.5), Particle(150.0, 0.0, 1.0, 0.0, 0.0, 0.5))
  {
  }

  /** A particle leaving through the left edge lands exactly on the right
      edge, not inside the canvas. */
  lemma WrapLandsOnFarEdge(width: nat, height: nat)
    ensures var q := Advance(Particle(0.0, 0.0, 1.0, -0.1, 0.0, 0.5), width, height);
            q.x == width as real
  {
  }

  class ParticleSystem {
    var particles: seq<Particle>
    var width: nat
    var height: nat

    /** The constructor sizes the canvas to the window and fills it with
        freshly drawn particles. */
    constructor (windowWidth: nat, windowHeight: nat, draws: seq<Draws>)
      requires |draws| == ParticleCount
      ensures width == windowWidth && height == windowHeight
      ensures |particles| == ParticleCount
      ensures forall k :: 0 <= k < ParticleCount ==> particles[k] == Spawn(draws[k], width, height)
    {
      particles := [];
      width, height := 0, 0;
      new;
      Resize(windowWidth, windowHeight);
      Init(draws);
    }

    /** The canvas takes the window's size; the particles are kept as they are. */
    method Resize(windowWidth: nat, windowHeight: nat)
      modifies this
      ensures width == windowWidth && height == windowHeight
      ensures particles == old(particles)
    {
      width := windowWidth;
      height := windowHeight;
    }

    /** Replaces the whole particle list by ParticleCount fresh particles. */
    method Init(draws: seq<Draws>)
      requires |draws| == ParticleCount
      modifies this`particles
      ensures width == old(width) && height == old(height)
      ensures |particles| == ParticleCount
      ensures forall k :: 0 <= k < ParticleCount ==> particles[k] == Spawn(draws[k], width, height)
      ensures (forall k :: 0 <= k < ParticleCount ==> ValidDraws(draws[k])) ==>
        forall k :: 0 <= k < ParticleCount ==> InBounds(particles[k], width, height)
    {
      particles := [];
      var i := 0;
      while i < ParticleCount
        invariant 0 <= i <= ParticleCount
        invariant |particles| == i
        invariant forall k :: 0 <= k < i ==> particles[k] == Spawn(draws[k], width, height)
      {
        particles := particles + [Spawn(draws[i], width, height)];
        i := i + 1;
      }
    }

    /** One frame: move and wrap every particle in place while drawing it,
        then draw the connection of every close pair. */
    method Animate() returns (frame: seq<Shape>)
      modifies this`particles
      ensures width == old(width) && height == old(height)
      ensures |particles| == |old(particles)|
      ensures forall k :: 0 <= k < |particles| ==> particles[k] == Advance(old(particles)[k], width, height)
      ensures forall k :: 0 <= k < |particles| ==> InBounds(particles[k], width, height)
      ensures |frame| >= |particles|
      ensures forall k :: 0 <= k < |particles| ==> frame[k] == CircleOf(particles[k])
      ensures frame[|particles|..] == Connections(particles)
    {
      var circles := UpdateParticles();
      var lines := DrawConnections();
      frame := circles + lines;
    }

    /** The first pass of a frame: each particle moves by its velocity, is
        wrapped, and is drawn as a circle at its new place. */
    method UpdateParticles() returns (circles: seq<Shape>)
      modifies this`particles
      ensures |particles| == |old(particles)|
      ensures forall k :: 0 <= k < |particles| ==> particles[k] == Advance(old(particles)[k], width, height)
      ensures |circles| == |particles|
      ensures forall k :: 0 <= k < |particles| ==> circles[k] == CircleOf(particles[k])
    {
      ghost var before := particles;
      var n := |particles|;
      circles := [];
      var i := 0;
      while i < n
        invariant 0 <= i <= n && |particles| == n
        invariant forall k :: 0 <= k < i ==> particles[k] == Advance(before[k], width, height)
        invariant forall k :: i <= k < n ==> particles[k] == before[k]
        invariant |circles| == i
        invariant forall k :: 0 <= k < i ==> circles[k] == CircleOf(particles[k])
      {
        var p := particles[i];
        var x := p.x + p.vx;
        var y := p.y + p.vy;
        if x < 0.0 { x := width as real; }
        if x > width as real { x := 0.0; }
        if y < 0.0 { y := height as real; }
        if y > height as real { y := 0.0; }
        p := p.(x := x, y := y);
        particles := particles[i := p];
        circles := circles + [CircleOf(p)];
        i := i + 1;
      }
    }

    /** The second pass of a frame: the outer loop over the first particle
        of each pair. */
    method DrawConnections() returns (lines: seq<Shape>)
      ensures lines == Connections(particles)
    {
      var n := |particles|;
      lines := [];
      var i := 0;
      while i < n
        invariant 0 <= i <= n
        invariant lines == Rows(particles, i)
      {
        var row := DrawRow(i);
        lines := lines + row;
        i := i + 1;
      }
    }

    /** The inner loop of the second pass: particle i against every later
        particle j, with a line when they are closer than 150. */
    method DrawRow(i: nat) returns (row: seq<Shape>)
      requires i < |particles|
      ensures row == Row(particles, i, |particles|)
    {
      var ps := particles;
      var n := |ps|;
      row := [];
      var j := i + 1;
      while j < n
        invariant i + 1 <= j <= n
        invariant row == Row(ps, i, j)
      {
        var p1, p2 := ps[i], ps[j];
        var dx := p1.x - p2.x;
        var dy := p1.y - p2.y;
        var d2 := dx * dx + dy * dy;
        assert d2 == Dist2(p1, p2);
        if d2 < LinkDistance * LinkDistance {
          row := row + [Line(i, j, p1.x, p1.y, p2.x, p2.y, d2)];
        }
        j := j + 1;
      }
    }
  }
}
