/**
 * The canvas "AI entity": eight nodes on a circle, random connections
 * between them, particle bursts, pointer easing, a spring/damper step per
 * frame, pulses, the morph animation and the hover state machine.
 *
 * Trigonometry and square roots are not computed here: the cosines and
 * sines the source asks `Math` for are parameters, and every distance test
 * `Math.sqrt(d2) < R` is stated as `R > 0 && d2 < R * R`, which is the same
 * test over the reals. Doubles are modelled as reals.
 */
module Entity {
  import opened Random
  import opened Helpers

  datatype Vec = Vec(x: real, y: real)

  datatype Node = Node(x: real, y: real, baseX: real, baseY: real,
                       vx: real, vy: real, radius: real, pulsePhase: real)

  datatype Connection = Connection(from: nat, to: nat, strength: real)

  datatype Particle = Particle(x: real, y: real, vx: real, vy: real,
                               life: real, maxLife: real, size: real)

  /** The value of `hoveredElement`: null, `'core'`, `node-i` or `connection-i`. */
  datatype Hover = NoHover | Core | NodeHover(index: nat) | ConnectionHover(index: nat)

  /** One call of `showTooltip` or `hideTooltip`; the on-screen position is not modelled. */
  datatype Tooltip = Show(text: string) | ShowPathway(strength: real) | Hide

  /** The trigonometric terms one frame of `updateNodes` needs for one node. */
  datatype Forces = Forces(repel: Vec, breathe: Vec)

  const NodeCount: nat := 8
  const BurstSize: nat := 20
  /** `Math.PI * 2` as a double. */
  const Tau: real := 6.283185307179586
  const InfluenceRadius: real := 150.0
  const Easing: real := 0.05
  const LineThreshold: real := 15.0

  function Sq(v: real): real { v * v }

  // ---------------------------------------------------------------------
  // initializeNodes: the ring and the connections
  // ---------------------------------------------------------------------

  /** The node `initializeNodes` pushes for direction `dir` (its angle's cosine and sine). */
  function RingNode(cx: real, cy: real, radius: real, dir: Vec, phase: Draw): Node {
    Node(cx + dir.x * radius, cy + dir.y * radius, cx + dir.x * radius, cy + dir.y * radius,
         0.0, 0.0, 4.0, phase * Tau)
  }

  /** The first `n` ring nodes, drawing one phase each from `k` on. */
  function Ring(cx: real, cy: real, radius: real, dirs: seq<Vec>, draw: nat -> Draw, k: nat, n: nat): (r: seq<Node>)
    requires n <= |dirs|
    ensures |r| == n
    decreases n, k
  {
    if n == 0 then [] else Ring(cx, cy, radius, dirs, draw, k, n - 1) + [RingNode(cx, cy, radius, dirs[n - 1], draw(k + n - 1))]
  }

  /** A node at rest on its anchor: the state `initializeNodes` gives every node. */
  predicate AtRest(n: Node) {
    n.x == n.baseX && n.y == n.baseY && n.vx == 0.0 && n.vy == 0.0 && n.radius == 4.0
    && 0.0 <= n.pulsePhase < Tau
  }

  lemma {:induction false} RingShape(cx: real, cy: real, radius: real, dirs: seq<Vec>, draw: nat -> Draw, k: nat, n: nat)
    requires n <= |dirs|
    ensures |Ring(cx, cy, radius, dirs, draw, k, n)| == n
    ensures forall i :: 0 <= i < n ==> AtRest(Ring(cx, cy, radius, dirs, draw, k, n)[i])
    ensures forall i :: 0 <= i < n ==>
              Ring(cx, cy, radius, dirs, draw, k, n)[i].baseX == cx + dirs[i].x * radius &&
              Ring(cx, cy, radius, dirs, draw, k, n)[i].baseY == cy + dirs[i].y * radius
  {
    if n > 0 {
      RingShape(cx, cy, radius, dirs, draw, k, n - 1);
      PhaseInRange(draw(k + n - 1));
    }
  }

  lemma PhaseInRange(d: Draw)
    ensures 0.0 <= d * Tau < Tau
  {
    assert d * Tau <= Tau * d;
    assert Tau * (1.0 - d) > 0.0;
  }

  /**
   * The connections the nested loops of `initializeNodes` push, visiting the
   * pairs `(i, j)` with `i < j < 8` in order from `(i, j)` on: one draw decides
   * the pair (kept when above 0.3), a second one gives a kept pair its strength.
   */
  function Links(draw: nat -> Draw, k: nat, i: nat, j: nat): Drawn<seq<Connection>>
    decreases NodeCount - i, NodeCount + 1 - j, k
  {
    if i >= NodeCount then Drawn([], k)
    else if j >= NodeCount then Links(draw, k, i + 1, i + 2)
    else if draw(k) > 0.3 then
      var rest := Links(draw, k + 2, i, j + 1);
      Drawn([Connection(i, j, draw(k + 1) * 0.5 + 0.5)] + rest.value, rest.next)
    else Links(draw, k + 1, i, j + 1)
  }

  /** The row `initializeNodes` starts from. */
  const FirstNode: nat := 0

  /** Every connection `initializeNodes` draws, starting at draw `k`. */
  function Graph(draw: nat -> Draw, k: nat): Drawn<seq<Connection>> {
    Links(draw, k, FirstNode, FirstNode + 1)
  }

  /** A kept pair: the connection, then the rest of the row. */
  lemma LinksKeep(draw: nat -> Draw, k: nat, i: nat, j: nat)
    requires i < j < NodeCount && draw(k) > 0.3
    ensures Links(draw, k, i, j).value == [Connection(i, j, draw(k + 1) * 0.5 + 0.5)] + Links(draw, k + 2, i, j + 1).value
    ensures Links(draw, k, i, j).next == Links(draw, k + 2, i, j + 1).next
  {
  }

  /** A skipped pair uses one draw. */
  lemma LinksSkip(draw: nat -> Draw, k: nat, i: nat, j: nat)
    requires i < j < NodeCount && draw(k) <= 0.3
    ensures Links(draw, k, i, j) == Links(draw, k + 1, i, j + 1)
  {
  }

  /** The end of a row moves to the next one. */
  lemma LinksRowEnd(draw: nat -> Draw, k: nat, i: nat)
    requires i < NodeCount
    ensures Links(draw, k, i, NodeCount) == Links(draw, k, i + 1, i + 2)
  {
  }

  /** Connection endpoints name nodes that exist. */
  predicate LinksWithin(conns: seq<Connection>, n: nat) {
    forall c :: c in conns ==> c.from < n && c.to < n
  }

  lemma LinksWithinJoin(a: seq<Connection>, b: seq<Connection>, m: nat, n: nat, total: nat)
    requires LinksWithin(a, m) && LinksWithin(b, n) && m <= total && n <= total
    ensures LinksWithin(a + b, total)
  {
    forall c | c in a + b ensures c.from < total && c.to < total {
      assert c in a || c in b;
    }
  }

  /** `(c.from, c.to)` comes strictly before `(d.from, d.to)` in lexicographic order. */
  predicate PairBefore(c: Connection, d: Connection) {
    c.from < d.from || (c.from == d.from && c.to < d.to)
  }

  predicate StrictlySorted(conns: seq<Connection>) {
    forall a, b :: 0 <= a < b < |conns| ==> PairBefore(conns[a], conns[b])
  }

  /** Every connection joins `from < to < 8`, from `(i, j)` on, with strength in [0.5, 1). */
  lemma {:induction false} LinksShape(draw: nat -> Draw, k: nat, i: nat, j: nat)
    requires i < j
    ensures forall c :: c in Links(draw, k, i, j).value ==>
              c.from < c.to < NodeCount && (i < c.from || (i == c.from && j <= c.to))
              && 0.5 <= c.strength < 1.0
    ensures StrictlySorted(Links(draw, k, i, j).value)
    decreases NodeCount - i, NodeCount + 1 - j
  {
    if i >= NodeCount {
    } else if j >= NodeCount {
      LinksShape(draw, k, i + 1, i + 2);
    } else if draw(k) > 0.3 {
      LinksShape(draw, k + 2, i, j + 1);
      var head := Connection(i, j, draw(k + 1) * 0.5 + 0.5);
      var rest := Links(draw, k + 2, i, j + 1).value;
      assert Links(draw, k, i, j).value == [head] + rest;
      forall b | 0 <= b < |rest| ensures PairBefore(head, rest[b]) {
        assert rest[b] in rest;
      }
    } else {
      LinksShape(draw, k + 1, i, j + 1);
    }
  }

  /** Every endpoint of the generated graph names one of the eight nodes. */
  lemma LinksInRange(draw: nat -> Draw, k: nat)
    ensures LinksWithin(Graph(draw, k).value, NodeCount)
  {
    LinksShape(draw, k, FirstNode, FirstNode + 1);
  }

  /** How many pairs the loops still visit from `(i, j)`. */
  function PairsLeft(i: nat, j: nat): nat
    decreases NodeCount - i, NodeCount + 1 - j
  {
    if i >= NodeCount then 0
    else if j >= NodeCount then PairsLeft(i + 1, i + 2)
    else 1 + PairsLeft(i, j + 1)
  }

  lemma {:induction false} LinksCount(draw: nat -> Draw, k: nat, i: nat, j: nat)
    ensures |Links(draw, k, i, j).value| <= PairsLeft(i, j)
    decreases NodeCount - i, NodeCount + 1 - j
  {
    if i >= NodeCount {
    } else if j >= NodeCount {
      LinksCount(draw, k, i + 1, i + 2);
    } else if draw(k) > 0.3 {
      LinksCount(draw, k + 2, i, j + 1);
    } else {
      LinksCount(draw, k + 1, i, j + 1);
    }
  }

  /** The whole graph: at most one connection per unordered pair, hence at most 28. */
  lemma AllLinks(draw: nat -> Draw, k: nat)
    ensures |Graph(draw, k).value| <= 28
    ensures StrictlySorted(Graph(draw, k).value)
    ensures LinksWithin(Graph(draw, k).value, NodeCount)
    ensures forall c :: c in Graph(draw, k).value ==> c.from < c.to
    ensures forall a, b :: 0 <= a < b < |Graph(draw, k).value| ==>
              (Graph(draw, k).value[a].from, Graph(draw, k).value[a].to)
              != (Graph(draw, k).value[b].from, Graph(draw, k).value[b].to)
  {
    LinksCount(draw, k, FirstNode, FirstNode + 1);
    LinksShape(draw, k, FirstNode, FirstNode + 1);
    assert PairsLeft(0, 1) == 28;
  }

  // ---------------------------------------------------------------------
  // Particles
  // ---------------------------------------------------------------------

  /** One particle of `generateParticles`: draws for vx, vy and size, in that order. */
  function Spawn(cx: real, cy: real, a: Draw, b: Draw, c: Draw): Particle {
    Particle(cx, cy, (a - 0.5) * 2.0, (b - 0.5) * 2.0, 1.0, 1.0, c * 3.0 + 1.0)
  }

  /** The first `n` particles of a burst at `(cx, cy)` drawing from `k` on. */
  function Burst(cx: real, cy: real, draw: nat -> Draw, k: nat, n: nat): seq<Particle>
    decreases n, k
  {
    if n == 0 then []
    else Burst(cx, cy, draw, k, n - 1)
         + [Spawn(cx, cy, draw(k + 3 * (n - 1)), draw(k + 3 * (n - 1) + 1), draw(k + 3 * (n - 1) + 2))]
  }

  /** A freshly spawned particle: at the centre, full life, bounded speed and size. */
  predicate Fresh(p: Particle, cx: real, cy: real) {
    p.x == cx && p.y == cy && p.life == 1.0 && p.maxLife == 1.0
    && -1.0 <= p.vx < 1.0 && -1.0 <= p.vy < 1.0 && 1.0 <= p.size < 4.0
  }

  lemma {:induction false} BurstShape(cx: real, cy: real, draw: nat -> Draw, k: nat, n: nat)
    ensures |Burst(cx, cy, draw, k, n)| == n
    ensures forall i :: 0 <= i < n ==> Fresh(Burst(cx, cy, draw, k, n)[i], cx, cy)
  {
    if n > 0 {
      BurstShape(cx, cy, draw, k, n - 1);
    }
  }

  /** One particle's move in `updateParticles`: position, then life, then drag. */
  function Advance(p: Particle): Particle {
    p.(x := p.x + p.vx, y := p.y + p.vy, life := p.life - 0.01, vx := p.vx * 0.99, vy := p.vy * 0.99)
  }

  /** `particles.filter(...)`: each particle moves, and stays while its life is positive. */
  function Survivors(ps: seq<Particle>): seq<Particle> {
    if ps == [] then []
    else
      var q := Advance(ps[|ps| - 1]);
      Survivors(ps[..|ps| - 1]) + (if q.life > 0.0 then [q] else [])
  }

  /** The indices of the particles that survive, in increasing order. */
  function AliveIndices(ps: seq<Particle>): seq<nat> {
    if ps == [] then []
    else AliveIndices(ps[..|ps| - 1]) + (if Advance(ps[|ps| - 1]).life > 0.0 then [|ps| - 1] else [])
  }

  /** The surviving indices are increasing, in range, and exactly those whose moved life is positive. */
  lemma {:induction false} AliveIndicesSpec(ps: seq<Particle>)
    ensures |AliveIndices(ps)| <= |ps|
    ensures forall a, b :: 0 <= a < b < |AliveIndices(ps)| ==> AliveIndices(ps)[a] < AliveIndices(ps)[b]
    ensures forall i :: i in AliveIndices(ps) <==> 0 <= i < |ps| && Advance(ps[i]).life > 0.0
  {
    if ps != [] {
      var init := ps[..|ps| - 1];
      AliveIndicesSpec(init);
      assert forall i :: 0 <= i < |init| ==> init[i] == ps[i];
      assert forall a :: 0 <= a < |AliveIndices(init)| ==> AliveIndices(init)[a] in AliveIndices(init);
    }
  }

  /**
   * `updateParticles` keeps, in their original order, exactly the moved
   * particles whose life is still positive, and never adds one.
   */
  lemma {:induction false} SurvivorsSpec(ps: seq<Particle>)
    ensures |Survivors(ps)| == |AliveIndices(ps)| <= |ps|
    ensures forall a :: 0 <= a < |AliveIndices(ps)| ==>
              AliveIndices(ps)[a] < |ps| && Survivors(ps)[a] == Advance(ps[AliveIndices(ps)[a]])
  {
    AliveIndicesSpec(ps);
    if ps != [] {
      var init := ps[..|ps| - 1];
      SurvivorsSpec(init);
      assert forall i :: 0 <= i < |init| ==> init[i] == ps[i];
    }
  }

  // ---------------------------------------------------------------------
  // updateNodes: pointer easing and the spring/damper step
  // ---------------------------------------------------------------------

  /** One easing step of the pointer: the gap to the target shrinks by exactly 5%. */
  function Ease(current: real, target: real): (r: real)
    ensures target - r == (target - current) * 0.95
    ensures current <= target ==> current <= r <= target
    ensures target <= current ==> target <= r <= current
  {
    current + (target - current) * Easing
  }

  /** The pointer lies within `influenceRadius` of the node's anchor. */
  predicate Influenced(n: Node, mx: real, my: real) {
    Sq(mx - n.baseX) + Sq(my - n.baseY) < Sq(InfluenceRadius)
  }

  /**
   * One node in `updateNodes`: repulsion (only within the influence radius),
   * spring towards the anchor, damping by 0.9, integration, then the
   * undamped breathing offset.
   */
  function NodeStep(n: Node, mx: real, my: real, f: Forces): (r: Node)
    ensures r == n.(x := r.x, y := r.y, vx := r.vx, vy := r.vy)
  {
    var vx := (n.vx + (if Influenced(n, mx, my) then f.repel.x else 0.0) + (n.baseX - n.x) * 0.05) * 0.9;
    var vy := (n.vy + (if Influenced(n, mx, my) then f.repel.y else 0.0) + (n.baseY - n.y) * 0.05) * 0.9;
    n.(vx := vx, vy := vy, x := n.x + vx + f.breathe.x, y := n.y + vy + f.breathe.y)
  }

  /** Every node takes one step with its own forces. */
  function StepAll(ns: seq<Node>, mx: real, my: real, fs: seq<Forces>): (r: seq<Node>)
    requires |fs| == |ns|
  {
    seq(|ns|, i requires 0 <= i < |ns| => NodeStep(ns[i], mx, my, fs[i]))
  }

  /**
   * The damping guarantees rest is stable: a node at rest on its anchor,
   * with the pointer outside its influence and no breathing, stays exactly put.
   */
  lemma RestIsFixed(n: Node, mx: real, my: real, repel: Vec)
    requires n.x == n.baseX && n.y == n.baseY && n.vx == 0.0 && n.vy == 0.0
    requires !Influenced(n, mx, my)
    ensures NodeStep(n, mx, my, Forces(repel, Vec(0.0, 0.0))) == n
  {
  }

  /**
   * Away from the pointer and without breathing the step is the linear
   * spring/damper map: new velocity `0.9 v - 0.045 e` for displacement `e`.
   */
  lemma SpringDamper(n: Node, mx: real, my: real, repel: Vec)
    requires !Influenced(n, mx, my)
    ensures var r := NodeStep(n, mx, my, Forces(repel, Vec(0.0, 0.0)));
            r.vx == 0.9 * n.vx - 0.045 * (n.x - n.baseX) && r.x - r.baseX == (n.x - n.baseX) + r.vx
            && r.vy == 0.9 * n.vy - 0.045 * (n.y - n.baseY) && r.y - r.baseY == (n.y - n.baseY) + r.vy
  {
  }

  // ---------------------------------------------------------------------
  // triggerPulse and morph
  // ---------------------------------------------------------------------

  /** The velocity kick `triggerPulse` gives one node from two draws. */
  function Kick(n: Node, a: Draw, b: Draw): (r: Node)
    ensures r == n.(vx := r.vx, vy := r.vy)
    ensures -5.0 <= r.vx - n.vx < 5.0 && -5.0 <= r.vy - n.vy < 5.0
  {
    n.(vx := n.vx + (a - 0.5) * 10.0, vy := n.vy + (b - 0.5) * 10.0)
  }

  /** Every node kicked, two draws per node from `k` on. */
  function Kicked(ns: seq<Node>, draw: nat -> Draw, k: nat): (r: seq<Node>)
    ensures |r| == |ns|
    ensures forall i :: 0 <= i < |ns| ==> r[i] == Kick(ns[i], draw(k + 2 * i), draw(k + 2 * i + 1))
  {
    seq(|ns|, i requires 0 <= i < |ns| => Kick(ns[i], draw(k + 2 * i), draw(k + 2 * i + 1)))
  }

  /** The morph circle's radius, swollen by `swell`, the sine of the progress times pi. */
  function MorphRadius(cx: real, cy: real, swell: real): real {
    Min(cx, cy) * 0.6 * (1.0 + swell * 0.3)
  }

  /** A node re-anchored in direction `d` on the circle of `radius` about `(cx, cy)`; nothing else moves. */
  function Anchor(n: Node, cx: real, cy: real, radius: real, d: Vec): (r: Node)
    ensures r.baseX == cx + d.x * radius && r.baseY == cy + d.y * radius
    ensures r.(baseX := n.baseX, baseY := n.baseY) == n
  {
    n.(baseX := cx + d.x * radius, baseY := cy + d.y * radius)
  }

  /** One morph frame moves every anchor to its new place on the swelling circle, nothing else. */
  function Reanchor(ns: seq<Node>, cx: real, cy: real, radius: real, dirs: seq<Vec>): (r: seq<Node>)
    requires |dirs| == |ns|
    ensures |r| == |ns|
    ensures forall i :: 0 <= i < |ns| ==> r[i] == Anchor(ns[i], cx, cy, radius, dirs[i])
  {
    seq(|ns|, i requires 0 <= i < |ns| => Anchor(ns[i], cx, cy, radius, dirs[i]))
  }


  // ---------------------------------------------------------------------
  // Hit tests and the hover state machine
  // ---------------------------------------------------------------------

  /** The squared length of the segment. */
  function Len2(x1: real, y1: real, x2: real, y2: real): real {
    Sq(x2 - x1) + Sq(y2 - y1)
  }

  /** The dot product of `(px, py) - (x1, y1)` with the segment's direction. */
  function Dot(px: real, py: real, x1: real, y1: real, x2: real, y2: real): real {
    (px - x1) * (x2 - x1) + (py - y1) * (y2 - y1)
  }

  /** `Math.max(0, Math.min(1, n / l))`: the projection parameter clamped to the segment. */
  function ClampUnit(n: real, l: real): (t: real)
    requires l != 0.0
    ensures 0.0 <= t <= 1.0
    ensures 0.0 <= n / l <= 1.0 ==> t == n / l
  {
    Max(0.0, Min(1.0, n / l))
  }

  /** The squared distance from `(px, py)` to the point at parameter `s` on the segment. */
  function DistAlong2(px: real, py: real, x1: real, y1: real, x2: real, y2: real, s: real): real {
    Sq(px - (x1 + s * (x2 - x1))) + Sq(py - (y1 + s * (y2 - y1)))
  }

  /** `isPointNearLine`: false for a zero-length segment, else whether the clamped projection is near. */
  function IsPointNearLine(px: real, py: real, x1: real, y1: real, x2: real, y2: real, threshold: real): (near: bool)
    ensures Len2(x1, y1, x2, y2) == 0.0 ==> !near
  {
    if Len2(x1, y1, x2, y2) == 0.0 then false
    else
      var t := ClampUnit(Dot(px, py, x1, y1, x2, y2), Len2(x1, y1, x2, y2));
      threshold > 0.0 && DistAlong2(px, py, x1, y1, x2, y2, t) < Sq(threshold)
  }

  /** A point equal to either endpoint of a real segment is near for any positive threshold. */
  lemma EndpointsAreNear(x1: real, y1: real, x2: real, y2: real, threshold: real)
    requires Len2(x1, y1, x2, y2) != 0.0 && threshold > 0.0
    ensures IsPointNearLine(x1, y1, x1, y1, x2, y2, threshold)
    ensures IsPointNearLine(x2, y2, x1, y1, x2, y2, threshold)
  {
    var l := Len2(x1, y1, x2, y2);
    PositiveSquare(threshold);
    assert Dot(x1, y1, x1, y1, x2, y2) == 0.0;
    assert DistAlong2(x1, y1, x1, y1, x2, y2, 0.0) == 0.0;
    assert Dot(x2, y2, x1, y1, x2, y2) == l;
    assert l / l == 1.0;
    assert DistAlong2(x2, y2, x1, y1, x2, y2, 1.0) == 0.0;
  }

  /** One coordinate of the squared distance, expanded in the parameter. */
  lemma SqExpand(u: real, d: real, s: real)
    ensures Sq(u - s * d) == Sq(u) - 2.0 * s * (u * d) + s * s * Sq(d)
  {
  }

  /** The squared distance to the point at parameter `s` is a quadratic in `s`. */
  lemma DistAlongQuadratic(px: real, py: real, x1: real, y1: real, x2: real, y2: real, s: real)
    ensures DistAlong2(px, py, x1, y1, x2, y2, s)
            == Sq(px - x1) + Sq(py - y1) - 2.0 * s * Dot(px, py, x1, y1, x2, y2) + s * s * Len2(x1, y1, x2, y2)
  {
    assert px - (x1 + s * (x2 - x1)) == (px - x1) - s * (x2 - x1);
    assert py - (y1 + s * (y2 - y1)) == (py - y1) - s * (y2 - y1);
    SqExpand(px - x1, x2 - x1, s);
    SqExpand(py - y1, y2 - y1, s);
  }

  /** `t^2 L - 2 t N <= s^2 L - 2 s N`: the parameter `t` is at least as close as `s`. */
  predicate QuadraticLeq(n: real, l: real, t: real, s: real) {
    t * t * l - 2.0 * t * n <= s * s * l - 2.0 * s * n
  }

  /** Over [0, 1] the quadratic `s^2 L - 2 s N` is least at the clamped `N / L`. */
  lemma QuadraticMinimum(n: real, l: real, s: real)
    requires l > 0.0 && 0.0 <= s <= 1.0
    ensures QuadraticLeq(n, l, ClampUnit(n, l), s)
  {
    var t := ClampUnit(n, l);
    assert s * s * l - 2.0 * s * n - (t * t * l - 2.0 * t * n) == (s - t) * ((s - t) * l - 2.0 * (n - t * l));
    ClampedMinimum(n, l, s);
  }

  /** The clamped minimiser of the parabola `(s - t) ((s - t) L - 2 (N - t L))` over [0, 1]. */
  lemma ClampedMinimum(n: real, l: real, s: real)
    requires l > 0.0 && 0.0 <= s <= 1.0
    ensures var t := ClampUnit(n, l); (s - t) * ((s - t) * l - 2.0 * (n - t * l)) >= 0.0
  {
    var t := ClampUnit(n, l);
    var q := n / l;
    assert n == q * l;
    if q <= 0.0 {
      assert t == 0.0;
      assert n <= 0.0 by { NonPositiveScale(q, l); }
      assert s * l >= 0.0 by { NonNegativeProduct(s, l); }
      NonNegativeProduct(s, s * l - 2.0 * n);
    } else if q >= 1.0 {
      assert t == 1.0;
      assert n >= l by { AtLeastScale(q, l); }
      assert (s - 1.0) * l <= 0.0 by { NonPositiveScale(s - 1.0, l); }
      NonNegativeProduct(1.0 - s, 2.0 * (n - l) - (s - 1.0) * l);
      assert (s - 1.0) * ((s - 1.0) * l - 2.0 * (n - l)) == (1.0 - s) * (2.0 * (n - l) - (s - 1.0) * l);
    } else {
      assert t == q;
      assert n - t * l == 0.0;
      NonNegativeProduct((s - t) * (s - t), l);
      assert (s - t) * ((s - t) * l - 2.0 * (n - t * l)) == (s - t) * (s - t) * l;
    }
  }

  lemma PositiveSquare(a: real)
    requires a > 0.0
    ensures 0.0 < Sq(a)
  {
    calc { Sq(a); == a * a; > 0.0 * a; == 0.0; }
  }

  lemma SqNonNegative(a: real)
    ensures 0.0 <= Sq(a)
  {
    if a < 0.0 {
      calc { Sq(a); == (-a) * (-a); >= 0.0 * (-a); == 0.0; }
    } else {
      calc { Sq(a); == a * a; >= 0.0 * a; == 0.0; }
    }
  }

  /** The clamped projection is the point of the segment nearest to `(px, py)`. */
  lemma ProjectionIsNearest(px: real, py: real, x1: real, y1: real, x2: real, y2: real, s: real)
    requires Len2(x1, y1, x2, y2) != 0.0 && 0.0 <= s <= 1.0
    ensures DistAlong2(px, py, x1, y1, x2, y2, ClampUnit(Dot(px, py, x1, y1, x2, y2), Len2(x1, y1, x2, y2)))
            <= DistAlong2(px, py, x1, y1, x2, y2, s)
  {
    Len2Positive(x1, y1, x2, y2);
    QuadraticMinimum(Dot(px, py, x1, y1, x2, y2), Len2(x1, y1, x2, y2), s);
    CloserAt(px, py, x1, y1, x2, y2, ClampUnit(Dot(px, py, x1, y1, x2, y2), Len2(x1, y1, x2, y2)), s);
  }

  /** Comparing two points of the segment is comparing the quadratic at their parameters. */
  lemma CloserAt(px: real, py: real, x1: real, y1: real, x2: real, y2: real, t: real, s: real)
    requires QuadraticLeq(Dot(px, py, x1, y1, x2, y2), Len2(x1, y1, x2, y2), t, s)
    ensures DistAlong2(px, py, x1, y1, x2, y2, t) <= DistAlong2(px, py, x1, y1, x2, y2, s)
  {
    DistAlongQuadratic(px, py, x1, y1, x2, y2, s);
    DistAlongQuadratic(px, py, x1, y1, x2, y2, t);
  }


  lemma Len2Positive(x1: real, y1: real, x2: real, y2: real)
    requires Len2(x1, y1, x2, y2) != 0.0
    ensures Len2(x1, y1, x2, y2) > 0.0
  {
    SqNonNegative(x2 - x1);
    SqNonNegative(y2 - y1);
  }

  lemma NonPositiveScale(a: real, l: real)
    requires a <= 0.0 && l > 0.0
    ensures a * l <= 0.0
  {
  }

  lemma AtLeastScale(a: real, l: real)
    requires a >= 1.0 && l > 0.0
    ensures a * l >= l
  {
    assert (a - 1.0) * l >= 0.0;
  }

  /**
   * `isPointNearLine` holds exactly when some point of a real segment lies
   * closer than the threshold: the reference meaning of the clamped projection.
   */
  lemma NearLineIffSegmentWithin(px: real, py: real, x1: real, y1: real, x2: real, y2: real, threshold: real)
    requires Len2(x1, y1, x2, y2) != 0.0 && threshold > 0.0
    ensures IsPointNearLine(px, py, x1, y1, x2, y2, threshold) <==>
            exists s :: 0.0 <= s <= 1.0 && DistAlong2(px, py, x1, y1, x2, y2, s) < Sq(threshold)
  {
    var t := ClampUnit(Dot(px, py, x1, y1, x2, y2), Len2(x1, y1, x2, y2));
    if IsPointNearLine(px, py, x1, y1, x2, y2, threshold) {
      assert 0.0 <= t <= 1.0 && DistAlong2(px, py, x1, y1, x2, y2, t) < Sq(threshold);
    }
    forall s | 0.0 <= s <= 1.0 && DistAlong2(px, py, x1, y1, x2, y2, s) < Sq(threshold)
      ensures IsPointNearLine(px, py, x1, y1, x2, y2, threshold)
    {
      ProjectionIsNearest(px, py, x1, y1, x2, y2, s);
    }
  }

  const CoreTip: string := "Neural Core: Central processing unit managing all AI operations"

  const NodeTips: seq<string> := [
    "Perception Node: Processing sensory inputs",
    "Memory Node: Storing and retrieving information",
    "Reasoning Node: Analyzing patterns and logic",
    "Learning Node: Adapting from experiences",
    "Decision Node: Evaluating options and choices",
    "Action Node: Executing responses and outputs",
    "Context Node: Understanding situational awareness",
    "Creativity Node: Generating novel solutions"
  ]

  /** `String(n)` of a natural number. */
  function Decimal(n: nat): (s: string)
    ensures |s| >= 1
  {
    if n < 10 then [(('0' as int) + n) as char]
    else Decimal(n / 10) + [(('0' as int) + n % 10) as char]
  }

  /** Reads a string of decimal digits back as a number. */
  function ParseDecimal(s: string): int {
    if s == [] then 0 else 10 * ParseDecimal(s[..|s| - 1]) + ((s[|s| - 1] as int) - ('0' as int))
  }

  lemma {:induction false} DecimalRoundTrip(n: nat)
    ensures ParseDecimal(Decimal(n)) == n
    ensures forall i :: 0 <= i < |Decimal(n)| ==> '0' <= Decimal(n)[i] <= '9'
    ensures Decimal(n)[0] != '0' || n == 0
  {
    if n >= 10 {
      DecimalRoundTrip(n / 10);
      var s := Decimal(n);
      assert s[..|s| - 1] == Decimal(n / 10);
    }
  }

  const FallbackPrefix: string := "Processing Node "

  /** `getNodeTooltipText`: the table entry, or `Processing Node <i+1>` past its end. */
  function NodeTooltipText(i: nat): (text: string)
    ensures i < |NodeTips| ==> text == NodeTips[i]
    ensures i >= |NodeTips| ==>
              |text| > |FallbackPrefix| && text[..|FallbackPrefix|] == FallbackPrefix
              && ParseDecimal(text[|FallbackPrefix|..]) == i + 1
              && (forall j :: |FallbackPrefix| <= j < |text| ==> '0' <= text[j] <= '9')
              && text[|FallbackPrefix|] != '0'
  {
    if i < |NodeTips| then NodeTips[i]
    else
      DecimalRoundTrip(i + 1);
      var text := FallbackPrefix + Decimal(i + 1);
      assert text[|FallbackPrefix|..] == Decimal(i + 1);
      text
  }

  /** The cursor is inside the breathing core (radius `40 + 5 sin`, hit area twice that). */
  predicate CoreHit(px: real, py: real, cx: real, cy: real, coreSin: real) {
    var r := (40.0 + coreSin * 5.0) * 2.0;
    r > 0.0 && Sq(px - cx) + Sq(py - cy) < Sq(r)
  }

  /** The cursor is inside a node's breathing hit circle, `(radius + 2 pulse) * 3`. */
  predicate NodeHit(n: Node, px: real, py: real, pulse: real) {
    var r := (n.radius + pulse * 2.0) * 3.0;
    r > 0.0 && Sq(px - n.x) + Sq(py - n.y) < Sq(r)
  }

  predicate ConnectionHit(c: Connection, nodes: seq<Node>, px: real, py: real)
    requires c.from < |nodes| && c.to < |nodes|
  {
    IsPointNearLine(px, py, nodes[c.from].x, nodes[c.from].y, nodes[c.to].x, nodes[c.to].y, LineThreshold)
  }

  /** The first node from index `k` on whose hit circle holds the cursor. */
  function FirstNodeHit(nodes: seq<Node>, pulses: seq<real>, px: real, py: real, k: nat): Option<nat>
    requires |pulses| == |nodes|
    decreases |nodes| - k
  {
    if k >= |nodes| then None
    else if NodeHit(nodes[k], px, py, pulses[k]) then Some(k)
    else FirstNodeHit(nodes, pulses, px, py, k + 1)
  }

  /** The first connection from index `k` on that passes near the cursor. */
  function FirstConnectionHit(conns: seq<Connection>, nodes: seq<Node>, px: real, py: real, k: nat): Option<nat>
    requires LinksWithin(conns, |nodes|)
    decreases |conns| - k
  {
    if k >= |conns| then None
    else if ConnectionHit(conns[k], nodes, px, py) then Some(k)
    else FirstConnectionHit(conns, nodes, px, py, k + 1)
  }

  lemma {:induction false} FirstNodeHitSpec(nodes: seq<Node>, pulses: seq<real>, px: real, py: real, k: nat)
    requires |pulses| == |nodes|
    ensures match FirstNodeHit(nodes, pulses, px, py, k)
      case None => forall j :: k <= j < |nodes| ==> !NodeHit(nodes[j], px, py, pulses[j])
      case Some(i) => k <= i < |nodes| && NodeHit(nodes[i], px, py, pulses[i])
                      && forall j :: k <= j < i ==> !NodeHit(nodes[j], px, py, pulses[j])
    decreases |nodes| - k
  {
    if k < |nodes| && !NodeHit(nodes[k], px, py, pulses[k]) {
      FirstNodeHitSpec(nodes, pulses, px, py, k + 1);
    }
  }

  lemma {:induction false} FirstConnectionHitSpec(conns: seq<Connection>, nodes: seq<Node>, px: real, py: real, k: nat)
    requires LinksWithin(conns, |nodes|)
    ensures match FirstConnectionHit(conns, nodes, px, py, k)
      case None => forall j :: k <= j < |conns| ==> !ConnectionHit(conns[j], nodes, px, py)
      case Some(i) => k <= i < |conns| && ConnectionHit(conns[i], nodes, px, py)
                      && forall j :: k <= j < i ==> !ConnectionHit(conns[j], nodes, px, py)
    decreases |conns| - k
  {
    if k < |conns| {
      assert conns[k] in conns;
      if !ConnectionHit(conns[k], nodes, px, py) {
        FirstConnectionHitSpec(conns, nodes, px, py, k + 1);
      }
    }
  }

  /** What `checkHover` decides the cursor is over: core first, then nodes, then connections. */
  function HoverTarget(nodes: seq<Node>, conns: seq<Connection>, px: real, py: real,
                       cx: real, cy: real, coreSin: real, pulses: seq<real>): Hover
    requires |pulses| == |nodes| && LinksWithin(conns, |nodes|)
  {
    if CoreHit(px, py, cx, cy, coreSin) then Core
    else match FirstNodeHit(nodes, pulses, px, py, 0)
      case Some(i) => NodeHover(i)
      case None =>
        match FirstConnectionHit(conns, nodes, px, py, 0)
        case Some(i) => ConnectionHover(i)
        case None => NoHover
  }

  /** Priority: the core wins whatever the nodes and connections say. */
  lemma HoverCoreFirst(nodes: seq<Node>, conns: seq<Connection>, px: real, py: real,
                       cx: real, cy: real, coreSin: real, pulses: seq<real>)
    requires |pulses| == |nodes| && LinksWithin(conns, |nodes|)
    ensures HoverTarget(nodes, conns, px, py, cx, cy, coreSin, pulses) == Core
            <==> CoreHit(px, py, cx, cy, coreSin)
  {
  }

  /** Otherwise the lowest-index node under the cursor wins. */
  lemma HoverNodeLowest(nodes: seq<Node>, conns: seq<Connection>, px: real, py: real,
                        cx: real, cy: real, coreSin: real, pulses: seq<real>, i: nat)
    requires |pulses| == |nodes| && LinksWithin(conns, |nodes|)
    ensures HoverTarget(nodes, conns, px, py, cx, cy, coreSin, pulses) == NodeHover(i)
            <==> !CoreHit(px, py, cx, cy, coreSin) && i < |nodes| && NodeHit(nodes[i], px, py, pulses[i])
                 && forall j :: 0 <= j < i ==> !NodeHit(nodes[j], px, py, pulses[j])
  {
    FirstNodeHitSpec(nodes, pulses, px, py, 0);
    FirstConnectionHitSpec(conns, nodes, px, py, 0);
  }

  /** Only when neither the core nor any node is hit, the lowest-index near connection. */
  lemma HoverConnectionLowest(nodes: seq<Node>, conns: seq<Connection>, px: real, py: real,
                              cx: real, cy: real, coreSin: real, pulses: seq<real>, i: nat)
    requires |pulses| == |nodes| && LinksWithin(conns, |nodes|)
    ensures HoverTarget(nodes, conns, px, py, cx, cy, coreSin, pulses) == ConnectionHover(i)
            <==> !CoreHit(px, py, cx, cy, coreSin)
                 && (forall j :: 0 <= j < |nodes| ==> !NodeHit(nodes[j], px, py, pulses[j]))
                 && i < |conns| && ConnectionHit(conns[i], nodes, px, py)
                 && forall j :: 0 <= j < i ==> !ConnectionHit(conns[j], nodes, px, py)
  {
    FirstNodeHitSpec(nodes, pulses, px, py, 0);
    FirstConnectionHitSpec(conns, nodes, px, py, 0);
  }

  /** Nothing is hovered exactly when nothing is hit. */
  lemma HoverNothing(nodes: seq<Node>, conns: seq<Connection>, px: real, py: real,
                     cx: real, cy: real, coreSin: real, pulses: seq<real>)
    requires |pulses| == |nodes| && LinksWithin(conns, |nodes|)
    ensures HoverTarget(nodes, conns, px, py, cx, cy, coreSin, pulses) == NoHover
            <==> !CoreHit(px, py, cx, cy, coreSin)
                 && (forall j :: 0 <= j < |nodes| ==> !NodeHit(nodes[j], px, py, pulses[j]))
                 && (forall j :: 0 <= j < |conns| ==> !ConnectionHit(conns[j], nodes, px, py))
  {
    FirstNodeHitSpec(nodes, pulses, px, py, 0);
    FirstConnectionHitSpec(conns, nodes, px, py, 0);
  }

  /** The tooltip shown on entering a target. */
  function TooltipFor(h: Hover, conns: seq<Connection>): Tooltip
    requires h.ConnectionHover? ==> h.index < |conns|
  {
    match h
    case Core => Show(CoreTip)
    case NodeHover(i) => Show(NodeTooltipText(i))
    case ConnectionHover(i) => ShowPathway(conns[i].strength)
    case NoHover => Hide
  }

  /** The tooltip calls one `checkHover` makes when `hoveredElement` goes from `prev` to `next`. */
  function HoverEvents(prev: Hover, next: Hover, conns: seq<Connection>): (ev: seq<Tooltip>)
    requires next.ConnectionHover? ==> next.index < |conns|
    ensures |ev| <= 1
    ensures (exists t :: t in ev && t != Hide) <==> next != NoHover && next != prev
    ensures Hide in ev <==> next == NoHover && prev != NoHover
  {
    if next == NoHover then (if prev != NoHover then [Hide] else [])
    else if next == prev then []
    else
      var t := TooltipFor(next, conns);
      assert t in [t];
      [t]
  }

  lemma HoverTargetValid(nodes: seq<Node>, conns: seq<Connection>, px: real, py: real,
                         cx: real, cy: real, coreSin: real, pulses: seq<real>)
    requires |pulses| == |nodes| && LinksWithin(conns, |nodes|)
    ensures var h := HoverTarget(nodes, conns, px, py, cx, cy, coreSin, pulses);
            (h.NodeHover? ==> h.index < |nodes|) && (h.ConnectionHover? ==> h.index < |conns|)
  {
    FirstNodeHitSpec(nodes, pulses, px, py, 0);
    FirstConnectionHitSpec(conns, nodes, px, py, 0);
  }

  /** The first loop of `initializeNodes`: one ring node per direction, one draw each. */
  method DrawRing(cx: real, cy: real, radius: real, ring: seq<Vec>, random: Source) returns (ns: seq<Node>)
    requires |ring| == NodeCount
    modifies random
    ensures ns == Ring(cx, cy, radius, ring, random.draw, old(random.used), NodeCount)
    ensures random.used == old(random.used) + NodeCount
  {
    ns := [];
    for i := 0 to NodeCount
      invariant random.used == old(random.used) + i
      invariant ns == Ring(cx, cy, radius, ring, random.draw, old(random.used), i)
    {
      var r := random.Next();
      ns := ns + [RingNode(cx, cy, radius, ring[i], r)];
    }
  }

  /** One pass of the inner loop of `initializeNodes`: pair `(i, j)` is kept when its first draw is above 0.3. */
  method DrawPair(i: nat, j: nat, random: Source) returns (cs: seq<Connection>)
    requires i < j < NodeCount
    modifies random
    ensures Links(random.draw, old(random.used), i, j).value == cs + Links(random.draw, random.used, i, j + 1).value
    ensures Links(random.draw, old(random.used), i, j).next == Links(random.draw, random.used, i, j + 1).next
    ensures |cs| <= 1
  {
    ghost var k := random.used;
    var d := random.Next();
    if d > 0.3 {
      LinksKeep(random.draw, k, i, j);
      var s := random.Next();
      cs := [Connection(i, j, s * 0.5 + 0.5)];
    } else {
      LinksSkip(random.draw, k, i, j);
      cs := [];
    }
  }

  /** The inner loop of `initializeNodes`: the pairs `(i, j)` for every `j > i`. */
  method DrawRow(i: nat, random: Source) returns (cs: seq<Connection>)
    requires i < NodeCount
    modifies random
    ensures Links(random.draw, old(random.used), i, i + 1).value == cs + Links(random.draw, random.used, i + 1, i + 2).value
    ensures Links(random.draw, old(random.used), i, i + 1).next == Links(random.draw, random.used, i + 1, i + 2).next
  {
    cs := [];
    ghost var start := Links(random.draw, random.used, i, i + 1);
    for j := i + 1 to NodeCount
      invariant start.value == cs + Links(random.draw, random.used, i, j).value
      invariant start.next == Links(random.draw, random.used, i, j).next
    {
      var c := DrawPair(i, j, random);
      ConcatAssoc(cs, c, Links(random.draw, random.used, i, j + 1).value);
      cs := cs + c;
    }
    LinksRowEnd(random.draw, random.used, i);
  }

  lemma ConcatAssoc<T>(a: seq<T>, b: seq<T>, c: seq<T>)
    ensures a + (b + c) == (a + b) + c
  {
  }

  /** The nested loops of `initializeNodes`: every pair, in row order. */
  method DrawLinks(random: Source) returns (cs: seq<Connection>)
    modifies random
    ensures cs == Graph(random.draw, old(random.used)).value
    ensures random.used == Graph(random.draw, old(random.used)).next
  {
    cs := [];
    ghost var all := Graph(random.draw, random.used);
    for i := 0 to NodeCount
      invariant all.value == cs + Links(random.draw, random.used, i, i + 1).value
      invariant all.next == Links(random.draw, random.used, i, i + 1).next
    {
      var row := DrawRow(i, random);
      ConcatAssoc(cs, row, Links(random.draw, random.used, i + 1, i + 2).value);
      cs := cs + row;
    }
  }

  // ---------------------------------------------------------------------
  // The entity object
  // ---------------------------------------------------------------------

  class AIEntity {
    const random: Source
    var centerX: real
    var centerY: real
    var nodes: seq<Node>
    var connections: seq<Connection>
    var particles: seq<Particle>
    var mouseX: real
    var mouseY: real
    var targetX: real
    var targetY: real
    var isActive: bool
    var morphProgress: real
    /** `morphAnimation` callbacks waiting for a frame. */
    var morphPending: nat
    var time: nat
    var hovered: Hover
    /** The `showTooltip` / `hideTooltip` calls so far, in order. */
    var tooltips: seq<Tooltip>

    ghost predicate Valid()
      reads this
    {
      LinksWithin(connections, |nodes|)
    }

    /**
     * `new AIEntity(canvas)`: `resize`, `initializeNodes`, the tooltip, and the
     * first `animate` frame, which runs at once.
     */
    constructor (width: real, height: real, ring: seq<Vec>, firstFrame: seq<Forces>, random: Source)
      requires |ring| == NodeCount && |firstFrame| == NodeCount
      modifies random
      ensures Valid() && this.random == random
      ensures centerX == width / 2.0 && centerY == height / 2.0
      ensures nodes == StepAll(Ring(centerX, centerY, Min(centerX, centerY) * 0.6,
                                    ring, random.draw, old(random.used), NodeCount), 0.0, 0.0, firstFrame)
      ensures connections == Graph(random.draw, old(random.used) + NodeCount).value
      ensures random.used == Graph(random.draw, old(random.used) + NodeCount).next
      ensures particles == [] && time == 1 && hovered == NoHover && tooltips == []
      ensures !isActive && mouseX == 0.0 && mouseY == 0.0 && targetX == 0.0 && targetY == 0.0
      ensures morphProgress == 0.0 && morphPending == 0
    {
      this.random := random;
      nodes, connections, particles := [], [], [];
      mouseX, mouseY, targetX, targetY := 0.0, 0.0, 0.0, 0.0;
      isActive := false;
      morphProgress := 0.0;
      morphPending := 0;
      time := 0;
      hovered := NoHover;
      tooltips := [];
      centerX := width / 2.0;
      centerY := height / 2.0;
      new;
      Start(ring, firstFrame);
    }

    /** The constructor's calls of `initializeNodes` and the first `animate`, on an empty entity. */
    method Start(ring: seq<Vec>, firstFrame: seq<Forces>)
      requires nodes == [] && connections == [] && particles == [] && time == 0
      requires |ring| == NodeCount && |firstFrame| == NodeCount
      modifies this`nodes, this`connections, this`particles, this`time, this`mouseX, this`mouseY, random
      ensures Valid() && time == 1 && particles == []
      ensures nodes == StepAll(Ring(centerX, centerY, Min(centerX, centerY) * 0.6,
                                    ring, random.draw, old(random.used), NodeCount), mouseX, mouseY, firstFrame)
      ensures mouseX == Ease(old(mouseX), targetX) && mouseY == Ease(old(mouseY), targetY)
      ensures connections == Graph(random.draw, old(random.used) + NodeCount).value
      ensures random.used == Graph(random.draw, old(random.used) + NodeCount).next
    {
      InitializeEmpty(ring);
      Animate(firstFrame);
    }

    /** `initializeNodes` on an entity with no nodes and no connections yet. */
    method InitializeEmpty(ring: seq<Vec>)
      requires nodes == [] && connections == [] && |ring| == NodeCount
      modifies this`nodes, this`connections, random
      ensures Valid() && |nodes| == NodeCount
      ensures nodes == Ring(centerX, centerY, Min(centerX, centerY) * 0.6, ring, random.draw, old(random.used), NodeCount)
      ensures connections == Graph(random.draw, old(random.used) + NodeCount).value
      ensures random.used == Graph(random.draw, old(random.used) + NodeCount).next
    {
      InitializeNodes(ring);
      assert [] + nodes == nodes && [] + connections == connections;
    }

    /** `resize`: a new centre; the nodes and connections are not rebuilt. */
    method Resize(width: real, height: real)
      modifies this`centerX, this`centerY
      ensures centerX == width / 2.0 && centerY == height / 2.0
    {
      centerX := width / 2.0;
      centerY := height / 2.0;
    }

    /** `initializeNodes`: pushes eight ring nodes, then the random connections. */
    method InitializeNodes(ring: seq<Vec>)
      requires Valid() && |ring| == NodeCount
      modifies this`nodes, this`connections, random
      ensures Valid()
      ensures nodes == old(nodes) + Ring(centerX, centerY, Min(centerX, centerY) * 0.6, ring,
                                          random.draw, old(random.used), NodeCount)
      ensures connections == old(connections) + Graph(random.draw, old(random.used) + NodeCount).value
      ensures random.used == Graph(random.draw, old(random.used) + NodeCount).next
    {
      var k0 := random.used;
      var ns := DrawRing(centerX, centerY, Min(centerX, centerY) * 0.6, ring, random);
      assert random.used == k0 + NodeCount;
      ghost var all := Graph(random.draw, k0 + NodeCount);
      var cs := DrawLinks(random);
      assert cs == all.value && random.used == all.next;
      LinksInRange(random.draw, k0 + NodeCount);
      LinksWithinJoin(connections, cs, |nodes|, NodeCount, |nodes| + NodeCount);
      nodes, connections := nodes + ns, connections + cs;
    }

    /** `updateMousePosition`: the target only, in canvas coordinates. */
    method UpdateMousePosition(clientX: real, clientY: real, rectLeft: real, rectTop: real)
      modifies this`targetX, this`targetY
      ensures targetX == clientX - rectLeft && targetY == clientY - rectTop
    {
      targetX := clientX - rectLeft;
      targetY := clientY - rectTop;
    }

    /** `activate`: the active flag and a burst of particles. */
    method Activate()
      modifies this`isActive, this`particles, random
      ensures isActive
      ensures particles == old(particles) + Burst(centerX, centerY, random.draw, old(random.used), BurstSize)
      ensures random.used == old(random.used) + 3 * BurstSize
    {
      isActive := true;
      GenerateParticles();
    }

    /** `deactivate`: the active flag only. */
    method Deactivate()
      modifies this`isActive
      ensures !isActive
    {
      isActive := false;
    }

    /** `generateParticles`: appends twenty fresh particles at the centre. */
    method GenerateParticles()
      modifies this`particles, random
      ensures particles == old(particles) + Burst(centerX, centerY, random.draw, old(random.used), BurstSize)
      ensures random.used == old(random.used) + 3 * BurstSize
    {
      var k0 := random.used;
      var ps := particles;
      for i := 0 to BurstSize
        invariant random.used == k0 + 3 * i
        invariant ps == old(particles) + Burst(centerX, centerY, random.draw, k0, i)
      {
        var a := random.Next();
        var b := random.Next();
        var c := random.Next();
        ps := ps + [Spawn(centerX, centerY, a, b, c)];
      }
      particles := ps;
    }

    /** `updateParticles`: moves every particle and keeps those still alive. */
    method UpdateParticles()
      modifies this`particles
      ensures particles == Survivors(old(particles))
    {
      var ps := particles;
      var kept: seq<Particle> := [];
      for i := 0 to |ps|
        invariant kept == Survivors(ps[..i])
      {
        var q := Advance(ps[i]);
        if q.life > 0.0 {
          kept := kept + [q];
        }
        assert ps[..i + 1][..i] == ps[..i];
      }
      assert ps[..|ps|] == ps;
      particles := kept;
    }

    /** `updateNodes`: eases the pointer, then steps every node with its forces. */
    method UpdateNodes(forces: seq<Forces>)
      requires |forces| == |nodes|
      modifies this`mouseX, this`mouseY, this`nodes
      ensures mouseX == Ease(old(mouseX), targetX) && mouseY == Ease(old(mouseY), targetY)
      ensures nodes == StepAll(old(nodes), mouseX, mouseY, forces)
    {
      mouseX := mouseX + (targetX - mouseX) * Easing;
      mouseY := mouseY + (targetY - mouseY) * Easing;
      var ns := nodes;
      for i := 0 to |ns|
        invariant |ns| == |old(nodes)|
        invariant forall j :: 0 <= j < i ==> ns[j] == NodeStep(old(nodes)[j], mouseX, mouseY, forces[j])
        invariant forall j :: i <= j < |ns| ==> ns[j] == old(nodes)[j]
      {
        ns := ns[i := NodeStep(ns[i], mouseX, mouseY, forces[i])];
      }
      nodes := ns;
    }

    /** One frame of `animate`: the clock, the nodes, the particles. */
    method Animate(forces: seq<Forces>)
      requires Valid() && |forces| == |nodes|
      modifies this`time, this`mouseX, this`mouseY, this`nodes, this`particles
      ensures Valid() && time == old(time) + 1
      ensures mouseX == Ease(old(mouseX), targetX) && mouseY == Ease(old(mouseY), targetY)
      ensures nodes == StepAll(old(nodes), mouseX, mouseY, forces)
      ensures particles == Survivors(old(particles))
    {
      time := time + 1;
      UpdateNodes(forces);
      UpdateParticles();
    }

    /** `triggerPulse`: a burst of particles, then a random kick to every node's velocity. */
    method TriggerPulse()
      requires Valid()
      modifies this`particles, this`nodes, random
      ensures Valid()
      ensures particles == old(particles) + Burst(centerX, centerY, random.draw, old(random.used), BurstSize)
      ensures nodes == Kicked(old(nodes), random.draw, old(random.used) + 3 * BurstSize)
      ensures random.used == old(random.used) + 3 * BurstSize + 2 * |nodes|
    {
      GenerateParticles();
      var k0 := random.used;
      ghost var kicked := Kicked(nodes, random.draw, k0);
      var ns := nodes;
      for i := 0 to |ns|
        modifies random
        invariant |ns| == |kicked|
        invariant random.used == k0 + 2 * i
        invariant forall j :: 0 <= j < i ==> ns[j] == kicked[j]
        invariant forall j :: i <= j < |ns| ==> ns[j] == nodes[j]
      {
        assert kicked[i] == Kick(nodes[i], random.draw(k0 + 2 * i), random.draw(k0 + 2 * i + 1));
        var a := random.Next();
        var b := random.Next();
        ns := ns[i := Kick(ns[i], a, b)];
      }
      assert ns == kicked;
      nodes := ns;
    }

    /** The body of `morphAnimation`: advance the progress, and while below 1 re-anchor and reschedule. */
    method MorphStep(dirs: seq<Vec>, swell: real)
      requires Valid() && |dirs| == |nodes|
      modifies this`morphProgress, this`nodes, this`morphPending
      ensures Valid() && morphProgress == old(morphProgress) + 0.02
      ensures morphProgress < 1.0 ==>
                nodes == Reanchor(old(nodes), centerX, centerY, MorphRadius(centerX, centerY, swell), dirs)
      ensures morphProgress >= 1.0 ==> nodes == old(nodes)
      ensures morphPending == old(morphPending) + (if morphProgress < 1.0 then 1 else 0)
    {
      morphProgress := morphProgress + 0.02;
      if morphProgress < 1.0 {
        var radius := MorphRadius(centerX, centerY, swell);
        var ns0 := nodes;
        ghost var moved := Reanchor(ns0, centerX, centerY, radius, dirs);
        var ns := ns0;
        for i := 0 to |ns|
          invariant |ns| == |moved|
          invariant forall j :: 0 <= j < i ==> ns[j] == moved[j]
          invariant forall j :: i <= j < |ns| ==> ns[j] == ns0[j]
        {
          ns := ns[i := Anchor(ns[i], centerX, centerY, radius, dirs[i])];
        }
        assert ns == moved;
        nodes := ns;
        morphPending := morphPending + 1;
      }
    }

    /**
     * `morph`: resets the progress and runs the first step at once.
     * `dirs` are the cosines and sines of each node's swept angle and `swell`
     * is `sin(morphProgress * PI)` for the step's progress.
     */
    method Morph(dirs: seq<Vec>, swell: real)
      requires Valid() && |dirs| == |nodes|
      modifies this`morphProgress, this`nodes, this`morphPending
      ensures Valid() && morphProgress == 0.02
      ensures nodes == Reanchor(old(nodes), centerX, centerY, MorphRadius(centerX, centerY, swell), dirs)
      ensures morphPending == old(morphPending) + 1
    {
      morphProgress := 0.0;
      MorphStep(dirs, swell);
    }

    /** A scheduled `morphAnimation` callback runs on the next frame. */
    method MorphFrame(dirs: seq<Vec>, swell: real)
      requires Valid() && |dirs| == |nodes| && morphPending > 0
      modifies this`morphProgress, this`nodes, this`morphPending
      ensures Valid() && morphProgress == old(morphProgress) + 0.02
      ensures morphProgress < 1.0 ==>
                nodes == Reanchor(old(nodes), centerX, centerY, MorphRadius(centerX, centerY, swell), dirs)
      ensures morphProgress >= 1.0 ==> nodes == old(nodes)
      ensures morphPending == old(morphPending) - 1 + (if morphProgress < 1.0 then 1 else 0)
    {
      morphPending := morphPending - 1;
      MorphStep(dirs, swell);
    }

    /** `hideTooltip`. */
    method HideTooltip()
      modifies this`tooltips
      ensures tooltips == old(tooltips) + [Hide]
    {
      tooltips := tooltips + [Hide];
    }

    /**
     * `checkHover`: updates `hoveredElement` to the target under the cursor and
     * shows or hides the tooltip only when that value changes. `coreSin` and
     * `pulses` are the sines of the core's and each node's breathing.
     */
    method CheckHover(clientX: real, clientY: real, rectLeft: real, rectTop: real,
                      coreSin: real, pulses: seq<real>)
      requires Valid() && |pulses| == |nodes|
      modifies this`hovered, this`tooltips
      ensures hovered == HoverTarget(nodes, connections, clientX - rectLeft, clientY - rectTop,
                                     centerX, centerY, coreSin, pulses)
      ensures hovered.ConnectionHover? ==> hovered.index < |connections|
      ensures tooltips == old(tooltips) + HoverEvents(old(hovered), hovered, connections)
    {
      var px, py := clientX - rectLeft, clientY - rectTop;
      HoverTargetValid(nodes, connections, px, py, centerX, centerY, coreSin, pulses);
      if CoreHit(px, py, centerX, centerY, coreSin) {
        if hovered != Core {
          hovered := Core;
          tooltips := tooltips + [Show(CoreTip)];
        }
        return;
      }
      for i := 0 to |nodes|
        invariant FirstNodeHit(nodes, pulses, px, py, 0) == FirstNodeHit(nodes, pulses, px, py, i)
        invariant hovered == old(hovered) && tooltips == old(tooltips)
      {
        if NodeHit(nodes[i], px, py, pulses[i]) {
          var text := NodeTooltipText(i);
          if hovered != NodeHover(i) {
            hovered := NodeHover(i);
            tooltips := tooltips + [Show(text)];
          }
          return;
        }
      }
      for i := 0 to |connections|
        invariant FirstConnectionHit(connections, nodes, px, py, 0) == FirstConnectionHit(connections, nodes, px, py, i)
        invariant hovered == old(hovered) && tooltips == old(tooltips)
      {
        assert connections[i] in connections;
        if ConnectionHit(connections[i], nodes, px, py) {
          if hovered != ConnectionHover(i) {
            hovered := ConnectionHover(i);
            tooltips := tooltips + [ShowPathway(connections[i].strength)];
          }
          return;
        }
      }
      if hovered != NoHover {
        hovered := NoHover;
        tooltips := tooltips + [Hide];
      }
    }
  }

  /** Checking the same cursor twice in a row shows or hides nothing the second time. */
  method CheckHoverTwice(e: AIEntity, clientX: real, clientY: real, rectLeft: real, rectTop: real,
                         coreSin: real, pulses: seq<real>)
    requires e.Valid() && |pulses| == |e.nodes|
    modifies e`hovered, e`tooltips
    ensures e.hovered.ConnectionHover? ==> e.hovered.index < |e.connections|
    ensures e.tooltips == old(e.tooltips) + HoverEvents(old(e.hovered), e.hovered, e.connections)
  {
    e.CheckHover(clientX, clientY, rectLeft, rectTop, coreSin, pulses);
    ghost var afterFirst := e.tooltips;
    e.CheckHover(clientX, clientY, rectLeft, rectTop, coreSin, pulses);
    assert e.tooltips == afterFirst;
  }
}
