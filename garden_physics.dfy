/**
 * The rules of "The Garden" platformer, one frame at a time, as pure
 * functions over the world state. The `Garden` module's session object runs
 * these phases in place and is proved to agree with `StepSpec` below.
 *
 * JavaScript numbers are modelled as `real`; the random draws and the
 * trigonometric flutter offsets a frame consumes are parameters.
 */
module GardenPhysics {

  const Gravity: real := 0.6
  const Friction: real := 0.92
  const Bounce: real := 0.5
  const JumpVelocity: real := -14.0
  const Acceleration: real := 0.6
  const MaxJumps: int := 2
  const BallRadius: real := 6.0
  /** A landing slower than this comes to rest: `gravity * 3`. */
  const RestThreshold: real := Gravity * 3.0
  const PickupMargin: real := 20.0
  const FlowerLifetime: int := 400
  const GrowFrames: int := 30
  const FadeStart: int := 300
  const SeedCount: nat := 4
  const Palette: seq<string> := ["#FF4400", "#9B4DCA", "#0070F3", "#FFD700", "#10B981"]

  datatype Ball = Ball(x: real, y: real, vx: real, vy: real, r: real, color: string)
  datatype Platform = Platform(x: real, y: real, w: real, h: real)
  datatype Seed = Seed(x: real, y: real, collected: bool)
  datatype Flower = Flower(x: real, y: real, age: int, kind: int, color: string, scale: real)
  datatype Butterfly = Butterfly(x: real, y: real, vx: real, vy: real, timer: real)

  /** The combined keyboard and touch input of one frame. */
  datatype Controls = Controls(left: bool, right: bool, jump: bool)

  /** The three `Math.random()` draws the growth trigger may consume. */
  datatype Draws = Draws(spawn: real, kind: real, scale: real)

  /** `Math.sin(timer) * 0.5` and `Math.cos(timer * 1.3) * 0.5` for the butterfly. */
  datatype Flutter = Flutter(dx: real, dy: real)

  predicate IsRandom(x: real) {
    0.0 <= x < 1.0
  }

  predicate ValidDraws(d: Draws) {
    IsRandom(d.spawn) && IsRandom(d.kind) && IsRandom(d.scale)
  }

  function Abs(x: real): real {
    if x < 0.0 then -x else x
  }

  function Max(a: real, b: real): real {
    if a >= b then a else b
  }

  /** The whole state a frame reads and writes. */
  datatype World = World(
    width: nat, height: nat,
    ball: Ball, floorY: real, grounded: bool,
    jumps: int, jumpHeld: bool,
    butterfly: Butterfly,
    flowers: seq<Flower>, seeds: seq<Seed>, seedType: int,
    platforms: seq<Platform>, time: nat)

  // ---------------------------------------------------------------- session start

  /** `spawnSeed()`: a random position in the upper part of the canvas. */
  function SpawnSeed(width: nat, height: nat, rx: real, ry: real): (s: Seed)
    ensures !s.collected
  {
    Seed(rx * (width as real - 60.0) + 30.0, ry * (height as real * 0.6) + 50.0, false)
  }

  lemma SpawnSeedBounds(width: nat, height: nat, rx: real, ry: real)
    requires IsRandom(rx) && IsRandom(ry) && width > 60 && height > 0
    ensures var s := SpawnSeed(width, height, rx, ry);
      !s.collected &&
      30.0 <= s.x < width as real - 30.0 &&
      50.0 <= s.y < height as real * 0.6 + 50.0
  {
    var s := SpawnSeed(width, height, rx, ry);
    var ew := width as real - 60.0;
    var eh := height as real * 0.6;
    ScaledDraw(rx, ew);
    ScaledDraw(ry, eh);
    assert s.x == rx * ew + 30.0;
    assert s.y == ry * eh + 50.0;
  }

  /** A draw in [0, 1) scaled by a positive extent stays below that extent. */
  lemma ScaledDraw(r: real, extent: real)
    requires IsRandom(r) && extent > 0.0
    ensures 0.0 <= r * extent < extent
  {
    assert extent - r * extent == (1.0 - r) * extent;
  }

  /** `generatePlatforms()`: five thin ledges placed in proportion to the canvas. */
  function GeneratePlatforms(width: nat, height: nat): (ps: seq<Platform>)
    ensures |ps| == 5
    ensures forall i :: 0 <= i < |ps| ==> ps[i].h == 2.0 && ps[i].w == width as real * [0.25, 0.3, 0.2, 0.25, 0.15][i]
  {
    var w := width as real;
    var h := height as real;
    [ Platform(w * 0.1, h * 0.75, w * 0.25, 2.0),
      Platform(w * 0.55, h * 0.65, w * 0.3, 2.0),
      Platform(w * 0.2, h * 0.5, w * 0.2, 2.0),
      Platform(w * 0.6, h * 0.35, w * 0.25, 2.0),
      Platform(w * 0.3, h * 0.25, w * 0.15, 2.0) ]
  }

  /** Every ledge lies horizontally inside the canvas and strictly between its top and bottom. */
  lemma PlatformsInsideCanvas(width: nat, height: nat)
    requires height > 0
    ensures var ps := GeneratePlatforms(width, height);
      |ps| == 5 &&
      forall i :: 0 <= i < |ps| ==>
        0.0 <= ps[i].x && ps[i].x + ps[i].w <= width as real &&
        0.0 < ps[i].y < height as real && ps[i].h == 2.0
  {
  }

  /** The seeds of a fresh session, from eight draws taken x first, then y, per seed. */
  function InitialSeeds(width: nat, height: nat, draws: seq<real>, n: nat): (s: seq<Seed>)
    requires n <= SeedCount && |draws| == 2 * SeedCount
    ensures |s| == n
    ensures forall i :: 0 <= i < n ==> s[i] == SpawnSeed(width, height, draws[2 * i], draws[2 * i + 1])
  {
    if n == 0 then []
    else InitialSeeds(width, height, draws, n - 1) + [SpawnSeed(width, height, draws[2 * (n - 1)], draws[2 * (n - 1) + 1])]
  }

  /** The state on entering the garden: nothing is carried over from an earlier session. */
  function InitialWorld(width: nat, height: nat, draws: seq<real>): World
    requires |draws| == 2 * SeedCount
  {
    World(
      width, height,
      Ball(width as real / 2.0, height as real / 2.0, 0.0, 0.0, BallRadius, Palette[0]),
      height as real - 100.0, false,
      0, false,
      Butterfly(-50.0, height as real / 2.0, 0.0, 0.0, 0.0),
      [], InitialSeeds(width, height, draws, SeedCount), 0,
      GeneratePlatforms(width, height), 0)
  }

  // ---------------------------------------------------------------- the invariant

  /** Shape, palette colour and scale of a flower; independent of its age. */
  predicate FlowerLooks(f: Flower) {
    0 <= f.kind < 5 && f.color in Palette && 0.5 <= f.scale < 1.0
  }

  predicate FlowerOk(f: Flower) {
    FlowerLooks(f) && 1 <= f.age <= FlowerLifetime
  }

  /**
   * What holds between frames: at most two jump charges, a palette index in
   * range that the ball's colour follows, four seeds, and every flower aged
   * between 1 and 400 frames.
   */
  predicate Valid(w: World) {
    0 <= w.jumps <= MaxJumps &&
    0 <= w.seedType < |Palette| &&
    w.ball.color == Palette[w.seedType] &&
    w.ball.r == BallRadius &&
    |w.seeds| == SeedCount &&
    forall i :: 0 <= i < |w.flowers| ==> FlowerOk(w.flowers[i])
  }

  lemma InitialWorldValid(width: nat, height: nat, draws: seq<real>)
    requires |draws| == 2 * SeedCount
    ensures Valid(InitialWorld(width, height, draws))
    ensures InitialWorld(width, height, draws).jumps == 0
  {
  }

  // ---------------------------------------------------------------- controls and jump

  /** Horizontal acceleration: -0.6 for left, +0.6 for right, both cancel. */
  function Steer(b: Ball, c: Controls): (r: Ball)
    ensures r == b.(vx := r.vx)
    ensures c.left == c.right ==> r.vx == b.vx
    ensures c.left && !c.right ==> r.vx == b.vx - Acceleration
    ensures c.right && !c.left ==> r.vx == b.vx + Acceleration
  {
    var vx1 := if c.left then b.vx - Acceleration else b.vx;
    b.(vx := if c.right then vx1 + Acceleration else vx1)
  }

  datatype JumpResult = JumpResult(ball: Ball, jumps: int, butterfly: Butterfly, fired: bool)

  /** A jump fires on a rising edge of the jump input while a charge remains. */
  predicate JumpFires(pressed: bool, held: bool, jumps: int) {
    pressed && !held && jumps > 0
  }

  /** The butterfly is more than 100 past the left or the right edge of the canvas. */
  predicate Strayed(bf: Butterfly, width: nat) {
    bf.x < -100.0 || bf.x > width as real + 100.0
  }

  /**
   * The jump rule: launch at -14, spend one charge, and bring a butterfly that
   * has strayed more than 100 past either edge back above the ball.
   */
  function Jump(b: Ball, jumps: int, held: bool, pressed: bool, bf: Butterfly, width: nat): (r: JumpResult)
    ensures r.fired == JumpFires(pressed, held, jumps)
    ensures r.fired ==> r.ball == b.(vy := JumpVelocity) && r.jumps == jumps - 1
    ensures !r.fired ==> r.ball == b && r.jumps == jumps && r.butterfly == bf
    ensures r.fired && Strayed(bf, width) ==> r.butterfly == bf.(x := b.x, y := b.y - 100.0)
    ensures r.fired && !Strayed(bf, width) ==> r.butterfly == bf
    ensures 0 <= jumps <= MaxJumps ==> 0 <= r.jumps <= MaxJumps
  {
    if JumpFires(pressed, held, jumps) then
      var bf1 := if Strayed(bf, width) then bf.(x := b.x, y := b.y - 100.0) else bf;
      JumpResult(b.(vy := JumpVelocity), jumps - 1, bf1, true)
    else JumpResult(b, jumps, bf, false)
  }

  /** With no charge left (as at session start) a jump press changes nothing. */
  lemma NoChargeNoJump(b: Ball, held: bool, pressed: bool, bf: Butterfly, width: nat)
    ensures Jump(b, 0, held, pressed, bf, width) == JumpResult(b, 0, bf, false)
  {
  }

  // ---------------------------------------------------------------- integration

  /** Gravity, then position, then friction on the horizontal velocity. */
  function Integrate(b: Ball): (r: Ball)
    ensures r.vy == b.vy + Gravity && r.y == b.y + r.vy
    ensures r.x == b.x + b.vx && r.vx == b.vx * Friction
    ensures r.r == b.r && r.color == b.color
  {
    var vy := b.vy + Gravity;
    b.(x := b.x + b.vx, y := b.y + vy, vx := b.vx * Friction, vy := vy)
  }

  /**
   * Friction only ever slows the ball sideways: the horizontal speed keeps
   * its direction and shrinks strictly unless it is already zero.
   */
  lemma FrictionSlows(b: Ball)
    ensures var r := Integrate(b);
      Abs(r.vx) <= Abs(b.vx) && (b.vx != 0.0 ==> Abs(r.vx) < Abs(b.vx)) &&
      (b.vx > 0.0 <==> r.vx > 0.0) && (b.vx < 0.0 <==> r.vx < 0.0)
  {
  }

  // ---------------------------------------------------------------- collisions

  /** The per-frame collision state: the ball, charges, grounded flag and impact surface. */
  datatype Contact = Contact(ball: Ball, jumps: int, grounded: bool, impactY: real)

  /**
   * Landing on a surface whose top is at `top`: sit on it, rebound at half
   * speed, and come to rest (replenishing both charges) when the rebound is
   * slower than `gravity * 3`.
   */
  function Land(c: Contact, top: real): (r: Contact)
    ensures r.ball.y == top - c.ball.r && r.grounded && r.impactY == top
    ensures r.ball.x == c.ball.x && r.ball.vx == c.ball.vx && r.ball.r == c.ball.r && r.ball.color == c.ball.color
    ensures Abs(c.ball.vy * -Bounce) < RestThreshold ==> r.ball.vy == 0.0 && r.jumps == MaxJumps
    ensures Abs(c.ball.vy * -Bounce) >= RestThreshold ==> r.ball.vy == c.ball.vy * -Bounce && r.jumps == c.jumps
  {
    var b := c.ball.(y := top - c.ball.r, vy := c.ball.vy * -Bounce);
    if Abs(b.vy) < RestThreshold then Contact(b.(vy := 0.0), MaxJumps, true, top)
    else Contact(b, c.jumps, true, top)
  }

  /** Floor collision: any penetration of the floor line lands the ball on it. */
  function FloorCollision(c: Contact, floorY: real): Contact {
    if c.ball.y + c.ball.r > floorY then Land(c, floorY) else c
  }

  /** A ledge catches the ball only from above: overlapping it, near its top face, and not rising. */
  predicate PlatformHit(b: Ball, p: Platform) {
    b.x > p.x - b.r && b.x < p.x + p.w + b.r &&
    b.y + b.r >= p.y && b.y + b.r <= p.y + p.h + Max(15.0, b.vy + 5.0) &&
    b.vy >= 0.0
  }

  function PlatformCollision(c: Contact, p: Platform): Contact {
    if PlatformHit(c.ball, p) then Land(c, p.y) else c
  }

  /** The `platforms.forEach` collision pass over the first `k` ledges, in order. */
  function PlatformsUpTo(c: Contact, ps: seq<Platform>, k: nat): (r: Contact)
    requires k <= |ps|
    ensures r.ball.x == c.ball.x && r.ball.vx == c.ball.vx && r.ball.r == c.ball.r && r.ball.color == c.ball.color
    ensures 0 <= c.jumps <= MaxJumps ==> 0 <= r.jumps <= MaxJumps
    ensures c.grounded ==> r.grounded
  {
    if k == 0 then c else PlatformCollision(PlatformsUpTo(c, ps, k - 1), ps[k - 1])
  }

  /** Floor first, then every ledge. */
  function Collide(b: Ball, jumps: int, floorY: real, ps: seq<Platform>): (r: Contact)
    ensures r.ball.x == b.x && r.ball.vx == b.vx && r.ball.r == b.r && r.ball.color == b.color
    ensures 0 <= jumps <= MaxJumps ==> 0 <= r.jumps <= MaxJumps
  {
    PlatformsUpTo(FloorCollision(Contact(b, jumps, false, floorY), floorY), ps, |ps|)
  }

  /** A rising ball passes through every ledge untouched. */
  lemma {:induction false} RisingBallPassesThrough(c: Contact, ps: seq<Platform>, k: nat)
    requires k <= |ps| && c.ball.vy < 0.0
    ensures PlatformsUpTo(c, ps, k) == c
  {
    if k > 0 {
      RisingBallPassesThrough(c, ps, k - 1);
    }
  }

  /** A ball at rest stays at rest for the rest of the collision pass. */
  lemma {:induction false} RestIsSticky(c: Contact, ps: seq<Platform>, k: nat)
    requires k <= |ps| && c.ball.vy == 0.0
    ensures PlatformsUpTo(c, ps, k).ball.vy == 0.0
  {
    if k > 0 {
      RestIsSticky(c, ps, k - 1);
    }
  }

  /** Collisions change the charge count only by a resting landing, which refills both. */
  lemma {:induction false} RefillOnlyAtRest(c: Contact, ps: seq<Platform>, k: nat)
    requires k <= |ps|
    ensures var r := PlatformsUpTo(c, ps, k);
      r.jumps == c.jumps || (r.jumps == MaxJumps && r.ball.vy == 0.0 && r.grounded)
  {
    if k > 0 {
      RefillOnlyAtRest(c, ps, k - 1);
    }
  }

  /** The same for the whole collision step, floor included. */
  lemma CollideRefillsOnlyAtRest(b: Ball, jumps: int, floorY: real, ps: seq<Platform>)
    ensures var r := Collide(b, jumps, floorY, ps);
      r.jumps == jumps || (r.jumps == MaxJumps && r.ball.vy == 0.0 && r.grounded)
  {
    var c0 := FloorCollision(Contact(b, jumps, false, floorY), floorY);
    RefillOnlyAtRest(c0, ps, |ps|);
    if c0.jumps != jumps {
      RestIsSticky(c0, ps, |ps|);
    }
  }

  /** The floor rule: placed exactly on the floor line, then rebounding at -0.5 times the speed or at rest. */
  lemma FloorLanding(c: Contact, floorY: real)
    requires c.ball.y + c.ball.r > floorY
    ensures var r := FloorCollision(c, floorY);
      r.ball.y == floorY - c.ball.r && r.grounded && r.impactY == floorY &&
      (Abs(c.ball.vy * 0.5) < RestThreshold ==> r.ball.vy == 0.0 && r.jumps == MaxJumps) &&
      (Abs(c.ball.vy * 0.5) >= RestThreshold ==> r.ball.vy == -0.5 * c.ball.vy && r.jumps == c.jumps)
  {
  }

  /** Without penetration the floor leaves the ball alone. */
  lemma FloorMissed(c: Contact, floorY: real)
    requires c.ball.y + c.ball.r <= floorY
    ensures FloorCollision(c, floorY) == c
  {
  }

  // ---------------------------------------------------------------- flowers

  /** The flower a hard landing may sprout at the impact point. */
  function NewFlower(x: real, impactY: real, seedType: int, d: Draws): (f: Flower)
    requires 0 <= seedType < |Palette|
    ensures f.age == 0 && f.color == Palette[seedType] && f.x == x && f.y == impactY
    ensures ValidDraws(d) ==> FlowerLooks(f)
  {
    Flower(x, impactY, 0, (d.kind * 5.0).Floor, Palette[seedType], 0.5 + d.scale * 0.5)
  }

  /** The growth trigger: grounded, post-bounce speed above 1, and a 60% draw. */
  predicate Sprouts(b: Ball, grounded: bool, d: Draws) {
    grounded && Abs(b.vy) > 1.0 && d.spawn > 0.4
  }

  function Sprout(fs: seq<Flower>, b: Ball, grounded: bool, impactY: real, seedType: int, d: Draws): (r: seq<Flower>)
    requires 0 <= seedType < |Palette|
    ensures Sprouts(b, grounded, d) ==> r == fs + [NewFlower(b.x, impactY, seedType, d)]
    ensures !Sprouts(b, grounded, d) ==> r == fs
  {
    if Sprouts(b, grounded, d) then fs + [NewFlower(b.x, impactY, seedType, d)] else fs
  }

  /** `flowers.filter(f => f.age < 400)`. */
  function Live(fs: seq<Flower>): (r: seq<Flower>)
    ensures |r| <= |fs|
    ensures forall i :: 0 <= i < |r| ==> r[i].age < FlowerLifetime
  {
    if fs == [] then []
    else (if fs[0].age < FlowerLifetime then [fs[0]] else []) + Live(fs[1..])
  }

  /** The filter keeps exactly the flowers younger than 400, each once. */
  lemma {:induction false} LiveKeeps(fs: seq<Flower>, f: Flower)
    ensures f in Live(fs) <==> f in fs && f.age < FlowerLifetime
  {
    if fs != [] {
      LiveKeeps(fs[1..], f);
      assert fs == [fs[0]] + fs[1..];
    }
  }

  /** `f.age++` for every flower. */
  function Aged(fs: seq<Flower>): (r: seq<Flower>)
    ensures |r| == |fs|
    ensures forall i :: 0 <= i < |fs| ==> r[i] == fs[i].(age := fs[i].age + 1)
  {
    seq(|fs|, i requires 0 <= i < |fs| => fs[i].(age := fs[i].age + 1))
  }

  /** Filtering then ageing leaves every flower between 1 and 400 frames old. */
  lemma {:induction false} AgingBounds(fs: seq<Flower>)
    requires forall i :: 0 <= i < |fs| ==> FlowerLooks(fs[i]) && 0 <= fs[i].age
    ensures forall i :: 0 <= i < |Aged(Live(fs))| ==> FlowerOk(Aged(Live(fs))[i])
  {
    var live := Live(fs);
    forall i | 0 <= i < |live|
      ensures FlowerLooks(live[i]) && 0 <= live[i].age < FlowerLifetime
    {
      LiveKeeps(fs, live[i]);
    }
  }

  /** `Math.min(age, 30) / 30`: how far a flower has grown. */
  function Growth(age: int): real {
    (if age < GrowFrames then age else GrowFrames) as real / GrowFrames as real
  }

  /** `age > 300 ? 1 - (age - 300) / 100 : 1`: how opaque a flower is drawn. */
  function Opacity(age: int): real {
    if age > FadeStart then 1.0 - (age - FadeStart) as real / 100.0 else 1.0
  }

  lemma GrowthBounds(age: int)
    requires 1 <= age <= FlowerLifetime
    ensures 0.0 < Growth(age) <= 1.0
    ensures age >= GrowFrames ==> Growth(age) == 1.0
  {
  }

  /** Fully opaque up to 300 frames, then fading linearly to nothing at 400. */
  lemma OpacityFades(a1: int, a2: int)
    requires 1 <= a1 <= FlowerLifetime && 1 <= a2 <= FlowerLifetime
    ensures 0.0 <= Opacity(a1) <= 1.0
    ensures a1 <= FadeStart ==> Opacity(a1) == 1.0
    ensures Opacity(FlowerLifetime) == 0.0
    ensures FadeStart <= a1 < a2 ==> Opacity(a2) < Opacity(a1)
  {
  }

  // ---------------------------------------------------------------- walls

  /** Clamp to each side wall in turn, rebounding at -0.5 times the speed. */
  function WallClamp(b: Ball, width: nat): (r: Ball)
    ensures r.y == b.y && r.vy == b.vy && r.r == b.r && r.color == b.color
  {
    var b1 := if b.x < b.r then b.(x := b.r, vx := b.vx * -0.5) else b;
    if b1.x > width as real - b1.r then b1.(x := width as real - b1.r, vx := b1.vx * -0.5) else b1
  }

  /** On a canvas at least one ball wide, the ball ends between the walls; each wall hit halves and reverses vx. */
  lemma WallBounds(b: Ball, width: nat)
    requires b.r >= 0.0 && width as real >= 2.0 * b.r
    ensures var r := WallClamp(b, width);
      b.r <= r.x <= width as real - b.r &&
      (b.r <= b.x <= width as real - b.r ==> r == b) &&
      (b.x < b.r ==> r.x == b.r && r.vx == b.vx * -0.5) &&
      (b.x > width as real - b.r ==> r.x == width as real - b.r && r.vx == b.vx * -0.5)
  {
  }

  // ---------------------------------------------------------------- seeds

  /** `Math.sqrt(dx*dx + dy*dy) < r + 20`, compared squared (both sides are non-negative). */
  predicate InReach(b: Ball, s: Seed) {
    var dx := b.x - s.x;
    var dy := b.y - s.y;
    dx * dx + dy * dy < (b.r + PickupMargin) * (b.r + PickupMargin)
  }

  /** The result of the seed pass: ball colour, palette index, seeds, and the indices picked up. */
  datatype Harvest = Harvest(color: string, seedType: int, seeds: seq<Seed>, picked: seq<nat>)

  /** The `seeds.forEach` pickup pass over the first `k` seeds, in order. */
  function HarvestUpTo(b: Ball, seeds: seq<Seed>, seedType: int, k: nat): (h: Harvest)
    requires k <= |seeds|
    ensures |h.seeds| == |seeds|
    ensures forall i :: k <= i < |seeds| ==> h.seeds[i] == seeds[i]
    ensures forall i :: 0 <= i < |h.picked| ==> h.picked[i] < k
  {
    if k == 0 then Harvest(b.color, seedType, seeds, [])
    else
      var h := HarvestUpTo(b, seeds, seedType, k - 1);
      var s := h.seeds[k - 1];
      if !s.collected && InReach(b, s) then
        var t := (h.seedType + 1) % |Palette|;
        Harvest(Palette[t], t, h.seeds[k - 1 := s.(collected := true)], h.picked + [k - 1])
      else h
  }

  /**
   * The seed pass picks up exactly the uncollected seeds in reach and marks
   * them collected, without moving any seed.
   */
  lemma {:induction false} HarvestPicks(b: Ball, seeds: seq<Seed>, seedType: int, k: nat)
    requires k <= |seeds|
    ensures var h := HarvestUpTo(b, seeds, seedType, k);
      forall i :: 0 <= i < k ==>
        (i in h.picked <==> !seeds[i].collected && InReach(b, seeds[i])) &&
        h.seeds[i] == seeds[i].(collected := seeds[i].collected || InReach(b, seeds[i]))
  {
    if k > 0 {
      HarvestPicks(b, seeds, seedType, k - 1);
    }
  }

  predicate StrictlyIncreasing(s: seq<nat>) {
    forall i, j :: 0 <= i < j < |s| ==> s[i] < s[j]
  }

  /** Pickups are reported in index order, each index once. */
  lemma {:induction false} HarvestInOrder(b: Ball, seeds: seq<Seed>, seedType: int, k: nat)
    requires k <= |seeds|
    ensures StrictlyIncreasing(HarvestUpTo(b, seeds, seedType, k).picked)
  {
    if k > 0 {
      HarvestInOrder(b, seeds, seedType, k - 1);
      var h := HarvestUpTo(b, seeds, seedType, k - 1);
      var s := h.seeds[k - 1];
      if !s.collected && InReach(b, s) {
        var p := h.picked + [k - 1];
        assert HarvestUpTo(b, seeds, seedType, k).picked == p;
        forall i, j | 0 <= i < j < |p|
          ensures p[i] < p[j]
        {
          assert p[i] == h.picked[i];
          if j == |p| - 1 {
            assert p[j] == k - 1;
            assert h.picked[i] < k - 1;
          } else {
            assert p[j] == h.picked[j];
            assert h.picked[i] < h.picked[j];
          }
        }
      }
    }
  }

  /** Advancing a palette index modulo 5 commutes with counting steps. */
  lemma AdvanceMod(a: int)
    requires a >= 0
    ensures (a % 5 + 1) % 5 == (a + 1) % 5
  {
    var q := a / 5;
    assert a == 5 * q + a % 5;
    if a % 5 == 4 {
      assert a + 1 == 5 * (q + 1);
    } else {
      assert a + 1 == 5 * q + (a % 5 + 1);
    }
  }

  /**
   * The palette index advances once per pickup, and after a pickup the ball
   * has the colour of the new index.
   */
  lemma {:induction false} HarvestCycles(b: Ball, seeds: seq<Seed>, seedType: int, k: nat)
    requires k <= |seeds| && 0 <= seedType < |Palette|
    ensures var h := HarvestUpTo(b, seeds, seedType, k);
      h.seedType == (seedType + |h.picked|) % |Palette| &&
      (h.picked == [] ==> h.color == b.color) &&
      (h.picked != [] ==> h.color == Palette[h.seedType])
  {
    if k > 0 {
      HarvestCycles(b, seeds, seedType, k - 1);
      var h := HarvestUpTo(b, seeds, seedType, k - 1);
      var s := h.seeds[k - 1];
      if !s.collected && InReach(b, s) {
        AdvanceMod(seedType + |h.picked|);
        assert |h.picked + [k - 1]| == |h.picked| + 1;
      }
    }
  }

  /** With the ball's colour following the palette index, the pass keeps it so. */
  lemma HarvestKeepsPalette(b: Ball, seeds: seq<Seed>, seedType: int)
    requires 0 <= seedType < |Palette| && b.color == Palette[seedType]
    ensures var h := HarvestUpTo(b, seeds, seedType, |seeds|);
      0 <= h.seedType < |Palette| && h.color == Palette[h.seedType]
  {
    HarvestCycles(b, seeds, seedType, |seeds|);
  }

  /** The 1000 ms timer's body: the seed reappears uncollected at a fresh position. */
  function Respawned(seeds: seq<Seed>, i: nat, width: nat, height: nat, rx: real, ry: real): (r: seq<Seed>)
    requires i < |seeds|
    ensures |r| == |seeds| && !r[i].collected
    ensures r[i] == SpawnSeed(width, height, rx, ry)
    ensures forall j :: 0 <= j < |seeds| && j != i ==> r[j] == seeds[j]
  {
    seeds[i := SpawnSeed(width, height, rx, ry)]
  }

  /** A respawned seed lands uncollected in the spawn area, wherever it was picked up. */
  lemma RespawnInSpawnArea(seeds: seq<Seed>, i: nat, width: nat, height: nat, rx: real, ry: real)
    requires i < |seeds| && IsRandom(rx) && IsRandom(ry) && width > 60 && height > 0
    ensures var r := Respawned(seeds, i, width, height, rx, ry);
      !r[i].collected &&
      30.0 <= r[i].x < width as real - 30.0 &&
      50.0 <= r[i].y < height as real * 0.6 + 50.0
  {
    SpawnSeedBounds(width, height, rx, ry);
  }

  // ---------------------------------------------------------------- butterfly

  /** Loose pursuit of a point 60 above the ball, damped by 0.9 above speed 4, plus flutter. */
  function Follow(bf: Butterfly, b: Ball, f: Flutter): (r: Butterfly)
    ensures r.timer == bf.timer + 0.1
    ensures r.x == bf.x + r.vx + f.dx && r.y == bf.y + r.vy + f.dy
  {
    var vx := bf.vx + (b.x - bf.x) * 0.002;
    var vy := bf.vy + ((b.y - 60.0) - bf.y) * 0.002;
    var damp := vx * vx + vy * vy > 16.0;
    var vx1 := if damp then vx * 0.9 else vx;
    var vy1 := if damp then vy * 0.9 else vy;
    Butterfly(bf.x + vx1 + f.dx, bf.y + vy1 + f.dy, vx1, vy1, bf.timer + 0.1)
  }

  /** The pull toward the point 60 above the ball, before the speed limit. */
  function Pull(bf: Butterfly, b: Ball): (real, real) {
    (bf.vx + (b.x - bf.x) * 0.002, bf.vy + ((b.y - 60.0) - bf.y) * 0.002)
  }

  /**
   * The speed limit: a pulled velocity of speed at most 4 is kept; a faster
   * one is scaled by 0.9, so its squared speed drops to 81% and it never
   * speeds up.
   */
  lemma FollowDamping(bf: Butterfly, b: Ball, f: Flutter)
    ensures var (vx, vy) := Pull(bf, b); var r := Follow(bf, b, f);
      (vx * vx + vy * vy <= 16.0 ==> r.vx == vx && r.vy == vy) &&
      (vx * vx + vy * vy > 16.0 ==>
         r.vx == 0.9 * vx && r.vy == 0.9 * vy &&
         r.vx * r.vx + r.vy * r.vy == 0.81 * (vx * vx + vy * vy) < vx * vx + vy * vy)
  {
    var (vx, vy) := Pull(bf, b);
    assert (0.9 * vx) * (0.9 * vx) == 0.81 * (vx * vx);
    assert (0.9 * vy) * (0.9 * vy) == 0.81 * (vy * vy);
  }

  // ---------------------------------------------------------------- the frame

  /** What one frame produces: the new world, whether the jump cue played, and the seeds picked up. */
  datatype Frame = Frame(world: World, jumped: bool, picked: seq<nat>)

  /** Frame counter and the floor line, recomputed from the current height. */
  function Begin(w: World): World {
    w.(time := w.time + 1, floorY := w.height as real - 100.0)
  }

  function SteerPhase(w: World, c: Controls): World {
    w.(ball := Steer(w.ball, c))
  }

  function JumpPhase(w: World, c: Controls): Frame {
    var j := Jump(w.ball, w.jumps, w.jumpHeld, c.jump, w.butterfly, w.width);
    Frame(w.(ball := j.ball, jumps := j.jumps, butterfly := j.butterfly, jumpHeld := c.jump), j.fired, [])
  }

  function MovePhase(w: World): World {
    w.(ball := Integrate(w.ball))
  }

  function Collided(w: World): Contact {
    Collide(w.ball, w.jumps, w.floorY, w.platforms)
  }

  function CollidePhase(w: World): World {
    var c := Collided(w);
    w.(ball := c.ball, jumps := c.jumps, grounded := c.grounded)
  }

  function SproutPhase(w: World, impactY: real, d: Draws): World
    requires 0 <= w.seedType < |Palette|
  {
    w.(flowers := Sprout(w.flowers, w.ball, w.grounded, impactY, w.seedType, d))
  }

  function WallPhase(w: World): World {
    w.(ball := WallClamp(w.ball, w.width))
  }

  function HarvestPhase(w: World): Frame {
    var h := HarvestUpTo(w.ball, w.seeds, w.seedType, |w.seeds|);
    Frame(w.(ball := w.ball.(color := h.color), seedType := h.seedType, seeds := h.seeds), false, h.picked)
  }

  function FollowPhase(w: World, f: Flutter): World {
    w.(butterfly := Follow(w.butterfly, w.ball, f))
  }

  function FlowerPhase(w: World): World {
    w.(flowers := Aged(Live(w.flowers)))
  }

  /** One iteration of the animation loop, in the source's order. */
  function StepSpec(w: World, c: Controls, d: Draws, f: Flutter): (r: Frame)
    requires 0 <= w.seedType < |Palette|
    ensures r.world.width == w.width && r.world.height == w.height && r.world.platforms == w.platforms
    ensures r.world.time == w.time + 1 && r.world.floorY == w.height as real - 100.0
    ensures r.world.jumpHeld == c.jump && |r.world.seeds| == |w.seeds|
    ensures r.world.ball.r == w.ball.r
  {
    var j := JumpPhase(SteerPhase(Begin(w), c), c);
    var moved := MovePhase(j.world);
    var landed := CollidePhase(moved);
    var h := HarvestPhase(WallPhase(SproutPhase(landed, Collided(moved).impactY, d)));
    Frame(FlowerPhase(FollowPhase(h.world, f)), j.jumped, h.picked)
  }

  /** Every frame keeps the between-frames invariant. */
  lemma StepPreservesValid(w: World, c: Controls, d: Draws, f: Flutter)
    requires Valid(w) && ValidDraws(d)
    ensures Valid(StepSpec(w, c, d, f).world)
  {
    var j := JumpPhase(SteerPhase(Begin(w), c), c);
    var moved := MovePhase(j.world);
    var landed := CollidePhase(moved);
    var sprouted := SproutPhase(landed, Collided(moved).impactY, d);
    forall i | 0 <= i < |sprouted.flowers|
      ensures FlowerLooks(sprouted.flowers[i]) && 0 <= sprouted.flowers[i].age
    {
      if i < |landed.flowers| {
        assert FlowerOk(w.flowers[i]);
      }
    }
    var walled := WallPhase(sprouted);
    HarvestKeepsPalette(walled.ball, walled.seeds, walled.seedType);
    var h := HarvestPhase(walled);
    var followed := FollowPhase(h.world, f);
    assert followed.flowers == sprouted.flowers;
    AgingBounds(followed.flowers);
  }

  /** The jump cue plays exactly on a rising edge with a charge left; the edge detector always follows the input. */
  lemma JumpCueRule(w: World, c: Controls, d: Draws, f: Flutter)
    requires Valid(w)
    ensures var fr := StepSpec(w, c, d, f);
      fr.jumped == JumpFires(c.jump, w.jumpHeld, w.jumps) &&
      fr.world.jumpHeld == c.jump
  {
  }

  /**
   * A frame gains jump charges only by coming to rest on the floor or a
   * ledge, and then holds both; with none at the start of a session, no jump
   * is possible before the first resting landing.
   */
  lemma ChargesRefillOnlyAtRest(w: World, c: Controls, d: Draws, f: Flutter)
    requires Valid(w)
    ensures var next := StepSpec(w, c, d, f).world;
      next.jumps > w.jumps ==> next.jumps == MaxJumps && next.ball.vy == 0.0 && next.grounded
  {
    var j := JumpPhase(SteerPhase(Begin(w), c), c);
    var moved := MovePhase(j.world);
    CollideRefillsOnlyAtRest(moved.ball, moved.jumps, moved.floorY, moved.platforms);
  }

  /**
   * A flower is only ever spawned on a grounded frame whose post-bounce speed
   * exceeds 1, so never on a frame where the ball came to rest on the floor.
   */
  lemma {:induction false} NoFlowerWhenRestingOnFloor(b: Ball, jumps: int, floorY: real, ps: seq<Platform>,
                                                      seedType: int, d: Draws, fs: seq<Flower>)
    requires 0 <= seedType < |Palette|
    requires b.y + b.r > floorY && Abs(b.vy * -Bounce) < RestThreshold
    ensures var c := Collide(b, jumps, floorY, ps);
      Sprout(fs, c.ball, c.grounded, c.impactY, seedType, d) == fs
  {
    var c0 := FloorCollision(Contact(b, jumps, false, floorY), floorY);
    RestIsSticky(c0, ps, |ps|);
  }
}
