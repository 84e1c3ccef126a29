/**
 * A running session of "The Garden": the state the effect closes over, the
 * input handlers that write to it, and the animation loop body, which updates
 * the state in place phase by phase and is proved to agree with
 * `GardenPhysics.StepSpec`.
 */
module Garden {
  import opened JsCore
  import opened GardenPhysics

  /** `keys[code]`: a code never pressed reads as undefined, i.e. not held. */
  predicate KeyHeld(keys: map<string, bool>, code: string) {
    code in keys && keys[code]
  }

  /** The frame's input: arrow keys (Space also jumps) or the on-screen touch buttons. */
  function ReadControls(keys: map<string, bool>, touch: Controls): Controls {
    Controls(
      KeyHeld(keys, "ArrowLeft") || touch.left,
      KeyHeld(keys, "ArrowRight") || touch.right,
      KeyHeld(keys, "ArrowUp") || KeyHeld(keys, "Space") || touch.jump)
  }

  /** A key that is held down on its own drives exactly its control. */
  lemma ControlsFromKeys(keys: map<string, bool>, touch: Controls)
    requires touch == Controls(false, false, false)
    ensures ReadControls(keys, touch).left <==> KeyHeld(keys, "ArrowLeft")
    ensures ReadControls(keys, touch).right <==> KeyHeld(keys, "ArrowRight")
    ensures ReadControls(keys, touch).jump <==> KeyHeld(keys, "ArrowUp") || KeyHeld(keys, "Space")
  {
  }

  /** A touch button is held as long as the key of the same role. */
  lemma TouchOverridesKeys(keys: map<string, bool>, touch: Controls)
    requires touch == Controls(true, true, true)
    ensures ReadControls(keys, touch) == Controls(true, true, true)
  {
  }

  /** Small scrolls are ignored; a wheel delta beyond 50 in either direction leaves the garden. */
  predicate WheelExits(deltaY: real) {
    Abs(deltaY) > 50.0
  }

  /**
   * `resize()`: on a viewport at least 768 wide the canvas fits its container
   * (when it has one); on a narrower viewport it fills the window.
   */
  function CanvasSize(innerWidth: nat, innerHeight: nat, parent: Option<(nat, nat)>,
                      current: (nat, nat)): (size: (nat, nat))
    ensures innerWidth < 768 ==> size == (innerWidth, innerHeight)
    ensures innerWidth >= 768 && parent.Some? ==> size == parent.value
    ensures innerWidth >= 768 && parent.None? ==> size == current
  {
    if innerWidth >= 768 then (if parent.Some? then parent.value else current)
    else (innerWidth, innerHeight)
  }

  /** Which on-screen button a touch event belongs to. */
  datatype Button = LeftButton | RightButton | JumpButton

  function Pressed(touch: Controls, button: Button, down: bool): (r: Controls)
    ensures button.LeftButton? ==> r == touch.(left := down)
    ensures button.RightButton? ==> r == touch.(right := down)
    ensures button.JumpButton? ==> r == touch.(jump := down)
  {
    match button
    case LeftButton => touch.(left := down)
    case RightButton => touch.(right := down)
    case JumpButton => touch.(jump := down)
  }

  /** The control a touch button stands for. */
  function ControlOf(c: Controls, button: Button): bool {
    match button
    case LeftButton => c.left
    case RightButton => c.right
    case JumpButton => c.jump
  }

  /**
   * A pressed touch button drives its control whatever the keys, and a
   * touch on one button leaves the other two controls as they were.
   */
  lemma TouchDrives(keys: map<string, bool>, touch: Controls, button: Button, other: Button)
    requires other != button
    ensures ControlOf(ReadControls(keys, Pressed(touch, button, true)), button)
    ensures ControlOf(ReadControls(keys, Pressed(touch, button, false)), other) ==
      ControlOf(ReadControls(keys, touch), other)
  {
  }

  class Session {
    var width: nat
    var height: nat
    var ball: Ball
    var floorY: real
    var grounded: bool
    var jumps: int
    var jumpHeld: bool
    var butterfly: Butterfly
    var flowers: seq<Flower>
    var seeds: seq<Seed>
    var seedType: int
    var platforms: seq<Platform>
    var time: nat
    var keys: map<string, bool>
    var touch: Controls
    var playing: bool

    /** The part of the session the animation loop reads and writes. */
    function State(): World
      reads this
    {
      World(width, height, ball, floorY, grounded, jumps, jumpHeld, butterfly,
            flowers, seeds, seedType, platforms, time)
    }

    predicate Valid()
      reads this
    {
      GardenPhysics.Valid(State())
    }

    /**
     * Entering the garden on a canvas already sized to `w` by `h`. The touch
     * buttons' state belongs to the component and survives from before.
     */
    constructor Start(w: nat, h: nat, seedDraws: seq<real>, touchState: Controls)
      requires |seedDraws| == 2 * SeedCount
      ensures State() == InitialWorld(w, h, seedDraws)
      ensures keys == map[] && touch == touchState && playing
      ensures Valid()
    {
      width, height := w, h;
      ball := Ball(w as real / 2.0, h as real / 2.0, 0.0, 0.0, BallRadius, Palette[0]);
      floorY := h as real - 100.0;
      grounded := false;
      jumps := 0;
      jumpHeld := false;
      butterfly := Butterfly(-50.0, h as real / 2.0, 0.0, 0.0, 0.0);
      flowers := [];
      seedType := 0;
      platforms := GeneratePlatforms(w, h);
      time := 0;
      keys := map[];
      touch := touchState;
      playing := true;
      var s: seq<Seed> := [];
      for i := 0 to SeedCount
        invariant s == InitialSeeds(w, h, seedDraws, i)
      {
        s := s + [SpawnSeed(w, h, seedDraws[2 * i], seedDraws[2 * i + 1])];
      }
      seeds := s;
      InitialWorldValid(w, h, seedDraws);
    }

    /** `handleDown`: Escape leaves the garden without recording the key. */
    method KeyDown(key: string, code: string)
      modifies this`keys, this`playing
      ensures key == "Escape" ==> keys == old(keys) && !playing
      ensures key != "Escape" ==> keys == old(keys)[code := true] && playing == old(playing)
    {
      if key == "Escape" {
        playing := false;
        return;
      }
      keys := keys[code := true];
    }

    /** `handleUp`. */
    method KeyUp(code: string)
      modifies this`keys
      ensures keys == old(keys)[code := false]
    {
      keys := keys[code := false];
    }

    /** `handleTouchStart` (`down`) and `handleTouchEnd`. */
    method Touch(button: Button, down: bool)
      modifies this`touch
      ensures touch == Pressed(old(touch), button, down)
    {
      match button
      case LeftButton => touch := touch.(left := down);
      case RightButton => touch := touch.(right := down);
      case JumpButton => touch := touch.(jump := down);
    }

    /** `handleWheel`. */
    method Wheel(deltaY: real)
      modifies this`playing
      ensures playing == (old(playing) && !WheelExits(deltaY))
    {
      if Abs(deltaY) > 50.0 {
        playing := false;
      }
    }

    /** The exit button. */
    method Exit()
      modifies this`playing
      ensures !playing
    {
      playing := false;
    }

    /** The window's resize listener; the ledges keep their original layout. */
    method Resize(innerWidth: nat, innerHeight: nat, parent: Option<(nat, nat)>)
      modifies this`width, this`height
      ensures (width, height) == CanvasSize(innerWidth, innerHeight, parent, (old(width), old(height)))
    {
      if innerWidth >= 768 {
        if parent.Some? {
          width, height := parent.value.0, parent.value.1;
        }
      } else {
        width, height := innerWidth, innerHeight;
      }
    }

    /** The 1000 ms timer a pickup starts: the seed reappears at a fresh spot. */
    method Respawn(i: nat, rx: real, ry: real)
      requires i < |seeds|
      modifies this`seeds
      ensures seeds == Respawned(old(seeds), i, width, height, rx, ry)
      ensures old(Valid()) ==> Valid()
    {
      var spot := SpawnSeed(width, height, rx, ry);
      seeds := seeds[i := seeds[i].(collected := false, x := spot.x, y := spot.y)];
    }

    // ------------------------------------------------------------ the loop body, phase by phase

    method BeginFrame()
      modifies this`time, this`floorY
      ensures State() == Begin(old(State()))
    {
      time := time + 1;
      floorY := height as real - 100.0;
    }

    method ApplySteering(c: Controls)
      modifies this`ball
      ensures State() == SteerPhase(old(State()), c)
    {
      if c.left {
        ball := ball.(vx := ball.vx - 0.6);
      }
      if c.right {
        ball := ball.(vx := ball.vx + 0.6);
      }
    }

    method ApplyJump(c: Controls) returns (fired: bool)
      modifies this`ball, this`jumps, this`butterfly, this`jumpHeld
      ensures State() == JumpPhase(old(State()), c).world && fired == JumpPhase(old(State()), c).jumped
    {
      fired := false;
      if c.jump && !jumpHeld {
        if jumps > 0 {
          ball := ball.(vy := -14.0);
          jumps := jumps - 1;
          fired := true;
          if butterfly.x < -100.0 || butterfly.x > width as real + 100.0 {
            butterfly := butterfly.(x := ball.x, y := ball.y - 100.0);
          }
        }
      }
      jumpHeld := c.jump;
    }

    method Move()
      modifies this`ball
      ensures State() == MovePhase(old(State()))
    {
      ball := ball.(vy := ball.vy + Gravity);
      ball := ball.(x := ball.x + ball.vx);
      ball := ball.(y := ball.y + ball.vy);
      ball := ball.(vx := ball.vx * Friction);
    }

    /**
     * Landing on a surface whose top is at `top`, as the floor branch and each
     * ledge branch do it: sit on the surface, rebound at half speed, and come
     * to rest with both charges back when the rebound is slow.
     */
    method LandOn(top: real)
      modifies this`ball, this`jumps, this`grounded
      ensures Contact(ball, jumps, grounded, top) == Land(Contact(old(ball), old(jumps), old(grounded), top), top)
    {
      ball := ball.(y := top - ball.r);
      ball := ball.(vy := ball.vy * -Bounce);
      grounded := true;
      if Abs(ball.vy) < Gravity * 3.0 {
        ball := ball.(vy := 0.0);
        jumps := MaxJumps;
      }
    }

    /** Floor, then the `platforms.forEach` pass; returns `impactSurfaceY`. */
    method ApplyCollisions() returns (impactY: real)
      modifies this`ball, this`jumps, this`grounded
      ensures State() == CollidePhase(old(State()))
      ensures impactY == Collided(old(State())).impactY
    {
      grounded := false;
      impactY := floorY;
      if ball.y + ball.r > floorY {
        LandOn(floorY);
      }
      ghost var start := Contact(ball, jumps, grounded, impactY);
      assert start == FloorCollision(Contact(old(ball), old(jumps), false, floorY), floorY);
      for i := 0 to |platforms|
        invariant Contact(ball, jumps, grounded, impactY) == PlatformsUpTo(start, platforms, i)
      {
        var p := platforms[i];
        if ball.x > p.x - ball.r && ball.x < p.x + p.w + ball.r {
          if ball.y + ball.r >= p.y && ball.y + ball.r <= p.y + p.h + Max(15.0, ball.vy + 5.0) && ball.vy >= 0.0 {
            LandOn(p.y);
            impactY := p.y;
          }
        }
      }
      assert Contact(ball, jumps, grounded, impactY) == Collided(old(State()));
    }

    method Grow(impactY: real, d: Draws)
      requires 0 <= seedType < |Palette|
      modifies this`flowers
      ensures State() == SproutPhase(old(State()), impactY, d)
    {
      if grounded && Abs(ball.vy) > 1.0 && d.spawn > 0.4 {
        flowers := flowers + [Flower(ball.x, impactY, 0, (d.kind * 5.0).Floor, Palette[seedType], 0.5 + d.scale * 0.5)];
      }
    }

    method ApplyWalls()
      modifies this`ball
      ensures State() == WallPhase(old(State()))
    {
      if ball.x < ball.r {
        ball := ball.(x := ball.r, vx := ball.vx * -0.5);
      }
      if ball.x > width as real - ball.r {
        ball := ball.(x := width as real - ball.r, vx := ball.vx * -0.5);
      }
    }

    /** The `seeds.forEach` pickup pass; returns the indices picked up, in order. */
    method Collect() returns (picked: seq<nat>)
      modifies this`seeds, this`seedType, this`ball
      ensures State() == HarvestPhase(old(State())).world
      ensures picked == HarvestPhase(old(State())).picked
    {
      ghost var b0 := ball;
      ghost var s0 := seeds;
      ghost var t0 := seedType;
      picked := [];
      for i := 0 to |seeds|
        invariant |seeds| == |s0| && ball == b0.(color := ball.color)
        invariant Harvest(ball.color, seedType, seeds, picked) == HarvestUpTo(b0, s0, t0, i)
      {
        var seed := seeds[i];
        if !seed.collected {
          var dx := ball.x - seed.x;
          var dy := ball.y - seed.y;
          if dx * dx + dy * dy < (ball.r + 20.0) * (ball.r + 20.0) {
            seeds := seeds[i := seed.(collected := true)];
            seedType := (seedType + 1) % |Palette|;
            ball := ball.(color := Palette[seedType]);
            picked := picked + [i];
          }
        }
      }
    }

    method Flutter(f: Flutter)
      modifies this`butterfly
      ensures State() == FollowPhase(old(State()), f)
    {
      var b := butterfly;
      b := b.(timer := b.timer + 0.1);
      var dx := ball.x - b.x;
      var dy := (ball.y - 60.0) - b.y;
      b := b.(vx := b.vx + dx * 0.002, vy := b.vy + dy * 0.002);
      if b.vx * b.vx + b.vy * b.vy > 16.0 {
        b := b.(vx := b.vx * 0.9, vy := b.vy * 0.9);
      }
      b := b.(x := b.x + b.vx + f.dx, y := b.y + b.vy + f.dy);
      butterfly := b;
    }

    /** `flowers.filter(f => f.age < 400)` followed by `f.age++` on each survivor. */
    method AgeFlowers()
      modifies this`flowers
      ensures State() == FlowerPhase(old(State()))
    {
      var live: seq<Flower> := [];
      var i := |flowers|;
      while i > 0
        invariant 0 <= i <= |flowers|
        invariant live == Live(flowers[i..])
      {
        i := i - 1;
        assert flowers[i..] == [flowers[i]] + flowers[i + 1..];
        if flowers[i].age < FlowerLifetime {
          live := [flowers[i]] + live;
        }
      }
      assert flowers[0..] == flowers;
      var aged := live;
      for j := 0 to |aged|
        invariant |aged| == |live|
        invariant forall k :: 0 <= k < j ==> aged[k] == live[k].(age := live[k].age + 1)
        invariant forall k :: j <= k < |aged| ==> aged[k] == live[k]
      {
        aged := aged[j := aged[j].(age := aged[j].age + 1)];
      }
      flowers := aged;
    }

    /** From the frame counter to integration: steering, the jump rule and gravity. */
    method Advance(c: Controls) returns (jumped: bool)
      modifies this`time, this`floorY, this`ball, this`jumps, this`butterfly, this`jumpHeld
      ensures var j := JumpPhase(SteerPhase(Begin(old(State())), c), c);
        State() == MovePhase(j.world) && jumped == j.jumped
    {
      BeginFrame();
      ApplySteering(c);
      jumped := ApplyJump(c);
      Move();
    }

    /** Collisions, the growth trigger and the walls. */
    method Settle(d: Draws)
      requires 0 <= seedType < |Palette|
      modifies this`ball, this`jumps, this`grounded, this`flowers
      ensures State() == WallPhase(SproutPhase(CollidePhase(old(State())), Collided(old(State())).impactY, d))
    {
      var impactY := ApplyCollisions();
      Grow(impactY, d);
      ApplyWalls();
    }

    /** Seed pickups, the butterfly and the flowers' ageing. */
    method Tend(f: Flutter) returns (picked: seq<nat>)
      modifies this`seeds, this`seedType, this`ball, this`butterfly, this`flowers
      ensures var h := HarvestPhase(old(State()));
        State() == FlowerPhase(FollowPhase(h.world, f)) && picked == h.picked
    {
      picked := Collect();
      Flutter(f);
      AgeFlowers();
    }

    /**
     * One iteration of the animation loop. Returns whether the jump cue
     * played and which seeds were picked up (each starts a respawn timer).
     */
    method Step(d: Draws, f: Flutter) returns (jumped: bool, picked: seq<nat>)
      requires Valid() && ValidDraws(d)
      modifies this`time, this`floorY, this`ball, this`jumps, this`butterfly, this`jumpHeld,
               this`grounded, this`flowers, this`seeds, this`seedType
      ensures var fr := StepSpec(old(State()), ReadControls(keys, touch), d, f);
        State() == fr.world && jumped == fr.jumped && picked == fr.picked
      ensures Valid()
    {
      ghost var w0 := State();
      var c := ReadControls(keys, touch);
      ghost var j := JumpPhase(SteerPhase(Begin(w0), c), c);
      jumped := Advance(c);
      ghost var moved := MovePhase(j.world);
      assert State() == moved;
      Settle(d);
      ghost var walled := WallPhase(SproutPhase(CollidePhase(moved), Collided(moved).impactY, d));
      assert State() == walled;
      ghost var h := HarvestPhase(walled);
      picked := Tend(f);
      assert StepSpec(w0, c, d, f) == Frame(FlowerPhase(FollowPhase(h.world, f)), j.jumped, h.picked);
      StepPreservesValid(w0, c, d, f);
    }
  }
}
