/** The rules of the slapper simulation, stated on values.

    Every mutating operation of the game (a player's jump and moves, the
    platform and player collisions, the integration step with its fall-out
    rule, and one whole tick) is given here as a function from the state
    before to the state after. The classes in Actors and Simulation update
    their fields in place and promise to agree with these functions. */
module Physics {

  /** A 2D point or velocity. */
  datatype Vec = Vec(x: real, y: real)

  /** Everything the simulation reads or writes of one player.
      `pos` is the top-left corner of its box; y grows downwards. */
  datatype PlayerState = PlayerState(
    pos: Vec,
    initialpos: Vec,
    vel: Vec,
    width: real,
    height: real,
    maxspeed: real,
    airborne: bool,
    score: int)

  /** A static rectangle; `pos` is its top-left corner. */
  datatype Platform = Platform(pos: Vec, width: real, height: real)

  /** Which of the game's two players. */
  datatype Side = First | Second

  /** The game's two players, player1 then player2. */
  datatype Pair = Pair(p1: PlayerState, p2: PlayerState)
  {
    function Get(s: Side): PlayerState
    {
      if s == First then p1 else p2
    }

    function Set(s: Side, p: PlayerState): Pair
    {
      if s == First then this.(p1 := p) else this.(p2 := p)
    }
  }

  function Other(s: Side): Side
  {
    if s == First then Second else First
  }

  const JumpImpulse: real := -8.0
  const MaxSpeed: real := 10.0
  const Friction: real := 0.85
  const Gravity: real := 0.3
  const Knockback: real := 2.0
  const PlayerWidth: real := 30.0

  function Abs(r: real): (a: real)
    ensures a >= 0.0 && (a == r || a == -r)
  {
    if r < 0.0 then -r else r
  }

  /** The attributes a player never loses: spawn point, size and speed cap. */
  predicate SameBody(p: PlayerState, q: PlayerState)
  {
    p.initialpos == q.initialpos && p.width == q.width &&
    p.height == q.height && p.maxspeed == q.maxspeed
  }

  /** q differs from p at most in its vertical position, vertical velocity
      and airborne flag. */
  predicate VerticalChangeOnly(p: PlayerState, q: PlayerState)
  {
    SameBody(p, q) && q.pos.x == p.pos.x && q.vel.x == p.vel.x && q.score == p.score
  }

  /** q differs from p at most in its horizontal position and velocity. */
  predicate HorizontalChangeOnly(p: PlayerState, q: PlayerState)
  {
    SameBody(p, q) && q.pos.y == p.pos.y && q.vel.y == p.vel.y &&
    q.airborne == p.airborne && q.score == p.score
  }

  /** A freshly constructed player standing at (x, y). */
  function Spawn(x: real, y: real, width: real): PlayerState
  {
    PlayerState(Vec(x, y), Vec(x, y), Vec(0.0, 0.0), width, width, MaxSpeed, false, 0)
  }

  /** The two players as the game's constructor places them. */
  function Start(canvasWidth: real): Pair
  {
    Pair(Spawn(canvasWidth - 180.0, 350.0, PlayerWidth), Spawn(150.0, 350.0, PlayerWidth))
  }

  /** The one platform the game's constructor creates. */
  function StartPlatforms(): seq<Platform>
  {
    [Platform(Vec(100.0, 500.0), 600.0, 50.0)]
  }

  // ---------------------------------------------------------------------
  // Player actions

  /** A grounded player gets the upward impulse and becomes airborne; an
      airborne player is left as it is. */
  function Jumped(p: PlayerState): (r: PlayerState)
    ensures r.airborne
    ensures p.airborne ==> r == p
    ensures !p.airborne ==> r.vel.y == JumpImpulse
    ensures r.pos == p.pos && r.vel.x == p.vel.x && r.score == p.score && SameBody(p, r)
  {
    if p.airborne then p else p.(vel := p.vel.(y := JumpImpulse), airborne := true)
  }

  /** Accelerates rightwards by one unit unless the speed has already
      reached the cap; only the horizontal velocity can change. */
  function MovedRight(p: PlayerState): (r: PlayerState)
    ensures r == p.(vel := Vec(r.vel.x, p.vel.y))
    ensures p.vel.x < p.maxspeed ==> r.vel.x == p.vel.x + 1.0
    ensures p.vel.x >= p.maxspeed ==> r == p
    ensures p.vel.x < p.maxspeed ==> r.vel.x < p.maxspeed + 1.0
  {
    if p.vel.x < p.maxspeed then p.(vel := p.vel.(x := p.vel.x + 1.0)) else p
  }

  /** The mirror image of MovedRight. */
  function MovedLeft(p: PlayerState): (r: PlayerState)
    ensures r == p.(vel := Vec(r.vel.x, p.vel.y))
    ensures p.vel.x > -p.maxspeed ==> r.vel.x == p.vel.x - 1.0
    ensures p.vel.x <= -p.maxspeed ==> r == p
    ensures p.vel.x > -p.maxspeed ==> r.vel.x > -p.maxspeed - 1.0
  {
    if p.vel.x > -p.maxspeed then p.(vel := p.vel.(x := p.vel.x - 1.0)) else p
  }

  // ---------------------------------------------------------------------
  // Collisions

  /** Strict overlap of two axis-aligned boxes, edge against edge. */
  predicate BoxesOverlap(a: Vec, aw: real, ah: real, b: Vec, bw: real, bh: real)
  {
    a.x < b.x + bw && b.x < a.x + aw && a.y < b.y + bh && b.y < a.y + ah
  }

  /** The platform test: the centres are closer, on each axis, than half
      the two sizes added together. */
  predicate TouchesPlatform(plat: Platform, p: PlayerState)
  {
    var dx := (p.pos.x + p.width / 2.0) - (plat.pos.x + plat.width / 2.0);
    var dy := (p.pos.y + p.height / 2.0) - (plat.pos.y + plat.height / 2.0);
    Abs(dx) < p.width / 2.0 + plat.width / 2.0 && Abs(dy) < p.height / 2.0 + plat.height / 2.0
  }

  /** A player touching the platform is put to stand on its top edge; if it
      was moving down it stops and is no longer airborne. Nothing is pushed
      sideways. */
  function Landed(plat: Platform, p: PlayerState): (r: PlayerState)
    ensures VerticalChangeOnly(p, r)
    ensures !TouchesPlatform(plat, p) ==> r == p
    ensures TouchesPlatform(plat, p) ==> r.pos.y + r.height == plat.pos.y
    ensures TouchesPlatform(plat, p) && p.vel.y > 0.0 ==> r.vel.y == 0.0 && !r.airborne
    ensures !(TouchesPlatform(plat, p) && p.vel.y > 0.0) ==> r.vel == p.vel && r.airborne == p.airborne
    ensures !TouchesPlatform(plat, r)
  {
    if TouchesPlatform(plat, p) then
      var q := p.(pos := p.pos.(y := plat.pos.y - p.height));
      if q.vel.y > 0.0 then q.(vel := q.vel.(y := 0.0), airborne := false) else q
    else
      p
  }

  /** The platforms taken in order, each one possibly landing the player. */
  function LandedOnAll(plats: seq<Platform>, p: PlayerState): (r: PlayerState)
    ensures VerticalChangeOnly(p, r)
    ensures r.airborne ==> p.airborne
    ensures r.vel.y == p.vel.y || (p.vel.y > 0.0 && r.vel.y == 0.0)
    ensures r.vel.y <= p.vel.y
    decreases |plats|
  {
    if plats == [] then p else Landed(plats[|plats| - 1], LandedOnAll(plats[..|plats| - 1], p))
  }

  /** How far apart two players stand horizontally. */
  function Gap(a: PlayerState, b: PlayerState): real
  {
    Abs(a.pos.x - b.pos.x)
  }

  /** The player-against-player knockback. Overlapping players are moved
      apart, the right one first and the left one from the right one's new
      place: with d the old gap, the right one moves d/2 further right and
      the left one 3d/4 further left. The right one leaves with its speed grown by the knockback and
      pointing right, the left one likewise pointing left. */
  function Pushed(a: PlayerState, b: PlayerState): (r: Pair)
    ensures HorizontalChangeOnly(a, r.p1) && HorizontalChangeOnly(b, r.p2)
    ensures !BoxesOverlap(a.pos, a.width, a.height, b.pos, b.width, b.height) ==> r == Pair(a, b)
    ensures BoxesOverlap(a.pos, a.width, a.height, b.pos, b.width, b.height) && a.pos.x > b.pos.x ==>
      r.p1.vel.x == Abs(a.vel.x) + Knockback && r.p2.vel.x == -(Abs(b.vel.x) + Knockback) &&
      r.p1.pos.x > r.p2.pos.x &&
      r.p1.pos.x == a.pos.x + (a.pos.x - b.pos.x) / 2.0 &&
      r.p2.pos.x == b.pos.x - 3.0 * (a.pos.x - b.pos.x) / 4.0
    ensures BoxesOverlap(a.pos, a.width, a.height, b.pos, b.width, b.height) && a.pos.x <= b.pos.x ==>
      r.p2.vel.x == Abs(b.vel.x) + Knockback && r.p1.vel.x == -(Abs(a.vel.x) + Knockback) &&
      r.p2.pos.x >= r.p1.pos.x &&
      r.p2.pos.x == b.pos.x + (b.pos.x - a.pos.x) / 2.0 &&
      r.p1.pos.x == a.pos.x - 3.0 * (b.pos.x - a.pos.x) / 4.0
  {
    if !BoxesOverlap(a.pos, a.width, a.height, b.pos, b.width, b.height) then
      Pair(a, b)
    else if a.pos.x > b.pos.x then
      var ax := a.pos.x + (a.pos.x - b.pos.x) / 2.0;
      var bx := b.pos.x - (ax - b.pos.x) / 2.0;
      Pair(a.(pos := a.pos.(x := ax), vel := a.vel.(x := Abs(a.vel.x) + Knockback)),
           b.(pos := b.pos.(x := bx), vel := b.vel.(x := -Abs(b.vel.x) - Knockback)))
    else
      var bx := b.pos.x + (b.pos.x - a.pos.x) / 2.0;
      var ax := a.pos.x - (bx - a.pos.x) / 2.0;
      Pair(a.(pos := a.pos.(x := ax), vel := a.vel.(x := -Abs(a.vel.x) - Knockback)),
           b.(pos := b.pos.(x := bx), vel := b.vel.(x := Abs(b.vel.x) + Knockback)))
  }

  // ---------------------------------------------------------------------
  // Integration and fall-out

  /** One explicit Euler step: friction damps the horizontal velocity,
      gravity adds to the vertical one, and the position moves by the new
      velocity times dt. */
  function Integrated(p: PlayerState, dt: real): (r: PlayerState)
    ensures r.vel.x == Friction * p.vel.x
    ensures Abs(r.vel.x) == Friction * Abs(p.vel.x)
    ensures r.vel.y - p.vel.y == Gravity
    ensures r.pos.x - p.pos.x == r.vel.x * dt && r.pos.y - p.pos.y == r.vel.y * dt
    ensures SameBody(p, r) && r.airborne == p.airborne && r.score == p.score
  {
    var v := Vec(p.vel.x * Friction, p.vel.y + Gravity);
    p.(vel := v, pos := Vec(p.pos.x + v.x * dt, p.pos.y + v.y * dt))
  }

  /** The player drops below the bottom of the canvas in this step. */
  predicate FallsOut(p: PlayerState, dt: real, canvasHeight: real)
  {
    Integrated(p, dt).pos.y > canvasHeight
  }

  function ScoreSum(w: Pair): int
  {
    w.p1.score + w.p2.score
  }

  /** Integrates one player of the pair. If it falls out, its score is
      decremented and then both scores are incremented, and it is put back
      at its spawn point with the velocity it just acquired. */
  function UpdatedPlayer(w: Pair, s: Side, dt: real, canvasHeight: real): (r: Pair)
    ensures var q := Integrated(w.Get(s), dt);
      if FallsOut(w.Get(s), dt, canvasHeight) then
        r.Get(s) == q.(pos := q.initialpos) &&
        r.Get(Other(s)) == w.Get(Other(s)).(score := w.Get(Other(s)).score + 1)
      else
        r.Get(s) == q && r.Get(Other(s)) == w.Get(Other(s))
    ensures ScoreSum(r) == ScoreSum(w) + (if FallsOut(w.Get(s), dt, canvasHeight) then 1 else 0)
  {
    var q := Integrated(w.Get(s), dt);
    var moved := w.Set(s, q);
    if q.pos.y > canvasHeight then
      var lost := moved.Set(s, q.(score := q.score - 1));
      var both := Pair(lost.p1.(score := lost.p1.score + 1), lost.p2.(score := lost.p2.score + 1));
      both.Set(s, both.Get(s).(pos := q.initialpos))
    else
      moved
  }

  // ---------------------------------------------------------------------
  // One tick

  /** The collision phase of a tick: every platform for both players, then
      the two players against each other. */
  function Resolved(w: Pair, plats: seq<Platform>): (r: Pair)
    ensures SameBody(w.p1, r.p1) && SameBody(w.p2, r.p2)
    ensures r.p1.score == w.p1.score && r.p2.score == w.p2.score
  {
    Pushed(LandedOnAll(plats, w.p1), LandedOnAll(plats, w.p2))
  }

  /** A whole tick: collisions, then player1 integrated, then player2.
      Bodies are kept, no score goes down, and the score sum rises by the
      number of players that fell out. */
  function Tick(w: Pair, plats: seq<Platform>, dt: real, canvasHeight: real): (r: Pair)
    ensures SameBody(w.p1, r.p1) && SameBody(w.p2, r.p2)
    ensures r.p1.score >= w.p1.score && r.p2.score >= w.p2.score
    ensures ScoreSum(r) == ScoreSum(w)
      + (if FallsOut(Resolved(w, plats).p1, dt, canvasHeight) then 1 else 0)
      + (if FallsOut(Resolved(w, plats).p2, dt, canvasHeight) then 1 else 0)
  {
    var m := Resolved(w, plats);
    UpdatedPlayer(UpdatedPlayer(m, First, dt, canvasHeight), Second, dt, canvasHeight)
  }
}
