/** Properties that relate several steps of the simulation. */
module Theorems {
  import opened Physics
  import opened Controls

  function Max(a: real, b: real): real
  {
    if a < b then b else a
  }

  /** `n` consecutive right moves, as when the key is held for `n` frames
      and nothing else happens in between. */
  function MovesRight(p: PlayerState, n: nat): PlayerState
  {
    if n == 0 then p else MovedRight(MovesRight(p, n - 1))
  }

  function MovesLeft(p: PlayerState, n: nat): PlayerState
  {
    if n == 0 then p else MovedLeft(MovesLeft(p, n - 1))
  }

  /** Holding right never takes the velocity a whole unit past the larger of
      the cap and where it started, and never slows the player down. */
  lemma {:induction false} HeldRightStaysUnderCap(p: PlayerState, n: nat)
    ensures p.vel.x <= MovesRight(p, n).vel.x < Max(p.vel.x, p.maxspeed) + 1.0
    ensures MovesRight(p, n) == p.(vel := Vec(MovesRight(p, n).vel.x, p.vel.y))
  {
    if n > 0 {
      HeldRightStaysUnderCap(p, n - 1);
    }
  }

  lemma {:induction false} HeldLeftStaysOverCap(p: PlayerState, n: nat)
    ensures -Max(-p.vel.x, p.maxspeed) - 1.0 < MovesLeft(p, n).vel.x <= p.vel.x
    ensures MovesLeft(p, n) == p.(vel := Vec(MovesLeft(p, n).vel.x, p.vel.y))
  {
    if n > 0 {
      HeldLeftStaysOverCap(p, n - 1);
    }
  }

  /** The cap is checked before the unit is added, so a velocity that
      friction left just under the cap ends above it. */
  lemma MoveRightCanPassCap(p: PlayerState)
    requires p.maxspeed - 1.0 < p.vel.x < p.maxspeed
    ensures p.maxspeed < MovedRight(p).vel.x < p.maxspeed + 1.0
  {
  }

  /** A second jump before landing does nothing. */
  lemma JumpTwiceIsJumpOnce(p: PlayerState)
    ensures Jumped(Jumped(p)) == Jumped(p)
  {
  }

  /** Holding both directions at a speed inside the cap leaves the
      horizontal velocity where it was. */
  lemma OpposingKeysCancel(p: PlayerState, jump: bool)
    requires -p.maxspeed - 1.0 < p.vel.x < p.maxspeed
    ensures Acted(p, jump, true, true).vel.x == p.vel.x
  {
  }

  /** The centre-distance test used for platforms is the same as strict
      edge-against-edge overlap of the two boxes. */
  lemma TouchesPlatformIsBoxOverlap(plat: Platform, p: PlayerState)
    ensures TouchesPlatform(plat, p) <==>
      BoxesOverlap(p.pos, p.width, p.height, plat.pos, plat.width, plat.height)
  {
  }

  /** Landing on the same platform twice is landing once. */
  lemma LandingIsIdempotent(plat: Platform, p: PlayerState)
    ensures Landed(plat, Landed(plat, p)) == Landed(plat, p)
  {
  }

  /** The knockback multiplies the horizontal distance between two
      overlapping players by 9/4, whichever of them is on the right. */
  lemma PushWidensGap(a: PlayerState, b: PlayerState)
    requires BoxesOverlap(a.pos, a.width, a.height, b.pos, b.width, b.height)
    ensures Gap(Pushed(a, b).p1, Pushed(a, b).p2) == 9.0 / 4.0 * Gap(a, b)
    ensures Gap(Pushed(a, b).p1, Pushed(a, b).p2) >= Gap(a, b)
    ensures Gap(a, b) > 0.0 ==> Gap(Pushed(a, b).p1, Pushed(a, b).p2) > Gap(a, b)
  {
  }

  /** In one tick each player scores exactly when the other one falls out;
      a player's own fall costs it nothing. */
  lemma TickScoring(w: Pair, plats: seq<Platform>, dt: real, canvasHeight: real)
    ensures var m := Resolved(w, plats);
      var r := Tick(w, plats, dt, canvasHeight);
      r.p1.score == w.p1.score + (if FallsOut(m.p2, dt, canvasHeight) then 1 else 0) &&
      r.p2.score == w.p2.score + (if FallsOut(m.p1, dt, canvasHeight) then 1 else 0)
  {
  }

  /** A player that falls out in a tick is back at its spawn point at the
      end of it. */
  lemma FallerRespawns(w: Pair, plats: seq<Platform>, dt: real, canvasHeight: real, s: Side)
    requires FallsOut(Resolved(w, plats).Get(s), dt, canvasHeight)
    ensures Tick(w, plats, dt, canvasHeight).Get(s).pos == w.Get(s).initialpos
  {
  }

  /** One animation frame of the view: the held keys, then one tick. No
      score goes down, and no player's spawn point, size or cap changes. */
  function Frame(w: Pair, keys: set<int>, plats: seq<Platform>, dt: real, canvasHeight: real): (r: Pair)
    ensures SameBody(w.p1, r.p1) && SameBody(w.p2, r.p2)
    ensures r.p1.score >= w.p1.score && r.p2.score >= w.p2.score
  {
    Tick(Steered(w, keys), plats, dt, canvasHeight)
  }

  /** A run of frames, one per (held keys, dt) entry, in order. */
  function Run(w: Pair, inputs: seq<(set<int>, real)>, plats: seq<Platform>, canvasHeight: real): Pair
    decreases |inputs|
  {
    if inputs == [] then w
    else
      var last := inputs[|inputs| - 1];
      Frame(Run(w, inputs[..|inputs| - 1], plats, canvasHeight), last.0, plats, last.1, canvasHeight)
  }

  /** Whatever keys are held and however long the frames are, no score ever
      goes down, and each player keeps its spawn point, its size and its
      speed cap. */
  lemma {:induction false} RunKeepsBodiesAndScores(w: Pair, inputs: seq<(set<int>, real)>, plats: seq<Platform>, canvasHeight: real)
    ensures var r := Run(w, inputs, plats, canvasHeight);
      SameBody(w.p1, r.p1) && SameBody(w.p2, r.p2) &&
      r.p1.score >= w.p1.score && r.p2.score >= w.p2.score
  {
    if inputs != [] {
      RunKeepsBodiesAndScores(w, inputs[..|inputs| - 1], plats, canvasHeight);
    }
  }

  /** From the game's start, both players stay square, 30 wide, capped at
      10 and spawning where they started. */
  lemma StartShapeIsKept(canvasWidth: real, inputs: seq<(set<int>, real)>, canvasHeight: real)
    ensures var r := Run(Start(canvasWidth), inputs, StartPlatforms(), canvasHeight);
      r.p1.width == r.p1.height == PlayerWidth && r.p2.width == r.p2.height == PlayerWidth &&
      r.p1.maxspeed == MaxSpeed && r.p2.maxspeed == MaxSpeed &&
      r.p1.initialpos == Vec(canvasWidth - 180.0, 350.0) && r.p2.initialpos == Vec(150.0, 350.0) &&
      r.p1.score >= 0 && r.p2.score >= 0
  {
    RunKeepsBodiesAndScores(Start(canvasWidth), inputs, StartPlatforms(), canvasHeight);
  }

  /** Player1 placed below the bottom of an 800 by 625 canvas with a small
      downward speed: after one tick it is back at its spawn point with its
      score unchanged, and player2 has scored. */
  lemma FallOutScenario(dt: real)
    requires 0.0 <= dt <= 100.0
    ensures var s := Start(800.0);
      var w := s.(p1 := s.p1.(pos := Vec(620.0, 700.0), vel := Vec(0.0, 1.0)));
      var r := Tick(w, StartPlatforms(), dt, 625.0);
      r.p1.pos == Vec(620.0, 350.0) && r.p1.score == 0 && r.p2.score == 1 &&
      r.p1.vel == Vec(0.0, 1.3)
  {
  }

  /** A player sinking into the platform's top edge is set on it, stopped
      and grounded by the collision phase, before gravity acts again. */
  lemma LandingScenario()
    ensures var s := Start(800.0);
      var w := s.(p2 := s.p2.(pos := Vec(150.0, 475.0), vel := Vec(0.0, 5.0), airborne := true));
      var m := Resolved(w, StartPlatforms());
      m.p2.pos == Vec(150.0, 470.0) && m.p2.vel == Vec(0.0, 0.0) && !m.p2.airborne
  {
  }
}
