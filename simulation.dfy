/** The game object: two players, the platforms and the rules that move
    them, one tick at a time. */
module Simulation {
  import opened Physics
  import opened Actors

  class Game {
    const canvasheight: real
    const canvaswidth: real
    const playerWidth: real
    const player1: Player
    const player2: Player
    const platforms: seq<Platform>

    /** The two players are distinct objects. */
    ghost predicate Valid()
      reads this
    {
      player1 != player2
    }

    /** Both players' field values. */
    function State(): Pair
      reads this, player1, player2
    {
      Pair(player1.State(), player2.State())
    }

    constructor (canvasheight: real, canvaswidth: real)
      ensures Valid() && fresh(player1) && fresh(player2)
      ensures this.canvasheight == canvasheight && this.canvaswidth == canvaswidth
      ensures playerWidth == PlayerWidth
      ensures State() == Start(canvaswidth)
      ensures platforms == StartPlatforms()
    {
      this.canvasheight := canvasheight;
      this.canvaswidth := canvaswidth;
      playerWidth := PlayerWidth;
      player1 := new Player(canvaswidth - 180.0, 350.0, PlayerWidth);
      player2 := new Player(150.0, 350.0, PlayerWidth);
      platforms := [Platform(Vec(100.0, 500.0), 600.0, 50.0)];
    }

    method PlatformColision(platform: Platform, player: Player)
      modifies player
      ensures player.State() == Landed(platform, old(player.State()))
    {
      var dx := (player.pos.x + player.width / 2.0) - (platform.pos.x + platform.width / 2.0);
      var dy := (player.pos.y + player.height / 2.0) - (platform.pos.y + platform.height / 2.0);
      var minwidth := player.width / 2.0 + platform.width / 2.0;
      var minheight := player.height / 2.0 + platform.height / 2.0;
      if Abs(dx) < minwidth && Abs(dy) < minheight {
        player.pos := player.pos.(y := platform.pos.y - player.height);
        if player.vel.y > 0.0 {
          player.vel := player.vel.(y := 0.0);
          player.airborne := false;
        }
      }
    }

    method PlayerColision(a: Player, b: Player)
      requires a != b
      modifies a, b
      ensures Pair(a.State(), b.State()) == Pushed(old(a.State()), old(b.State()))
    {
      if a.pos.x < b.pos.x + b.width && b.pos.x < a.pos.x + a.width &&
         a.pos.y < b.pos.y + b.height && b.pos.y < a.pos.y + a.height
      {
        if a.pos.x > b.pos.x {
          a.pos := a.pos.(x := a.pos.x + (a.pos.x - b.pos.x) / 2.0);
          b.pos := b.pos.(x := b.pos.x - (a.pos.x - b.pos.x) / 2.0);
          a.vel := a.vel.(x := Abs(a.vel.x) + Knockback);
          b.vel := b.vel.(x := -Abs(b.vel.x) - Knockback);
        } else {
          b.pos := b.pos.(x := b.pos.x + (b.pos.x - a.pos.x) / 2.0);
          a.pos := a.pos.(x := a.pos.x - (b.pos.x - a.pos.x) / 2.0);
          b.vel := b.vel.(x := Abs(b.vel.x) + Knockback);
          a.vel := a.vel.(x := -Abs(a.vel.x) - Knockback);
        }
      }
    }

    /** `player` is player1 or player2 itself, so the score updates of the
        fall-out rule land on the same object twice when it is the faller. */
    method UpdatePlayerPos(player: Player, dt: real)
      requires Valid() && (player == player1 || player == player2)
      modifies player1, player2
      ensures State() == UpdatedPlayer(old(State()), if player == player1 then First else Second, dt, canvasheight)
    {
      ghost var s := if player == player1 then First else Second;
      ghost var w := State();
      ghost var q := Integrated(w.Get(s), dt);

      player.vel := player.vel.(x := player.vel.x * Friction);
      player.vel := player.vel.(y := player.vel.y + Gravity);
      player.pos := player.pos.(x := player.pos.x + player.vel.x * dt);
      player.pos := player.pos.(y := player.pos.y + player.vel.y * dt);
      assert State() == w.Set(s, q);

      if player.pos.y > canvasheight {
        player.score := player.score - 1;
        player1.score := player1.score + 1;
        player2.score := player2.score + 1;
        player.pos := player.pos.(x := player.initialpos.x);
        player.pos := player.pos.(y := player.initialpos.y);
      }
    }

    method UpdatePos(dt: real)
      requires Valid()
      modifies player1, player2
      ensures State() == Tick(old(State()), platforms, dt, canvasheight)
    {
      var i := 0;
      while i < |platforms|
        invariant 0 <= i <= |platforms|
        invariant player1.State() == LandedOnAll(platforms[..i], old(player1.State()))
        invariant player2.State() == LandedOnAll(platforms[..i], old(player2.State()))
      {
        assert platforms[..i + 1][..i] == platforms[..i];
        PlatformColision(platforms[i], player1);
        PlatformColision(platforms[i], player2);
        i := i + 1;
      }
      assert platforms[..i] == platforms;

      PlayerColision(player1, player2);
      UpdatePlayerPos(player1, dt);
      UpdatePlayerPos(player2, dt);
    }
  }
}
