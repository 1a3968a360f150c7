/** The player object, whose fields the game updates in place. */
module Actors {
  import opened Physics

  class Player {
    var pos: Vec
    const initialpos: Vec
    var vel: Vec
    const width: real
    const height: real
    const maxspeed: real
    var airborne: bool
    var score: int

    /** The current field values as a value. */
    function State(): PlayerState
      reads this
    {
      PlayerState(pos, initialpos, vel, width, height, maxspeed, airborne, score)
    }

    /** A square player at rest on the ground at (x, y), spawning there,
        with no score and the standard speed cap. */
    constructor (x: real, y: real, width: real)
      ensures pos == initialpos == Vec(x, y)
      ensures this.width == width && height == width && maxspeed == MaxSpeed
      ensures vel == Vec(0.0, 0.0) && !airborne && score == 0
      ensures State() == Spawn(x, y, width)
    {
      pos := Vec(x, y);
      initialpos := Vec(x, y);
      this.width := width;
      height := width;
      maxspeed := MaxSpeed;
      score := 0;
      vel := Vec(0.0, 0.0);
      airborne := false;
    }

    method Jump()
      modifies this
      ensures State() == Jumped(old(State()))
    {
      if !airborne {
        vel := vel.(y := JumpImpulse);
        airborne := true;
      }
    }

    method MoveRight()
      modifies this
      ensures State() == MovedRight(old(State()))
    {
      if vel.x < maxspeed {
        vel := vel.(x := vel.x + 1.0);
      }
    }

    method MoveLeft()
      modifies this
      ensures State() == MovedLeft(old(State()))
    {
      if vel.x > -maxspeed {
        vel := vel.(x := vel.x - 1.0);
      }
    }
  }
}
