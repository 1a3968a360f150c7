/** The keyboard mapping of the game view: held keys become jumps and moves. */
module Controls {
  import opened Physics
  import opened Actors
  import opened Simulation

  /** Key codes: arrows for player1, W/A/D for player2. */
  const KeyLeft: int := 37
  const KeyUp: int := 38
  const KeyRight: int := 39
  const KeyA: int := 65
  const KeyD: int := 68
  const KeyW: int := 87

  /** One player's response to its three keys, applied jump, right, left. */
  function Acted(p: PlayerState, jump: bool, right: bool, left: bool): (r: PlayerState)
    ensures r.pos == p.pos && r.score == p.score && SameBody(p, r)
    ensures !jump ==> r.vel.y == p.vel.y && r.airborne == p.airborne
    ensures jump ==> r.airborne
    ensures !right && !left ==> r.vel.x == p.vel.x
  {
    var j := if jump then Jumped(p) else p;
    var rt := if right then MovedRight(j) else j;
    if left then MovedLeft(rt) else rt
  }

  /** The six key checks in the order the view makes them: jump p1, jump p2,
      right p1, right p2, left p1, left p2. Each player only ever sees its
      own keys, so the interleaving is the same as acting per player. */
  function Steered(w: Pair, keys: set<int>): (r: Pair)
    ensures r == Pair(Acted(w.p1, KeyUp in keys, KeyRight in keys, KeyLeft in keys),
                      Acted(w.p2, KeyW in keys, KeyD in keys, KeyA in keys))
  {
    var a := if KeyUp in keys then w.(p1 := Jumped(w.p1)) else w;
    var b := if KeyW in keys then a.(p2 := Jumped(a.p2)) else a;
    var c := if KeyRight in keys then b.(p1 := MovedRight(b.p1)) else b;
    var d := if KeyD in keys then c.(p2 := MovedRight(c.p2)) else c;
    var e := if KeyLeft in keys then d.(p1 := MovedLeft(d.p1)) else d;
    if KeyA in keys then e.(p2 := MovedLeft(e.p2)) else e
  }

  /** Applies the held keys (those whose code is in `keys`) to the game's
      players. */
  method HandleKeys(game: Game, keys: set<int>)
    requires game.Valid()
    modifies game.player1, game.player2
    ensures game.State() == Steered(old(game.State()), keys)
  {
    if KeyUp in keys {
      game.player1.Jump();
    }
    if KeyW in keys {
      game.player2.Jump();
    }
    if KeyRight in keys {
      game.player1.MoveRight();
    }
    if KeyD in keys {
      game.player2.MoveRight();
    }
    if KeyLeft in keys {
      game.player1.MoveLeft();
    }
    if KeyA in keys {
      game.player2.MoveLeft();
    }
  }
}
