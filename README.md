# Slapper: a verified model of the simulation core

Slapper is a two-player local platform brawler. Two square players stand on
a static platform. Each can jump and accelerate left or right, and they knock
each other back on contact. A player who drops below the bottom of the canvas
respawns at its starting point, and the other player scores. This project
models the game's deterministic simulation: the `Player` actions, the
`Game` collision and integration rules, one tick of `updatePos`, and the
keyboard-to-action mapping of the view's `handleKeys`. It then proves
properties of them.

Positions and velocities are `real`, so friction 0.85, gravity 0.3, the jump
impulse -8 and the knockback 2 are exact rationals. `dt` is an arbitrary
real parameter.

Layout:

- `physics.dfy` (module `Physics`) holds the rules as functions on values.
  `PlayerState` is a snapshot of a player's fields, and `Pair` holds
  player1 and player2. Each function's contract states what the rule
  guarantees.
- `actors.dfy` (module `Actors`) holds the `Player` class, whose methods
  update its fields in place. Each method promises that its new `State()`
  is the matching `Physics` function of the old one.
- `simulation.dfy` (module `Simulation`) holds the `Game` class.
  `UpdatePos` loops over the platform sequence and then calls the
  collision and integration methods in the source's order.
  `UpdatePlayerPos` receives `player1` or `player2` itself. So the
  fall-out rule's three score updates really alias: the faller is
  decremented, then both players are incremented.
- `controls.dfy` (module `Controls`) holds `HandleKeys`, which applies a
  set of held key codes to the game's players.
- `theorems.dfy` (module `Theorems`) holds lemmas that relate several
  steps: held keys, a tick's scoring, and runs of many frames.

Notes on the code's behaviour, which the model keeps as written:

- **Fall-out scoring** (slapperGame.js:59-61). The faller's score is
  decremented, and then both players' scores are incremented. So the
  faller's score is net unchanged, and the other player gains one.
- **Speed cap** (slapperGame.js:123). `moveRight` checks
  `vel.x < maxspeed` before adding 1. A velocity that friction left just
  under the cap therefore ends above it, by less than one unit
  (`MoveRightCanPassCap`).
- **Landing snap** (slapperGame.js:22). The landing height is exactly
  `platform.pos.y - player.height`, with no rounding.
- **Tick order** (slapperGame.js:70-79). One tick runs every collision
  first and integrates afterwards.
- **No facing direction.** A player has no field for the direction it
  faces (slapperGame.js:94-113).

## Model

| member | source | states |
|---|---|---|
| Physics.Jumped | slapperGame.js:115-120 | the result is always airborne. A grounded player gets vertical velocity -8. An airborne player is unchanged. Position, horizontal velocity, score and body are untouched |
| Physics.MovedRight | slapperGame.js:122-126 | only the horizontal velocity can change. It grows by exactly 1 when below the cap, and nothing changes at or above the cap. A velocity below the cap stays below cap + 1 |
| Physics.MovedLeft | slapperGame.js:128-132 | the mirror image of MovedRight, with the bound -maxspeed |
| Physics.Landed | slapperGame.js:14-28 | a player that does not touch the platform is unchanged. A touching player ends with its bottom edge on the platform's top edge and its x unchanged. It stops and is grounded exactly when it was moving down. Horizontal motion and score never change, and the result never touches the platform |
| Physics.LandedOnAll | slapperGame.js:71-74 | after every platform in turn: only vertical state and the airborne flag change. The flag is never set. The vertical velocity is either kept or, if it was downward, zeroed |
| Physics.Pushed | slapperGame.js:30-50 | only horizontal position and velocity ever change. Without strict overlap, nothing changes. On overlap, the player strictly right of the other (player2 on a tie) leaves with speed abs(vx)+2 to the right and stays on the right. The other leaves with abs(vx)+2 to the left. Each moves away from the other: with d the old gap, the right one moves d/2 further right, and the other moves 3d/4 further left, which is half the gap after the first move |
| Physics.Integrated | slapperGame.js:52-56 | the horizontal velocity becomes 0.85 times itself (same direction, speed decays) and the vertical velocity gains 0.3. Displacement is the new velocity times dt. Score, airborne flag and body are unchanged |
| Physics.UpdatedPlayer | slapperGame.js:52-64 | without fall-out, the player is just integrated and the other player is untouched. On fall-out, the faller is back at its spawn point with its new velocity and its score net unchanged, and the other player's score rises by 1. The score sum rises by exactly the number of fallers |
| Physics.Resolved | slapperGame.js:70-76 | the collision phase of a tick never changes a score, a spawn point, a size or a speed cap |
| Physics.Tick | slapperGame.js:70-79 | one tick keeps every player's spawn point, size and cap, lowers no score, and raises the score sum by the number of players that fell out. TickScoring and FallerRespawns state who scores and where the faller ends; Frame and UpdatePos build on it |
| Actors.Player.constructor | slapperGame.js:94-113 | a new player has height equal to width, maxspeed 10, spawn point equal to its position, score 0, velocity 0 and is not airborne |
| Actors.Player.Jump | slapperGame.js:115-120 | the new field values are Jumped of the old ones |
| Actors.Player.MoveRight | slapperGame.js:122-126 | the new field values are MovedRight of the old ones |
| Actors.Player.MoveLeft | slapperGame.js:128-132 | the new field values are MovedLeft of the old ones |
| Simulation.Game.constructor | slapperGame.js:2-12 | player1 at (canvaswidth-180, 350) and player2 at (150, 350), both 30 wide and distinct. One platform at (100, 500), 600 by 50 |
| Simulation.Game.PlatformColision | slapperGame.js:14-28 | the player's new field values are Landed of the old ones |
| Simulation.Game.PlayerColision | slapperGame.js:30-50 | the two players' new field values are Pushed of the old ones |
| Simulation.Game.UpdatePlayerPos | slapperGame.js:52-67 | both players' new field values are UpdatedPlayer of the old ones, for whichever player was passed, with the score updates aliasing the faller |
| Simulation.Game.UpdatePos | slapperGame.js:70-79 | the loop lands both players on each platform in order. Then the players collide and are integrated, player1 first, which gives Tick of the old state |
| Controls.Steered | slapperGame.js:204-228 | the six interleaved key checks amount to each player acting on its own three keys (Acted) |
| Controls.Acted | slapperGame.js:204-228 | keys never move a player or change its score or body. Without the jump key, vertical velocity and airborne are kept. With it, the player ends airborne. Without a move key, horizontal velocity is kept |
| Controls.HandleKeys | slapperGame.js:204-228 | the players' new field values are Steered of the old ones for the held key set |
| Theorems.HeldRightStaysUnderCap | slapperGame.js:122-126 | any number of right moves never lowers vel.x. They keep it below max(start, maxspeed) + 1 and change nothing else |
| Theorems.HeldLeftStaysOverCap | slapperGame.js:128-132 | any number of left moves never raises vel.x. They keep it above -max(-start, maxspeed) - 1 and change nothing else |
| Theorems.MoveRightCanPassCap | slapperGame.js:123-124 | from just under the cap, one right move ends strictly between maxspeed and maxspeed + 1 |
| Theorems.JumpTwiceIsJumpOnce | slapperGame.js:115-120 | a second jump before landing is a no-op |
| Theorems.OpposingKeysCancel | slapperGame.js:213-227 | holding right and left at a speed inside the cap leaves vel.x unchanged |
| Theorems.TouchesPlatformIsBoxOverlap | slapperGame.js:15-21 | the centre-distance platform test holds exactly when the two boxes strictly overlap edge against edge |
| Theorems.LandingIsIdempotent | slapperGame.js:14-28 | landing twice on one platform is the same as landing once |
| Theorems.PushWidensGap | slapperGame.js:36-48 | on overlap, the horizontal distance between the players becomes exactly 9/4 of what it was. It never shrinks, and it strictly grows when it was positive |
| Theorems.TickScoring | slapperGame.js:58-61 | in one tick, each player's score rises by one exactly when the other player falls out. Its own fall costs it nothing |
| Theorems.FallerRespawns | slapperGame.js:62-63 | a player that falls out during a tick ends the tick at its spawn point |
| Theorems.Frame | slapperGame.js:231-234 | one frame (the held keys, then one tick) never lowers a score and never changes a spawn point, size or speed cap |
| Theorems.RunKeepsBodiesAndScores | slapperGame.js:204-234 | over any run of frames (keys, then a tick), no score decreases and each player keeps its spawn point, size and speed cap |
| Theorems.StartShapeIsKept | slapperGame.js:2-12 | from the game's start, both players stay 30 by 30 with cap 10 and their original spawn points, and their scores stay non-negative |
| Theorems.FallOutScenario | slapperGame.js:52-64 | player1 below an 800 by 625 canvas with vy 1 ends one tick at (620, 350) with vy 1.3 and score 0, and player2's score is 1 |
| Theorems.LandingScenario | slapperGame.js:14-28 | player2 sinking into the platform top at vy 5 is set on it at y 470, stopped and grounded by the collision phase |

## Left out

- Canvas rendering (`drawPlayer`, `drawPlatform`, `drawPlatforms`, `drawBackground`, `draw`) is left out. These are drawing calls with cosmetic colours and fonts.
- Keyboard event wiring (`bindkeys`) is left out. The browser listeners only maintain the held-key map, and `HandleKeys` takes that map as a set of held key codes.
- The frame driver (`start`, `update`) and the `DOMContentLoaded` bootstrap are left out. They are animation-frame timing and DOM setup. `dt` is a parameter of every tick, and `Theorems.Frame` composes the key handling and the tick the way `update` does.
- The `GameView` object's `ctx`, canvas sizes, `lastUpdated` and key map are left out, for the same reasons.
- The `color` and `id` fields are left out. They have no effect on the simulation.
- IEEE-754 rounding of JavaScript numbers is not modelled. All quantities are exact reals.
- `friction` and `gravity` are module constants (`Physics.Friction`, `Physics.Gravity`) rather than `Game` fields. The source sets them once in the constructor and never changes them.
- Simulation.Game.PlayerColision requires its two players to be distinct objects. The only caller passes player1 and player2, which are always distinct.
