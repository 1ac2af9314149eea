# Star Battle player and menu systems in Dafny

This project models the game logic of a small Bevy arcade shooter: the player and
menu systems in `src/player.rs` and `src/menu.rs`. The Bevy world is replaced by
the class `Game.World`. The player resource (`PlayerState`) and the component values
are fields of that class. Each query is a sequence of entity records, and
`get_single` succeeds exactly when the sequence holds one record. Each system is a
method that rewrites the fields it writes. The decisions those systems take are
pure functions in the `Player` and `Menu` modules:

- the keyboard-to-velocity table;
- the respawn guard and the record of a freshly spawned player;
- the pair of lasers fired by one shot;
- the life-bar width and the score text.

The lemmas state what the systems promise.

Files:

- `components.dfy`: the component records of `src/components.rs` (`Velocity`, `Movable`,
  `SpriteSize`, `Life`, `MaxLife`) and `Config`, which holds the crate-level constants
  and the window size.
- `decimal.dfy`: the decimal text that `format!("{}", n)` gives for a natural number,
  a reader for it, and round trips in both directions.
- `player.dfy`: the pure decisions of `src/player.rs`.
- `menu.dfy`: `life_width`, the life-bar and score-text updates, and the UI values
  created at startup.
- `game.dfy`: the world class, one method per system, and a client method `Session`
  that runs a short game.

`Game.World.Valid()` is the world invariant: a player entity exists exactly while
`PlayerState.on` holds, so there is never more than one. Every system method and the
hook `PlayerShot` state that they keep it.

`PlayerShot` stands for the damage code, which is not part of this model. It removes
the player and, through `Player.Hit`, sets `on` to false and records the time of the hit
in `last_shot`.

`PlayerState`, `spawned()`, `PlayerState::default()` and the constants are defined in
`src/main.rs`, which is not part of this model. They are taken as follows:

- `PlayerState` is `(on, last_shot, score)`;
- `spawned()` sets `on` and, as assumed here, leaves `last_shot` and `score` unchanged;
- the default is `(false, -1, 0)`;
- the constants are fields of `Config`.

`ToFloat` and the `ScoreText` tag are imported from `crate::components`
(src/player.rs:4, src/menu.rs:4), but neither is defined in the `src/components.rs`
modelled here. `Menu.LifeWidth` assumes that `to_float()` of a `Life` is its value
(`life.0 as f32`), taken as an exact real.

Three details of the code shape the model:

- Respawn needs `now > last_shot + PLAYER_RESPAWN_DELAY`. The comparison is strict
  (src/player.rs:85), so nothing respawns at exactly the delay.
- The score pass writes only when exactly one `ScoreText` entity exists
  (src/menu.rs:112).
- When a player exists, the life-bar pass aborts through `expect` unless exactly one
  PlayerInfo+Life sprite exists (src/menu.rs:102-103). This is the precondition of
  `PlayerLifeSystem`.

`life_width` and `player_life_system` appear twice, identically, at src/player.rs:177-195
and src/menu.rs:90-108. `Menu.LifeWidth` and `Menu.LifeBarsAfter` stand for both copies,
so the rows below cite either copy.

`src/player.rs:34-73` and `src/menu.rs:19-59` both create a PlayerInfo+Life bar at
startup. If both plugins are registered, two such bars exist, and the `expect` of
`player_life_system` would abort as soon as a player exists. Plugin registration is
in `src/main.rs`, which is not part of this model. The model starts from the menu's
entities only.

## Model

| member | source | states |
|---|---|---|
| `Player.KeyboardVelocity` | src/player.rs:158-170 | the key table, arm for arm; its properties are stated by `KeyboardVelocityIsDirection`, `SingleKeyIsAxisUnit`, `CrossPairIsDiagonal`, `StopsExactlyWhenCancelled` and `KeyboardMirror` |
| `Player.KeyboardVelocityIsDirection` | src/player.rs:158-170 | the key table equals an independent rule: it gives the axis signs (scaled by FRAC_1_SQRT_2 on a diagonal) when every held key contributes to a sign, and zero otherwise |
| `Player.SingleKeyIsAxisUnit` | src/player.rs:159-162 | one held key gives its axis unit vector: left (-1,0), right (1,0), up (0,1), down (0,-1) |
| `Player.CrossPairIsDiagonal` | src/player.rs:164-167 | one horizontal plus one vertical key give a diagonal; x is negative iff Left, y is positive iff Up, and both magnitudes are FRAC_1_SQRT_2 |
| `Player.StopsExactlyWhenCancelled` | src/player.rs:158-169 | the velocity is zero if and only if no key is held or an opposing pair is held; three or four keys always give zero |
| `Player.KeyboardMirror` | src/player.rs:158-170 | swapping Left/Right negates vx and keeps vy; swapping Up/Down negates vy and keeps vx |
| `Player.RespawnDue` | src/player.rs:85 | the spawn guard with the -1 sentinel and the strict comparison; its properties are stated by `RespawnTiming`, `RespawnAfterHit`, `RespawnDueMonotone` and `SpawnedNotDue` |
| `Player.RespawnTiming` | src/player.rs:82-85 | no spawn while on; after a hit, a spawn is due iff not on and now > last_shot + delay (so none at exactly the delay); never hit and not on means a spawn is due |
| `Player.RespawnAfterHit` | src/player.rs:82-85 | after a hit at any time T >= 0 and for any delay, a respawn is due exactly when now > T + delay, so never at or before T + delay |
| `Player.RespawnDueMonotone` | src/player.rs:85 | once a respawn is due it stays due at every later time |
| `Player.NewPlayer` | src/player.rs:87-107 | the components of the spawned player; its properties are stated by `NewPlayerAtStart` |
| `Player.NewPlayerAtStart` | src/player.rs:87-107 | a spawned player is at x = 0 with its sprite's lower edge 5 above the window bottom, has velocity (0,0), is not auto-despawned, and has life = max life = DEFAULT_PLAYER_LIFE |
| `Player.SpawnedNotDue` | src/player.rs:109 | after `spawned()` the guard is false; last_shot and score are kept, as assumed of the `spawned()` that is not part of this model |
| `Player.LaserXOffset` | src/player.rs:122 | the horizontal offset PLAYER_SIZE.0/2*SPRITE_SCALE-5 of each laser; used in `LaserPairSymmetric` |
| `Player.PlayerLaser` | src/player.rs:124-140 | the `spawn_laser` closure: one player laser at the given offset; its properties are stated by `LaserPairSymmetric` |
| `Player.LaserPair` | src/player.rs:142-143 | one shot makes exactly two lasers |
| `Player.LaserPairSymmetric` | src/player.rs:121-143 | the lasers differ only in x and are mirror images about the player's x at distance PLAYER_SIZE.0/2*SPRITE_SCALE-5; both are 15 above the player, have velocity (0,1), are auto-despawned, have the laser size and belong to the player |
| `Player.FiredLasers` | src/player.rs:119-120 | the lasers one run of the fire system adds; its properties are stated by `FiredLaserCount` |
| `Player.FiredLaserCount` | src/player.rs:119-120 | the fire system adds 2 lasers when exactly one player exists and Space was just pressed, and 0 otherwise |
| `Menu.LifeWidth` | src/menu.rs:90-95 | the width is non-negative, zero iff life is zero, and width / 20 is the life |
| `Menu.LifeWidthMonotone` | src/player.rs:177-182 | the width orders lives as their values do, and equal widths mean equal lives |
| `Menu.LifeBarsAfter` | src/menu.rs:101-107 | the life bars after one write; it keeps their number, and its other properties are stated by `LifeBarShowsLife` and `LifeBarsIdempotent` |
| `Menu.LifeBarShowsLife` | src/menu.rs:101-107 | with one player the bar's custom size becomes (20 x life, 25); without a single player the bars are unchanged |
| `Menu.LifeBarsIdempotent` | src/player.rs:184-195 | running the life-bar write twice equals running it once |
| `Menu.ScoreTextsAfter` | src/menu.rs:112-113 | the score texts after one write; it keeps their number, and its other properties are stated by `ScoreTextShowsScore`, `ScoreTextsIdempotent` and `StartupScoreLine` |
| `Menu.ScoreTextShowsScore` | src/menu.rs:110-114 | after the score step, section 1 is a canonical decimal string that reads back as the score; every other section (the "Score: " label) is unchanged |
| `Menu.ScoreTextsIdempotent` | src/menu.rs:112-113 | without exactly one score text nothing changes; running the step twice equals running it once |
| `Menu.StartupScoreLine` | src/menu.rs:61-81 | the menu's score text, once synchronised, reads "Score: " followed by the score's digits |
| `Decimal.Format` | src/menu.rs:113 | `format!("{}", score)` is a non-empty digit string; it starts with '0' iff the score is 0, and it has one digit iff the score is below 10 |
| `Decimal.ValueOfFormat` | src/menu.rs:113 | reading the decimal text back gives the score |
| `Decimal.FormatOfValue` | src/menu.rs:113 | every canonical digit string is the text of the number it denotes |
| `Decimal.FormatInjective` | src/menu.rs:113 | different scores give different texts |
| `Decimal.FormatExamples` | src/menu.rs:113 | a score of 0 shows "0" and 1500 shows "1500" |
| `Game.Lives` | src/menu.rs:98-101 | the lives the `Query<&Life, With<Player>>` returns, one per player, so its `get_single` succeeds exactly when one player exists |
| `Game.World.constructor` | src/menu.rs:19-88 | the world starts with the default player state, no player, no lasers, a 100x25 life bar and max-life bar, and the score text ["Score: ", ""]; the invariant holds |
| `Game.World.PlayerSpawnSystem` | src/player.rs:75-111 | when the respawn guard holds, it appends the new player and sets `on`; otherwise nothing changes; it keeps the one-player-while-on invariant |
| `Game.World.PlayerFireSystem` | src/player.rs:113-146 | it appends exactly the fired lasers (the pair, or nothing) to the existing lasers and changes nothing else |
| `Game.World.PlayerKeyboardEventSystem` | src/player.rs:148-175 | with exactly one player, it overwrites only that player's velocity with the key table's value; otherwise nothing changes |
| `Game.World.PlayerLifeSystem` | src/menu.rs:97-108 | it writes the life bars exactly as `LifeBarsAfter` from the players' lives; it needs a unique life bar when a player exists |
| `Game.World.PlayerScoreSystem` | src/menu.rs:110-114 | it writes the score texts exactly as `ScoreTextsAfter` from the current score; nothing else changes |

## Left out

- Plugin registration, `FixedTimestep::step(0.5)` and system ordering are engine
  scheduling. The methods run in whatever order a client calls them.
- `player_life_spawn_system` (src/player.rs:34-73) is a second copy of the menu's bars.
- The UI bars and the score text are modelled by their custom sizes and text values
  only. Their colours, anchors, translations, z-layers and fonts are presentation.
- The player and laser sprites keep their x and y translation. They drop the z
  coordinate (10. for the player, 0. for a laser; src/player.rs:95, 129), the transform
  `scale: Vec3::new(SPRITE_SCALE, SPRITE_SCALE, 1.)` (src/player.rs:97, 130) and the
  textures.
- `player_debug_system` is console output.
- Floating point: positions, offsets, widths and `life.to_float()` (`f32`), and the
  times `now`, `last_shot` and `PLAYER_RESPAWN_DELAY` (`f64`), are exact reals.
  `FRAC_1_SQRT_2` is the constant 0.70710677, and the model does not prove that a
  diagonal has unit length.
- `Menu.LifeWidth`: does not model the rounding of `u32` to `f32` for lives above 2^24.
- The score is an unbounded natural. The `u64` bound of `PlayerState.score` is not
  modelled, because formatting does not depend on it.
- Edge detection of Space (`just_pressed`) belongs to the engine's input layer. It is
  the parameter `spaceJustPressed`, and key states are booleans.
- The clock is the parameter `now`.
- `ExplosionTimer` and the enemy and explosion components belong to code that is not
  part of this model.
- Movement integration, bounds-check despawning and collision/damage are not part of
  this model. Their only effect modelled here is the hook `Game.World.PlayerShot`.
