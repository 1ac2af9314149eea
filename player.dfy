/**
 * The decisions taken by the player systems of src/player.rs, as values:
 * the keyboard-to-velocity table, the respawn guard, the record of a freshly
 * spawned player and the pair of lasers one shot creates. The systems that
 * write these values into the world are the methods of Game.World.
 */
module Player {
  import opened Components

  /** `std::f32::consts::FRAC_1_SQRT_2`; only its positivity is used below. */
  const FRAC_1_SQRT_2: real := 0.70710677

  /** The player resource: `on` while a player entity is alive, the time of the last hit and the score. */
  datatype PlayerState = PlayerState(on: bool, lastShot: real, score: nat)

  /** The `last_shot` value of a player that has never been hit. */
  const NEVER_SHOT: real := -1.0

  /** `PlayerState::default()`: no player yet, never hit, no score. */
  function DefaultPlayerState(): PlayerState {
    PlayerState(false, NEVER_SHOT, 0)
  }

  /** `PlayerState::spawned()`: the player is on. */
  function Spawned(s: PlayerState): PlayerState {
    s.(on := true)
  }

  /** The components of a player entity. */
  datatype PlayerBundle = PlayerBundle(
    translation: Vec2,
    size: SpriteSize,
    movable: Movable,
    velocity: Velocity,
    life: Life,
    maxLife: MaxLife)

  /** The components of a laser entity (it also carries the `Laser` tag). */
  datatype LaserBundle = LaserBundle(
    translation: Vec2,
    size: SpriteSize,
    movable: Movable,
    velocity: Velocity,
    owner: Owner)

  // ---------------------------------------------------------------------------
  // Keyboard to velocity

  /** The velocity for the held keys Left, Right, Up and Down. */
  function KeyboardVelocity(left: bool, right: bool, up: bool, down: bool): Velocity {
    match (left, right, up, down)
    case (true, false, false, false) => Velocity(-1.0, 0.0)
    case (false, true, false, false) => Velocity(1.0, 0.0)
    case (false, false, true, false) => Velocity(0.0, 1.0)
    case (false, false, false, true) => Velocity(0.0, -1.0)
    case (true, false, true, false) => Velocity(-FRAC_1_SQRT_2, FRAC_1_SQRT_2)
    case (true, false, false, true) => Velocity(-FRAC_1_SQRT_2, -FRAC_1_SQRT_2)
    case (false, true, true, false) => Velocity(FRAC_1_SQRT_2, FRAC_1_SQRT_2)
    case (false, true, false, true) => Velocity(FRAC_1_SQRT_2, -FRAC_1_SQRT_2)
    case _ => Velocity(0.0, 0.0)
  }

  /** The sign of one axis: -1 when only the negative key is held, 1 when only the positive one is. */
  function Axis(negative: bool, positive: bool): int {
    if negative && !positive then -1 else if positive && !negative then 1 else 0
  }

  function Count(b: bool): nat {
    if b then 1 else 0
  }

  function HeldCount(left: bool, right: bool, up: bool, down: bool): nat {
    Count(left) + Count(right) + Count(up) + Count(down)
  }

  /**
   * The table stated independently: the axis signs, scaled by FRAC_1_SQRT_2 on a
   * diagonal, when every held key contributes to a sign; zero otherwise.
   */
  function DirectionVelocity(left: bool, right: bool, up: bool, down: bool): Velocity {
    var sx, sy := Axis(left, right), Axis(down, up);
    if HeldCount(left, right, up, down) != sx * sx + sy * sy then Velocity(0.0, 0.0)
    else if sx != 0 && sy != 0 then Velocity(sx as real * FRAC_1_SQRT_2, sy as real * FRAC_1_SQRT_2)
    else Velocity(sx as real, sy as real)
  }

  lemma KeyboardVelocityIsDirection(left: bool, right: bool, up: bool, down: bool)
    ensures KeyboardVelocity(left, right, up, down) == DirectionVelocity(left, right, up, down)
  {
  }

  /** A single held key gives the unit vector of its axis. */
  lemma SingleKeyIsAxisUnit(left: bool, right: bool, up: bool, down: bool)
    requires HeldCount(left, right, up, down) == 1
    ensures KeyboardVelocity(left, right, up, down) == Velocity(Axis(left, right) as real, Axis(down, up) as real)
    ensures left ==> KeyboardVelocity(left, right, up, down) == Velocity(-1.0, 0.0)
    ensures right ==> KeyboardVelocity(left, right, up, down) == Velocity(1.0, 0.0)
    ensures up ==> KeyboardVelocity(left, right, up, down) == Velocity(0.0, 1.0)
    ensures down ==> KeyboardVelocity(left, right, up, down) == Velocity(0.0, -1.0)
  {
  }

  /** One horizontal and one vertical key give a diagonal whose signs follow the keys. */
  lemma CrossPairIsDiagonal(left: bool, right: bool, up: bool, down: bool)
    requires left != right && up != down
    ensures var v := KeyboardVelocity(left, right, up, down);
      && v == Velocity(Axis(left, right) as real * FRAC_1_SQRT_2, Axis(down, up) as real * FRAC_1_SQRT_2)
      && (v.x < 0.0 <==> left) && (v.y > 0.0 <==> up)
      && (v.x == FRAC_1_SQRT_2 || v.x == -FRAC_1_SQRT_2)
      && (v.y == FRAC_1_SQRT_2 || v.y == -FRAC_1_SQRT_2)
  {
  }

  /** The player stops exactly when no key is held or an opposing pair is held. */
  lemma StopsExactlyWhenCancelled(left: bool, right: bool, up: bool, down: bool)
    ensures KeyboardVelocity(left, right, up, down) == Velocity(0.0, 0.0)
      <==> HeldCount(left, right, up, down) == 0 || (left && right) || (up && down)
    ensures HeldCount(left, right, up, down) >= 3 ==> KeyboardVelocity(left, right, up, down) == Velocity(0.0, 0.0)
  {
  }

  /** Swapping Left and Right mirrors the velocity horizontally; swapping Up and Down mirrors it vertically. */
  lemma KeyboardMirror(left: bool, right: bool, up: bool, down: bool)
    ensures var v := KeyboardVelocity(left, right, up, down);
      && KeyboardVelocity(right, left, up, down) == Velocity(-v.x, v.y)
      && KeyboardVelocity(left, right, down, up) == Velocity(v.x, -v.y)
  {
  }

  // ---------------------------------------------------------------------------
  // Respawn

  /**
   * The guard of the spawn system: no player is on, and either the player was
   * never hit or strictly more than `delay` has passed since the last hit.
   */
  predicate RespawnDue(s: PlayerState, now: real, delay: real) {
    !s.on && (s.lastShot == NEVER_SHOT || now > s.lastShot + delay)
  }

  /** When the player has been hit, respawning waits for strictly more than the delay; never while on. */
  lemma RespawnTiming(s: PlayerState, now: real, delay: real)
    ensures s.on ==> !RespawnDue(s, now, delay)
    ensures s.lastShot != NEVER_SHOT ==> (RespawnDue(s, now, delay) <==> !s.on && now > s.lastShot + delay)
    ensures s.lastShot != NEVER_SHOT && now == s.lastShot + delay ==> !RespawnDue(s, now, delay)
    ensures !s.on && s.lastShot == NEVER_SHOT ==> RespawnDue(s, now, delay)
  {
  }

  /**
   * What the damage code, which is not part of this model, is taken to do to the
   * player resource on a hit at time `now`: the player is off and the hit recorded.
   */
  function Hit(s: PlayerState, now: real): PlayerState {
    s.(on := false, lastShot := now)
  }

  /**
   * After a hit at any time T (seconds since startup, so never the sentinel),
   * a respawn is due exactly when strictly more than the delay has passed.
   */
  lemma RespawnAfterHit(s: PlayerState, t: real, now: real, delay: real)
    requires t >= 0.0
    ensures RespawnDue(Hit(s, t), now, delay) <==> now > t + delay
    ensures now <= t + delay ==> !RespawnDue(Hit(s, t), now, delay)
  {
  }

  /** Once due, a respawn stays due as time goes on. */
  lemma RespawnDueMonotone(s: PlayerState, now: real, later: real, delay: real)
    requires RespawnDue(s, now, delay) && now <= later
    ensures RespawnDue(s, later, delay)
  {
  }

  /** The player the spawn system creates: centred, resting just above the bottom of the window. */
  function NewPlayer(cfg: Config): PlayerBundle {
    var bottom := -cfg.winSize.y / 2.0;
    PlayerBundle(
      Vec2(0.0, bottom + cfg.playerSize.y / 2.0 * cfg.spriteScale + 5.0),
      SpriteSize(cfg.playerSize),
      Movable(false),
      Velocity(0.0, 0.0),
      Life(cfg.defaultPlayerLife),
      MaxLife(cfg.defaultPlayerLife))
  }

  /**
   * A new player stands still at x = 0 with full life, is never despawned
   * automatically, and the lower edge of its scaled sprite is 5 above the
   * bottom of the window.
   */
  lemma NewPlayerAtStart(cfg: Config)
    ensures var p := NewPlayer(cfg);
      && p.translation.x == 0.0
      && p.translation.y - p.size.size.y * cfg.spriteScale / 2.0 == -cfg.winSize.y / 2.0 + 5.0
      && p.velocity == Velocity(0.0, 0.0)
      && !p.movable.autoDespawn
      && p.life.value == p.maxLife.value == cfg.defaultPlayerLife
  {
  }

  /** Spawning makes the guard false: a second spawn needs the player to be hit first. */
  lemma SpawnedNotDue(s: PlayerState, now: real, delay: real)
    ensures !RespawnDue(Spawned(s), now, delay)
    ensures Spawned(s).lastShot == s.lastShot && Spawned(s).score == s.score
  {
  }

  // ---------------------------------------------------------------------------
  // Fire

  /** Horizontal distance of each laser from the player's centre. */
  function LaserXOffset(cfg: Config): real {
    cfg.playerSize.x / 2.0 * cfg.spriteScale - 5.0
  }

  /** The `spawn_laser` closure: a player laser at the given horizontal offset. */
  function PlayerLaser(at: Vec2, xOffset: real, cfg: Config): LaserBundle {
    LaserBundle(
      Vec2(at.x + xOffset, at.y + 15.0),
      SpriteSize(cfg.playerLaserSize),
      Movable(true),
      Velocity(0.0, 1.0),
      FromPlayer)
  }

  /** The two lasers one shot creates from a player at `at`. */
  function LaserPair(at: Vec2, cfg: Config): (r: seq<LaserBundle>)
    ensures |r| == 2
  {
    [PlayerLaser(at, LaserXOffset(cfg), cfg), PlayerLaser(at, -LaserXOffset(cfg), cfg)]
  }

  /**
   * The two lasers are mirror images about the player's x: they differ only in
   * x, sit at x +/- the offset and 15 above the player, move straight up, are
   * despawned off screen and belong to the player.
   */
  lemma LaserPairSymmetric(at: Vec2, cfg: Config)
    ensures var r := LaserPair(at, cfg);
      && r[0].translation.x - at.x == at.x - r[1].translation.x == LaserXOffset(cfg)
      && r[0].translation.y == r[1].translation.y == at.y + 15.0
      && r[1] == r[0].(translation := Vec2(2.0 * at.x - r[0].translation.x, r[0].translation.y))
      && forall l :: l in r ==>
           l.velocity == Velocity(0.0, 1.0) && l.movable.autoDespawn && l.owner == FromPlayer
           && l.size == SpriteSize(cfg.playerLaserSize)
  {
  }

  /** The lasers the fire system adds, given the players found and whether Space was just pressed. */
  function FiredLasers(players: seq<PlayerBundle>, spaceJustPressed: bool, cfg: Config): seq<LaserBundle> {
    if |players| == 1 && spaceJustPressed then LaserPair(players[0].translation, cfg) else []
  }

  /** Exactly two lasers when there is a single player and Space was just pressed, none otherwise. */
  lemma FiredLaserCount(players: seq<PlayerBundle>, spaceJustPressed: bool, cfg: Config)
    ensures |FiredLasers(players, spaceJustPressed, cfg)| == if |players| == 1 && spaceJustPressed then 2 else 0
  {
  }
}
