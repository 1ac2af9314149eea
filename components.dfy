/**
 * The component records of the game (src/components.rs) as plain values.
 * Marker components that carry no data (Player, Laser, FromPlayer, PlayerInfo,
 * ScoreText) are not records here: an entity's tags are given by the
 * collection of the world it lives in, or by an Owner field.
 */
module Components {

  /** Rust's `u32`, the width of `Life` and `MaxLife`. */
  newtype u32 = x: int | 0 <= x < 0x1_0000_0000

  datatype Option<+T> = None | Some(value: T)

  /** A 2D vector of `f32` coordinates, modelled as exact reals. */
  datatype Vec2 = Vec2(x: real, y: real)

  datatype Velocity = Velocity(x: real, y: real)

  /** `auto_despawn` asks the (external) bounds check to remove the entity off screen. */
  datatype Movable = Movable(autoDespawn: bool)

  datatype SpriteSize = SpriteSize(size: Vec2)

  datatype Life = Life(value: u32)

  datatype MaxLife = MaxLife(value: u32)

  /** Which side fired a laser: the `FromPlayer` and `FromEnemy` tags. */
  datatype Owner = FromPlayer | FromEnemy

  /**
   * The crate-level constants and the window size resource that the systems
   * read: PLAYER_SIZE, PLAYER_LASER_SIZE, SPRITE_SCALE, DEFAULT_PLAYER_LIFE,
   * PLAYER_RESPAWN_DELAY and WinSize. Their values are not part of this model.
   */
  datatype Config = Config(
    playerSize: Vec2,
    playerLaserSize: Vec2,
    spriteScale: real,
    defaultPlayerLife: u32,
    respawnDelay: real,
    winSize: Vec2)
}
