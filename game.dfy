/**
 * The game world the systems of src/player.rs and src/menu.rs run against.
 * Each query of the engine is a collection of the world: the entities tagged
 * Player, the lasers, the PlayerInfo+Life bars, the PlayerInfo+MaxLife bars
 * and the ScoreText texts. A query's `get_single` succeeds exactly when its
 * collection holds one entity. Each system is a method that changes the
 * collections it writes, in place.
 */
module Game {
  import opened Components
  import opened Player
  import opened Menu

  /** The lives of the given players: the result of `Query<&Life, With<Player>>`. */
  function Lives(players: seq<PlayerBundle>): (r: seq<Life>)
    ensures |r| == |players|
  {
    seq(|players|, i requires 0 <= i < |players| => players[i].life)
  }

  class World {
    const config: Config
    var playerState: PlayerState
    var players: seq<PlayerBundle>
    var lasers: seq<LaserBundle>
    var lifeBars: seq<Sprite>
    var maxLifeBars: seq<Sprite>
    var scoreTexts: seq<Text>

    /**
     * A player entity exists exactly while the player is on, so there is never
     * more than one; the menu's single life bar and score text are in place.
     */
    ghost predicate Valid()
      reads this
    {
      && |players| == (if playerState.on then 1 else 0)
      && |lifeBars| == 1
      && |scoreTexts| == 1 && |scoreTexts[0].sections| >= 2
    }

    /** The world at startup: the default player state and the entities the menu creates. */
    constructor (config: Config)
      ensures Valid()
      ensures this.config == config
      ensures playerState == DefaultPlayerState()
      ensures players == [] && lasers == []
      ensures lifeBars == [StartupBar()] && maxLifeBars == [StartupBar()]
      ensures scoreTexts == [StartupScoreText()]
    {
      this.config := config;
      playerState := DefaultPlayerState();
      players, lasers := [], [];
      lifeBars, maxLifeBars := [StartupBar()], [StartupBar()];
      scoreTexts := [StartupScoreText()];
    }

    /** `player_spawn_system`: create the player when a respawn is due, and mark it on. */
    method PlayerSpawnSystem(now: real)
      modifies this`players, this`playerState
      ensures if RespawnDue(old(playerState), now, config.respawnDelay)
        then players == old(players) + [NewPlayer(config)] && playerState == Spawned(old(playerState))
        else players == old(players) && playerState == old(playerState)
      ensures old(Valid()) ==> Valid()
    {
      var lastShot := playerState.lastShot;
      if !playerState.on && (lastShot == NEVER_SHOT || now > lastShot + config.respawnDelay) {
        players := players + [NewPlayer(config)];
        playerState := Spawned(playerState);
      }
    }

    /** `player_fire_system`: a single player fires a pair of lasers when Space was just pressed. */
    method PlayerFireSystem(spaceJustPressed: bool)
      modifies this`lasers
      ensures lasers == old(lasers) + FiredLasers(players, spaceJustPressed, config)
      ensures old(Valid()) ==> Valid()
    {
      if |players| == 1 && spaceJustPressed {
        var at := players[0].translation;
        var xOffset := LaserXOffset(config);
        lasers := lasers + [PlayerLaser(at, xOffset, config)];
        lasers := lasers + [PlayerLaser(at, -xOffset, config)];
      }
    }

    /** `player_keyboard_event_system`: a single player's velocity follows the held keys. */
    method PlayerKeyboardEventSystem(left: bool, right: bool, up: bool, down: bool)
      modifies this`players
      ensures |old(players)| == 1 ==>
        players == [old(players)[0].(velocity := KeyboardVelocity(left, right, up, down))]
      ensures |old(players)| != 1 ==> players == old(players)
      ensures old(Valid()) ==> Valid()
    {
      if |players| == 1 {
        var v := KeyboardVelocity(left, right, up, down);
        players := [players[0].(velocity := v)];
      }
    }

    /**
     * `player_life_system`: the life bar follows a single player's life. The
     * engine aborts when a player exists and the life bar is not unique.
     */
    method PlayerLifeSystem()
      requires |players| == 1 ==> |lifeBars| == 1
      modifies this`lifeBars
      ensures lifeBars == LifeBarsAfter(Lives(players), old(lifeBars))
      ensures old(Valid()) ==> Valid()
    {
      if |players| == 1 {
        var width := LifeWidth(players[0].life);
        lifeBars := [lifeBars[0].(customSize := Some(Vec2(width, BAR_HEIGHT)))];
      }
    }

    /**
     * `player_score_system`: a single score text shows the score in its second
     * section. The engine aborts when that text has fewer than two sections.
     */
    method PlayerScoreSystem()
      requires |scoreTexts| == 1 ==> |scoreTexts[0].sections| >= 2
      modifies this`scoreTexts
      ensures scoreTexts == ScoreTextsAfter(playerState.score, old(scoreTexts))
      ensures old(Valid()) ==> Valid()
    {
      if |scoreTexts| == 1 {
        var text := scoreTexts[0];
        scoreTexts := [text.(sections := text.sections[1 := TextSection(Decimal.Format(playerState.score))])];
      }
    }

    /**
     * What the damage system, which is not part of this model, does when the
     * player is hit: it removes the player and records the time of the hit.
     */
    method PlayerShot(now: real)
      modifies this`players, this`playerState
      ensures players == []
      ensures playerState == Hit(old(playerState), now)
      ensures old(Valid()) ==> Valid()
    {
      players := [];
      playerState := Hit(playerState, now);
    }
  }

  /**
   * A session: the first spawn tick creates the player, one press of Space
   * fires two lasers and a second call without a fresh press fires no more,
   * a hit at 10.0 with a delay of 1.0 keeps the player away at 10.5 and at
   * exactly 11.0, and the tick at 11.5 brings it back.
   */
  method Session(config: Config)
    requires config.respawnDelay == 1.0
  {
    var w := new World(config);
    w.PlayerSpawnSystem(0.5);
    assert |w.players| == 1 && w.players[0].life == Life(config.defaultPlayerLife);
    w.PlayerFireSystem(true);
    assert |w.lasers| == 2;
    w.PlayerFireSystem(false);
    assert |w.lasers| == 2;
    w.PlayerSpawnSystem(1.0);
    assert |w.players| == 1;
    w.PlayerShot(10.0);
    w.PlayerFireSystem(true);
    assert |w.lasers| == 2;
    w.PlayerSpawnSystem(10.5);
    assert w.players == [];
    w.PlayerSpawnSystem(11.0);
    assert w.players == [];
    w.PlayerSpawnSystem(11.5);
    assert |w.players| == 1 && w.Valid();
    w.PlayerLifeSystem();
    assert w.lifeBars[0].customSize == Some(Vec2(LifeWidth(Life(config.defaultPlayerLife)), BAR_HEIGHT));
    w.PlayerScoreSystem();
    assert w.scoreTexts[0].sections[0].value == "Score: ";
    assert w.scoreTexts[0].sections[1].value == Decimal.Format(0);
  }
}
