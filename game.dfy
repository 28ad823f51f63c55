/** The game's `State`: the session object whose fields `tick` updates in place. */
module Game {
  import opened Conversions
  import opened Obstacles
  import opened Players
  import opened Rules

  class State {
    var player: Player
    var frameTime: real
    var obstacle: Obstacle
    var mode: GameMode
    var score: int

    /** The session these fields hold. */
    function View(): Session
      reads this, player
    {
      Session(player.Value(), frameTime, obstacle, mode, score)
    }

    predicate Valid()
      reads this, player
    {
      Inv(View())
    }

    /** `State::new`. */
    constructor (gapY: int)
      requires 10 <= gapY < 40
      ensures View() == NewSession(gapY) && Valid() && fresh(player)
    {
      player := new Player(StartBody.x, StartBody.y);
      frameTime := 0.0;
      obstacle := NewObstacle(ScreenWidth, 0, gapY);
      mode := Menu;
      score := 0;
    }

    method Play(elapsed: real, key: Option<Key>, gapY: int)
      requires 10 <= gapY < 40
      modifies this, player
      ensures player == old(player)
      ensures View() == Rules.Play(old(View()), elapsed, key, gapY)
    {
      frameTime := frameTime + elapsed;
      if frameTime > FrameDuration {
        frameTime := 0.0;
        player.GravityAndMove();
      }
      if key == Some(Space) {
        player.Flap();
      }
      if AsI32(player.x) > obstacle.x {
        score := score + 1;
        obstacle := NewObstacle(AsI32(player.x) + ScreenWidth, score, gapY);
      }
      if AsI32(player.y) > ScreenHeight || HitObstacle(obstacle, player.x, player.y) {
        mode := End;
      }
    }

    method Restart(gapY: int)
      requires 10 <= gapY < 40
      modifies this
      ensures fresh(player)
      ensures View() == Rules.Restart(gapY) && Valid()
    {
      player := new Player(StartBody.x, StartBody.y);
      frameTime := 0.0;
      obstacle := NewObstacle(ScreenWidth, 0, gapY);
      mode := Playing;
      score := 0;
    }

    /** `main_menu`, less its drawing. */
    method MainMenu(key: Option<Key>, gapY: int) returns (quitting: bool)
      requires 10 <= gapY < 40
      modifies this
      ensures player == old(player) || fresh(player)
      ensures Outcome(View(), quitting) == AwaitKey(old(View()), key, gapY)
    {
      quitting := false;
      match key
      case Some(P) => Restart(gapY);
      case Some(Q) => quitting := true;
      case _ =>
    }

    /** `dead`, less its drawing. */
    method Dead(key: Option<Key>, gapY: int) returns (quitting: bool)
      requires 10 <= gapY < 40
      modifies this
      ensures player == old(player) || fresh(player)
      ensures Outcome(View(), quitting) == AwaitKey(old(View()), key, gapY)
    {
      quitting := false;
      match key
      case Some(P) => Restart(gapY);
      case Some(Q) => quitting := true;
      case _ =>
    }

    /** `GameState::tick`, with the frame time, the key and the gap row of any new
        obstacle supplied by the caller, and `ctx.quitting` returned. */
    method Tick(elapsed: real, key: Option<Key>, gapY: int) returns (quitting: bool)
      requires Valid() && 0.0 <= elapsed && 10 <= gapY < 40
      modifies this, player
      ensures player == old(player) || fresh(player)
      ensures Outcome(View(), quitting) == Rules.Tick(old(View()), elapsed, key, gapY)
      ensures Valid()
    {
      TickPreservesInv(View(), elapsed, key, gapY);
      match mode
      case Menu => quitting := MainMenu(key, gapY);
      case End => quitting := Dead(key, gapY);
      case Playing => Play(elapsed, key, gapY); quitting := false;
    }
  }
}
