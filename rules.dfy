/** The game session as values: what one call of `tick` does to the session, in each mode. */
module Rules {
  import opened Conversions
  import opened Obstacles
  import opened Players

  const ScreenWidth: int := 80
  const ScreenHeight: int := 50
  /** Milliseconds of frame time that make one physics step. */
  const FrameDuration: real := 75.0

  datatype GameMode = Menu | Playing | End

  /** The keys the game tells apart; every other key is `Other`. */
  datatype Key = Space | P | Q | Other

  datatype Option<T> = None | Some(value: T)

  datatype Session = Session(player: Body, frameTime: real, obstacle: Obstacle, mode: GameMode, score: int)

  /** The session after one tick, and whether the tick asked the run loop to stop. */
  datatype Outcome = Outcome(next: Session, quitting: bool)

  const StartBody: Body := Body(5.0, 25.0, 0.0)

  /** The player leaves the screen downwards or hits the wall: the session ends. */
  predicate Dies(player: Body, obstacle: Obstacle)
  {
    AsI32(player.y) > ScreenHeight || HitObstacle(obstacle, player.x, player.y)
  }

  /** What holds of every session the game can reach. */
  predicate Inv(s: Session)
  {
    && 0.0 <= s.player.y
    && VelocityInRange(s.player.velocity)
    && 5.0 <= s.player.x
    && 0.0 <= s.frameTime <= FrameDuration
    && 0 <= s.score
    && WellFormed(s.obstacle, s.score)
    // the wall is never behind the player, and walls stand 81 columns apart
    && AsI32(s.player.x) <= s.obstacle.x
    && s.obstacle.x == ScreenWidth + (ScreenWidth + 1) * s.score
    // while playing the player is alive
    && (s.mode == Playing ==> !Dies(s.player, s.obstacle))
  }

  /** `State::new`: the menu, before any game, with the first wall one screen ahead. */
  function NewSession(gapY: int): (s: Session)
    requires 10 <= gapY < 40
    ensures s.mode == Menu && s.score == 0 && s.frameTime == 0.0
    ensures s.player == StartBody && s.obstacle.x == ScreenWidth && s.obstacle.size == 20
    ensures Inv(s)
  {
    Session(StartBody, 0.0, NewObstacle(ScreenWidth, 0, gapY), Menu, 0)
  }

  /** `restart`: everything is reinitialised; the result is the fresh session, now playing. */
  function Restart(gapY: int): (s: Session)
    requires 10 <= gapY < 40
    ensures s == NewSession(gapY).(mode := Playing)
    ensures s.score == 0 && s.frameTime == 0.0 && s.player == StartBody
    ensures Inv(s)
  {
    NewSession(gapY).(mode := Playing)
  }

  /** The key handling shared by `main_menu` and `dead`: P restarts, Q asks to quit
      and leaves the session alone, anything else (or nothing) changes nothing. */
  function AwaitKey(s: Session, key: Option<Key>, gapY: int): (r: Outcome)
    requires 10 <= gapY < 40
    ensures r.quitting <==> key == Some(Q)
    ensures key == Some(P) ==> r.next == Restart(gapY)
    ensures key != Some(P) ==> r.next == s
  {
    match key
    case Some(P) => Outcome(Restart(gapY), false)
    case Some(Q) => Outcome(s, true)
    case _ => Outcome(s, false)
  }

  /** `play`: accumulate frame time and take a physics step once it exceeds FrameDuration;
      flap on Space; score and replace the wall once it is passed; end on death. */
  function Play(s: Session, elapsed: real, key: Option<Key>, gapY: int): (r: Session)
    requires 10 <= gapY < 40
    // the throttle
    ensures s.frameTime + elapsed > FrameDuration ==> r.frameTime == 0.0 && r.player.x == s.player.x + 1.0
    ensures s.frameTime + elapsed <= FrameDuration ==> r.frameTime == s.frameTime + elapsed && r.player.x == s.player.x
    ensures s.frameTime + elapsed <= FrameDuration && key != Some(Space) ==> r.player == s.player
    ensures r.frameTime <= FrameDuration
    ensures s.frameTime + elapsed > FrameDuration && key != Some(Space) ==> r.player == GravityStep(s.player)
    // the flap, whether or not a step was taken
    ensures key == Some(Space) ==> r.player.velocity == FlapVelocity
    ensures key == Some(Space) ==>
      r.player == Impulse(if s.frameTime + elapsed > FrameDuration then GravityStep(s.player) else s.player)
    // scoring
    ensures r.score == s.score + 1 <==> AsI32(r.player.x) > s.obstacle.x
    ensures r.score == s.score || r.score == s.score + 1
    ensures r.score == s.score + 1 ==> r.obstacle == NewObstacle(AsI32(r.player.x) + ScreenWidth, r.score, gapY)
    ensures r.score == s.score ==> r.obstacle == s.obstacle
    // the end of the game
    ensures r.mode == (if Dies(r.player, r.obstacle) then End else s.mode)
    ensures r.score == s.score + 1 ==> !HitObstacle(r.obstacle, r.player.x, r.player.y)
  {
    var accumulated := s.frameTime + elapsed;
    var stepped := accumulated > FrameDuration;
    var frameTime := if stepped then 0.0 else accumulated;
    var moved := if stepped then GravityStep(s.player) else s.player;
    var player := if key == Some(Space) then Impulse(moved) else moved;
    var passed := AsI32(player.x) > s.obstacle.x;
    var score := if passed then s.score + 1 else s.score;
    var obstacle := if passed then NewObstacle(AsI32(player.x) + ScreenWidth, score, gapY) else s.obstacle;
    var mode := if Dies(player, obstacle) then End else s.mode;
    Session(player, frameTime, obstacle, mode, score)
  }

  /** `tick`: dispatch on the mode. Only the menu and the end screen listen for Q,
      and only they can restart; a game in progress can only end. */
  function Tick(s: Session, elapsed: real, key: Option<Key>, gapY: int): (r: Outcome)
    requires 10 <= gapY < 40
    ensures r.quitting <==> s.mode != Playing && key == Some(Q)
    ensures s.mode == Menu ==> r.next.mode == Menu || r.next.mode == Playing
    ensures s.mode == Playing ==> r.next.mode == Playing || r.next.mode == End
    ensures s.mode == End ==> r.next.mode == End || r.next.mode == Playing
    ensures s.mode != Playing ==> r.next == s || r.next == Restart(gapY)
    ensures s.mode != Playing && r.next.mode == Playing <==> s.mode != Playing && key == Some(P)
    ensures s.mode == Playing ==> r.next.player.x == s.player.x || r.next.player.x == s.player.x + 1.0
    ensures s.mode == Playing ==> r == Outcome(Play(s, elapsed, key, gapY), false)
    ensures s.mode != Playing ==> r == AwaitKey(s, key, gapY)
  {
    match s.mode
    case Menu => AwaitKey(s, key, gapY)
    case End => AwaitKey(s, key, gapY)
    case Playing => Outcome(Play(s, elapsed, key, gapY), false)
  }

  lemma TickPreservesInv(s: Session, elapsed: real, key: Option<Key>, gapY: int)
    requires Inv(s) && 0.0 <= elapsed && 10 <= gapY < 40
    ensures Inv(Tick(s, elapsed, key, gapY).next)
  {
  }

  /** A wall is scored only after the player has been sampled in the wall's own column,
      alive, and so inside the gap: x moves one column per step, so no column is skipped. */
  lemma ScoredWallWasPassedThroughGap(s: Session, elapsed: real, key: Option<Key>, gapY: int)
    requires Inv(s) && s.mode == Playing && 10 <= gapY < 40
    requires Play(s, elapsed, key, gapY).score == s.score + 1
    ensures AsI32(s.player.x) == s.obstacle.x
    ensures InGap(s.obstacle, s.player.y)
  {
  }

  /** From the menu another key changes nothing, P starts a game from the initial
      position, and Q during that game does not quit. */
  lemma MenuStartScenario(gapY: int, elapsed: real)
    requires 10 <= gapY < 40 && 0.0 <= elapsed <= FrameDuration
    ensures Tick(NewSession(gapY), elapsed, Some(Other), gapY) == Outcome(NewSession(gapY), false)
    ensures Tick(NewSession(gapY), elapsed, Some(P), gapY).next == Restart(gapY)
    ensures var o := Tick(Restart(gapY), elapsed, Some(Q), gapY);
      !o.quitting && o.next.mode == Playing && o.next.player == StartBody
  {
  }

  /** What the run loop passes to one tick: the frame time, the key, and the random gap row. */
  datatype Input = Input(elapsed: real, key: Option<Key>, gapY: int)

  predicate Admissible(i: Input)
  {
    0.0 <= i.elapsed && 10 <= i.gapY < 40
  }

  /** The session after the run loop has fed it `inputs`, stopping at the first tick that quits. */
  function Run(s: Session, inputs: seq<Input>): Session
    requires forall k :: 0 <= k < |inputs| ==> Admissible(inputs[k])
    decreases |inputs|
  {
    if inputs == [] then s
    else
      assert Admissible(inputs[0]);
      var o := Tick(s, inputs[0].elapsed, inputs[0].key, inputs[0].gapY);
      if o.quitting then o.next else Run(o.next, inputs[1..])
  }

  /** Every session the game reaches from `State::new` satisfies the invariant. */
  lemma {:induction false} RunPreservesInv(s: Session, inputs: seq<Input>)
    requires Inv(s)
    requires forall k :: 0 <= k < |inputs| ==> Admissible(inputs[k])
    ensures Inv(Run(s, inputs))
    decreases |inputs|
  {
    if inputs != [] {
      TickPreservesInv(s, inputs[0].elapsed, inputs[0].key, inputs[0].gapY);
      var o := Tick(s, inputs[0].elapsed, inputs[0].key, inputs[0].gapY);
      if !o.quitting {
        RunPreservesInv(o.next, inputs[1..]);
      }
    }
  }

  /** Once a game has started, the menu is never shown again. */
  lemma {:induction false} RunNeverReturnsToMenu(s: Session, inputs: seq<Input>)
    requires s.mode != Menu
    requires forall k :: 0 <= k < |inputs| ==> Admissible(inputs[k])
    ensures Run(s, inputs).mode != Menu
    decreases |inputs|
  {
    if inputs != [] {
      var o := Tick(s, inputs[0].elapsed, inputs[0].key, inputs[0].gapY);
      if !o.quitting {
        RunNeverReturnsToMenu(o.next, inputs[1..]);
      }
    }
  }

  /** Without a P key nothing resets the score: it never goes down, and the menu and
      the end screen (which shows the final score) stay exactly as they are. */
  lemma {:induction false} RunKeepsScoreUntilRestart(s: Session, inputs: seq<Input>)
    requires forall k :: 0 <= k < |inputs| ==> Admissible(inputs[k])
    requires forall k :: 0 <= k < |inputs| ==> inputs[k].key != Some(P)
    ensures Run(s, inputs).score >= s.score
    ensures s.mode != Playing ==> Run(s, inputs) == s
    decreases |inputs|
  {
    if inputs != [] {
      var o := Tick(s, inputs[0].elapsed, inputs[0].key, inputs[0].gapY);
      if !o.quitting {
        RunKeepsScoreUntilRestart(o.next, inputs[1..]);
      }
    }
  }
}
