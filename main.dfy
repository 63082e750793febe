/**
 * The game: a screen, a player and a block manager, with the level counter and
 * the highscore folded in as integers. Each tick updates the blocks, then ends
 * the run on a collision, and only otherwise levels up a player who crossed the
 * goal line. After a crash the player is asked whether to play on; a yes resets
 * every part and starts a new run.
 */
module Main {
  import opened Wrappers
  import opened Seqs
  import opened Shapes
  import opened Screen
  import opened Players
  import Helpers
  import Blocks
  import LegacyHelpers

  /** The arrow keys bound to the player's four moves. */
  datatype Key = Up | Down | Left | Right

  /** One frame: the keys pressed since the last frame, then the random draws the block update may use. */
  datatype Tick = Tick(keys: seq<Key>, spawn: LegacyHelpers.Spawn)

  /** One run's frames, then the answer typed at the game-over prompt (`None` when the prompt is dismissed). */
  datatype Session = Session(ticks: seq<Tick>, answer: Option<string>)

  /**
   * How a run ends: by a crash at some frame, at a frame whose draws do not
   * finish the spawn loop (the program would go on drawing), or when the
   * frames run out while the game still runs.
   */
  datatype RunEnd = Crashed(tick: nat) | Stalled(tick: nat) | OutOfTicks

  /** How a sequence of sessions ends: the player declined, or the input ran out. */
  datatype PlayEnd = Declined | InputExhausted

  /** `_player_reached_goal`: strictly more than 10 px above the top boundary. */
  predicate PlayerReachedGoal(y: int, top: int) {
    y > top + 10
  }

  /**
   * On the default field the goal line is y = 260: from the start, 53 presses
   * of the up key reach the goal and 52 do not.
   */
  lemma GoalFromStart(n: nat)
    ensures PlayerReachedGoal(START_Y + PLAYER_STEP * n, DefaultScreen().top) <==> n >= 53
  {
  }

  /** Where a key press takes a default player on the default field. */
  function AfterKey(k: Key, x: int, y: int): (int, int) {
    var screen := DefaultScreen();
    match k
    case Up => (x, y + PLAYER_STEP)
    case Down => (x, StepDown(y, PLAYER_STEP, screen.bottom, PLAYER_HEIGHT))
    case Right => (StepRight(x, PLAYER_STEP, screen.right, PLAYER_WIDTH), y)
    case Left => (StepLeft(x, PLAYER_STEP, screen.left, PLAYER_WIDTH), y)
  }

  /** Where a sequence of key presses takes a default player, pressed in order. */
  function AfterKeys(keys: seq<Key>, x: int, y: int): (int, int)
    decreases |keys|
  {
    if keys == [] then (x, y)
    else
      var (px, py) := AfterKeys(keys[..|keys| - 1], x, y);
      AfterKey(keys[|keys| - 1], px, py)
  }

  /**
   * Key presses keep a player that is between the side limits and on or above
   * the floor there: only the up key moves it, and only upwards, past them.
   * Each key moves along one axis only.
   */
  lemma KeysKeepPlayerOnField(k: Key, x: int, y: int)
    requires var s := DefaultScreen();
      LeftLimit(s.left, PLAYER_WIDTH) <= x as real <= RightLimit(s.right, PLAYER_WIDTH) &&
      y as real >= Floor(s.bottom, PLAYER_HEIGHT)
    ensures var (nx, ny) := AfterKey(k, x, y);
      var s := DefaultScreen();
      LeftLimit(s.left, PLAYER_WIDTH) <= nx as real <= RightLimit(s.right, PLAYER_WIDTH) &&
      ny as real >= Floor(s.bottom, PLAYER_HEIGHT) && (nx == x || ny == y) && ny >= y - PLAYER_STEP
  {
  }

  function LowerAscii(c: char): (l: char)
    ensures 'A' <= c <= 'Z' ==> l as int == c as int + 32
    ensures !('A' <= c <= 'Z') ==> l == c
  {
    if 'A' <= c <= 'Z' then (c as int + 32) as char else c
  }

  /** `str.lower()` on ASCII letters: same length, each upper-case letter replaced by its lower-case one. */
  function Lower(s: string): (r: string)
    ensures |r| == |s| && forall i :: 0 <= i < |s| ==> r[i] == LowerAscii(s[i])
  {
    seq(|s|, i requires 0 <= i < |s| => LowerAscii(s[i]))
  }

  /** `_ask_restart`: play on exactly when the answer is `y` or `Y`; no answer or an empty one means no. */
  function AskRestart(response: Option<string>): (restart: bool)
    ensures restart <==> response == Some("y") || response == Some("Y")
  {
    match response
    case None => false
    case Some(s) =>
      if s == [] then false
      else
        var restart := Lower(s) == "y";
        assert restart ==> s == [s[0]] && LowerAscii(s[0]) == 'y';
        restart
  }

  /**
   * The game between two frames, as a value: the player's position and
   * sprite, the level, the highscore, whether the run goes on, the blocks on
   * the field and the batch settings.
   */
  datatype State = State(x: int, y: int, shape: Shape, level: int, highscore: int, running: bool,
                         field: seq<Block>, settings: Blocks.Difficulty)

  /** The key presses between two frames applied to a state: only the position changes. */
  function Pressed(s: State, keys: seq<Key>): State {
    var (x, y) := AfterKeys(keys, s.x, s.y);
    s.(x := x, y := y)
  }

  /** The draws of a frame suffice for its block update: a batch is due only when they can supply it. */
  predicate Ready(s: State, spawn: LegacyHelpers.Spawn) {
    Blocks.BatchDue(Blocks.Moved(s.field, Blocks.MOVE_DISTANCE), Blocks.X_GENESIS, s.settings.xGap) ==>
      Blocks.CanSpawn(s.settings, spawn)
  }

  /**
   * The end-state tests on an updated field: a collision turns the player into
   * the explosion and stops the run; only without one does a player past the
   * goal line level up, which also moves it to the start and escalates the
   * batch settings for the new level.
   */
  function Judged(s: State): State {
    if Collides(s.x, s.y, PLAYER_WIDTH, PLAYER_HEIGHT, s.field) then
      s.(shape := ExplosionShape, running := false)
    else if PlayerReachedGoal(s.y, DefaultScreen().top) then
      var level := s.level + 1;
      s.(level := level, highscore := Max(s.highscore, level), x := START_X, y := START_Y,
         settings := Blocks.Escalated(s.settings, level))
    else s
  }

  /**
   * The end-state tests have three outcomes: a crash that changes only the
   * sprite and stops the run, a level-up by exactly one that sends the player
   * to the start and puts the new level in the highscore, or no change at all.
   */
  lemma JudgedOutcomes(s: State)
    ensures var r := Judged(s);
      (r == s.(shape := ExplosionShape, running := false) && Collides(s.x, s.y, PLAYER_WIDTH, PLAYER_HEIGHT, s.field)) ||
      (r.level == s.level + 1 && r.highscore == Max(s.highscore, r.level) && r.x == START_X && r.y == START_Y &&
       r.running == s.running && r.shape == s.shape && r.field == s.field && PlayerReachedGoal(s.y, DefaultScreen().top)) ||
      r == s
  {
  }

  /** One frame after the key presses: the block update, then the end-state tests. */
  function Stepped(s: State, spawn: LegacyHelpers.Spawn): State
    requires Ready(s, spawn)
  {
    Judged(s.(field := Blocks.AfterUpdate(s.field, s.settings, spawn)))
  }

  /**
   * The frames of `run` from frame `i` on: while the game runs and frames
   * remain, the keys are pressed, the field is updated and the end states are
   * tested. It ends at the first crash, at the first frame whose draws do not
   * suffice, or when the frames or the running game run out.
   */
  function RunFrom(s: State, ticks: seq<Tick>, i: nat): (RunEnd, State)
    decreases |ticks| - i
  {
    if i >= |ticks| || !s.running then (OutOfTicks, s)
    else
      var pressed := Pressed(s, ticks[i].keys);
      if !Ready(pressed, ticks[i].spawn) then (Stalled(i), pressed)
      else
        var next := Stepped(pressed, ticks[i].spawn);
        if !next.running then (Crashed(i), next) else RunFrom(next, ticks, i + 1)
  }

  function RunOf(s: State, ticks: seq<Tick>): (RunEnd, State) {
    RunFrom(s, ticks, 0)
  }

  /**
   * What a run promises: levels and the highscore never go down, a level
   * gained is in the highscore, only a crash stops a running game (and shows
   * the explosion), a game that does not run plays no frame, and the frame a
   * run ends at is one of its own.
   */
  lemma {:induction false} RunFromPromises(s: State, ticks: seq<Tick>, i: nat)
    ensures var (outcome, r) := RunFrom(s, ticks, i);
      r.level >= s.level && r.highscore >= s.highscore &&
      (r.level > s.level ==> r.highscore >= r.level) &&
      (outcome.Crashed? <==> s.running && !r.running) &&
      (!s.running ==> outcome == OutOfTicks && r == s) &&
      (outcome.Crashed? ==> i <= outcome.tick < |ticks| && r.shape == ExplosionShape) &&
      (outcome.Stalled? ==> i <= outcome.tick < |ticks|)
    decreases |ticks| - i
  {
    if i < |ticks| && s.running {
      var pressed := Pressed(s, ticks[i].keys);
      if Ready(pressed, ticks[i].spawn) {
        var updated := pressed.(field := Blocks.AfterUpdate(pressed.field, pressed.settings, ticks[i].spawn));
        var next := Judged(updated);
        JudgedOutcomes(updated);
        if next.running {
          RunFromPromises(next, ticks, i + 1);
          assert RunFrom(s, ticks, i) == RunFrom(next, ticks, i + 1);
        }
      }
    }
  }

  /** `reset` on the value: empty field, restored settings, the player at the start as a car, level 1, running; the highscore stays. */
  function Restarted(s: State): State {
    s.(field := [], settings := Blocks.Restored(s.settings), x := START_X, y := START_Y,
       shape := CarShape, level := 1, running := true)
  }

  /**
   * The runs of `play` from session `i` on, each run as `runOf` plays it, with
   * how many runs were played and how play ended: a run that does not crash
   * ends the input, and after a crash the answer decides between the end and a
   * reset before the next run.
   */
  function PlayFrom(runOf: (State, seq<Tick>) -> (RunEnd, State), s: State, sessions: seq<Session>, i: nat)
    : (r: (nat, PlayEnd, State))
    ensures i <= |sessions| ==> i <= r.0 <= |sessions| && (i < |sessions| ==> i < r.0)
    decreases |sessions| - i
  {
    if i >= |sessions| then (i, InputExhausted, s)
    else
      var (outcome, after) := runOf(s, sessions[i].ticks);
      if !outcome.Crashed? then (i + 1, InputExhausted, after)
      else if !AskRestart(sessions[i].answer) then (i + 1, Declined, after)
      else PlayFrom(runOf, Restarted(after), sessions, i + 1)
  }

  /** The sessions of `play` on a game in state `s`, each run as `RunOf` plays it. */
  function PlayOf(s: State, sessions: seq<Session>): (nat, PlayEnd, State) {
    PlayFrom(RunOf, s, sessions, 0)
  }

  /** One session of `PlayFrom`, with the run's outcome and the game after it given. */
  lemma PlayFromRound(runOf: (State, seq<Tick>) -> (RunEnd, State), s: State, sessions: seq<Session>, i: nat,
                      run: (RunEnd, State))
    requires i < |sessions| && run == runOf(s, sessions[i].ticks)
    ensures !run.0.Crashed? ==> PlayFrom(runOf, s, sessions, i) == (i + 1, InputExhausted, run.1)
    ensures run.0.Crashed? && !AskRestart(sessions[i].answer) ==>
      PlayFrom(runOf, s, sessions, i) == (i + 1, Declined, run.1)
    ensures run.0.Crashed? && AskRestart(sessions[i].answer) ==>
      PlayFrom(runOf, s, sessions, i) == PlayFrom(runOf, Restarted(run.1), sessions, i + 1)
  {
  }

  /** Every run of play before the last was answered with a yes. */
  lemma {:induction false} PlayFromAnswers(runOf: (State, seq<Tick>) -> (RunEnd, State), s: State,
                                           sessions: seq<Session>, i: nat)
    requires i <= |sessions|
    ensures forall j :: i <= j < PlayFrom(runOf, s, sessions, i).0 - 1 ==> AskRestart(sessions[j].answer)
    decreases |sessions| - i
  {
    if i < |sessions| {
      var run := runOf(s, sessions[i].ticks);
      PlayFromRound(runOf, s, sessions, i, run);
      if run.0.Crashed? && AskRestart(sessions[i].answer) {
        var next := Restarted(run.1);
        PlayFromAnswers(runOf, next, sessions, i + 1);
        var rounds := PlayFrom(runOf, next, sessions, i + 1).0;
        forall j | i <= j < rounds - 1
          ensures AskRestart(sessions[j].answer)
        {
          if j == i {
            assert AskRestart(sessions[i].answer);
          }
        }
      }
    }
  }

  /** A declined play ended on a no to its last run. */
  lemma {:induction false} PlayFromDeclined(runOf: (State, seq<Tick>) -> (RunEnd, State), s: State,
                                            sessions: seq<Session>, i: nat)
    requires i <= |sessions|
    ensures var (rounds, end, _) := PlayFrom(runOf, s, sessions, i);
      end == Declined ==> !AskRestart(sessions[rounds - 1].answer)
    decreases |sessions| - i
  {
    if i < |sessions| {
      var run := runOf(s, sessions[i].ticks);
      PlayFromRound(runOf, s, sessions, i, run);
      if run.0.Crashed? && AskRestart(sessions[i].answer) {
        PlayFromDeclined(runOf, Restarted(run.1), sessions, i + 1);
      }
    }
  }

  /**
   * How play leaves a running game: the highscore never goes down, and play
   * ends declined exactly when the game is left stopped.
   */
  lemma {:induction false} PlayFromStops(s: State, sessions: seq<Session>, i: nat)
    requires s.running
    ensures var (rounds, end, r) := PlayFrom(RunOf, s, sessions, i);
      r.highscore >= s.highscore && (end == Declined <==> !r.running)
    decreases |sessions| - i
  {
    if i < |sessions| {
      var run := RunOf(s, sessions[i].ticks);
      RunFromPromises(s, sessions[i].ticks, 0);
      PlayFromRound(RunOf, s, sessions, i, run);
      if run.0.Crashed? && AskRestart(sessions[i].answer) {
        PlayFromStops(Restarted(run.1), sessions, i + 1);
      }
    }
  }

  class Game {
    const screen: GameScreen
    const player: Player
    const blocks: Blocks.BlockManager
    var level: int
    var highscore: int
    var running: bool

    /** The default field, a default player on it, and a consistent block manager. */
    ghost predicate Valid()
      reads this, player, blocks
    {
      screen == DefaultScreen() && blocks.Valid() &&
      player.startX == START_X && player.startY == START_Y &&
      player.width == PLAYER_WIDTH && player.height == PLAYER_HEIGHT && player.moveDistance == PLAYER_STEP &&
      player.top == screen.top && player.bottom == screen.bottom &&
      player.left == screen.left && player.right == screen.right
    }

    /** The game's state as a value. */
    function Snapshot(): State
      reads this, player, blocks
    {
      State(player.x, player.y, player.shape, level, highscore, running, blocks.container, blocks.Settings())
    }

    /**
     * A new game: default screen, player at the start as a car, a block
     * manager with its first batch, level 1, the stored highscore, running.
     */
    constructor (spawn: LegacyHelpers.Spawn, storedHighscore: int)
      requires Blocks.CanSpawn(Blocks.DEFAULTS, spawn)
      ensures Valid() && fresh(player) && fresh(blocks)
      ensures level == 1 && highscore == storedHighscore && running
      ensures player.x == START_X && player.y == START_Y && player.shape == CarShape
      ensures blocks.Settings() == Blocks.DEFAULTS
      ensures blocks.container == Blocks.Placed(LegacyHelpers.BatchOf(0, 3, 25.0, Blocks.X_GENESIS, spawn).value)
    {
      DefaultBoundaries();
      screen := DefaultScreen();
      player := new Player(DefaultScreen());
      blocks := new Blocks.BlockManager(spawn);
      level := 1;
      highscore := storedHighscore;
      running := true;
    }

    /** A key press between frames: the bound move of the player. */
    method Press(k: Key)
      requires Valid()
      modifies player`x, player`y
      ensures Valid()
      ensures (player.x, player.y) == AfterKey(k, old(player.x), old(player.y))
    {
      match k
      case Up => player.MoveUp();
      case Down => player.MoveDown();
      case Right => player.MoveRight();
      case Left => player.MoveLeft();
    }

    /** The key presses between two frames, one move each, in order. */
    method PressAll(keys: seq<Key>)
      requires Valid()
      modifies player`x, player`y
      ensures Valid()
      ensures (player.x, player.y) == AfterKeys(keys, old(player.x), old(player.y))
      ensures Snapshot() == Pressed(old(Snapshot()), keys)
    {
      for j := 0 to |keys|
        invariant Valid()
        invariant (player.x, player.y) == AfterKeys(keys[..j], old(player.x), old(player.y))
      {
        assert keys[..j + 1][..j] == keys[..j];
        Press(keys[j]);
      }
      assert keys[..|keys|] == keys;
    }

    /**
     * `_level_up`: one level more, the highscore told the new level, the
     * player back at the start, and the difficulty escalated for the new level.
     */
    method LevelUp()
      requires Valid()
      modifies this`level, this`highscore, player`x, player`y
      modifies blocks`speed, blocks`batchMax, blocks`batchMin, blocks`xGap, blocks`yGap
      ensures Valid()
      ensures level == old(level) + 1 && highscore == Max(old(highscore), level)
      ensures player.x == START_X && player.y == START_Y
      ensures blocks.Settings() == Blocks.Escalated(old(blocks.Settings()), level)
    {
      level := level + 1;
      if level > highscore {
        highscore := level;
      }
      player.ResetPosition();
      blocks.IncreaseDifficulty(level);
    }

    /** `_handle_collisions`: the explosion sprite, and the run stops. */
    method HandleCollisions()
      modifies player`shape, this`running
      ensures player.shape == ExplosionShape && !running
    {
      player.UpdateShape(ExplosionShape);
      running := false;
    }

    /**
     * The end-state tests of one pass of the `run` loop, on the updated field:
     * a collision ends the run with level, player position and difficulty
     * untouched; only without a collision is the goal tested, which levels up.
     */
    method CheckEndStates() returns (crashed: bool)
      requires Valid()
      modifies this`level, this`highscore, this`running, player`x, player`y, player`shape
      modifies blocks`speed, blocks`batchMax, blocks`batchMin, blocks`xGap, blocks`yGap
      ensures Valid()
      ensures crashed <==> Collides(old(player.x), old(player.y), PLAYER_WIDTH, PLAYER_HEIGHT, blocks.container)
      ensures Snapshot() == Judged(old(Snapshot()))
    {
      if Helpers.CheckCollision(player, blocks.container) {
        HandleCollisions();
        crashed := true;
      } else {
        crashed := false;
        if PlayerReachedGoal(player.y, screen.top) {
          LevelUp();
        }
      }
    }

    /** One pass of the `run` loop: update the blocks, then the end-state tests on the new field. */
    method Step(spawn: LegacyHelpers.Spawn) returns (crashed: bool)
      requires Valid() && Ready(Snapshot(), spawn)
      modifies this`level, this`highscore, this`running, player`x, player`y, player`shape
      modifies blocks`container, blocks`speed, blocks`batchMax, blocks`batchMin, blocks`xGap, blocks`yGap
      ensures Valid()
      ensures crashed <==> Collides(old(player.x), old(player.y), PLAYER_WIDTH, PLAYER_HEIGHT, blocks.container)
      ensures Snapshot() == Stepped(old(Snapshot()), spawn)
    {
      assert blocks.TickReady(spawn);
      blocks.UpdateBlocks(spawn);
      crashed := CheckEndStates();
    }

    /**
     * `run`: frames until a collision stops the game, each one the key presses
     * since the last frame, the block update and the end-state tests; the
     * outcome and the game afterwards are those of `RunOf`.
     */
    method Run(ticks: seq<Tick>) returns (outcome: RunEnd)
      requires Valid()
      modifies this`level, this`highscore, this`running, player`x, player`y, player`shape
      modifies blocks`container, blocks`speed, blocks`batchMax, blocks`batchMin, blocks`xGap, blocks`yGap
      ensures Valid()
      ensures (outcome, Snapshot()) == RunOf(old(Snapshot()), ticks)
    {
      var i := 0;
      while i < |ticks| && running
        invariant 0 <= i <= |ticks|
        invariant Valid()
        invariant RunFrom(Snapshot(), ticks, i) == RunOf(old(Snapshot()), ticks)
        decreases |ticks| - i
      {
        ghost var before := Snapshot();
        PressAll(ticks[i].keys);
        if !Ready(Snapshot(), ticks[i].spawn) {
          return Stalled(i);
        }
        ghost var pressed := Snapshot();
        var crashed := Step(ticks[i].spawn);
        assert Snapshot() == Stepped(pressed, ticks[i].spawn);
        if crashed {
          assert !Snapshot().running;
          return Crashed(i);
        }
        assert RunFrom(before, ticks, i) == RunFrom(Snapshot(), ticks, i + 1);
        i := i + 1;
      }
      return OutOfTicks;
    }

    /**
     * `reset`: empty field and restored batch settings, the player at the
     * start as a car, level 1, running again; the highscore stays.
     */
    method Reset()
      requires Valid()
      modifies this`level, this`running, player`x, player`y, player`shape
      modifies blocks`container, blocks`speed, blocks`batchMax, blocks`batchMin
      ensures Valid()
      ensures Snapshot() == Restarted(old(Snapshot()))
    {
      blocks.Reset();
      player.Reset();
      level := 1;
      running := true;
    }

    /**
     * One pass of `play`'s loop: a run, then, after a crash, the answer and a
     * reset on a yes. It either ends play as `PlayFrom` does at session `i`,
     * or leaves a running game from which `PlayFrom` goes on at session `i + 1`.
     */
    method PlayRound(sessions: seq<Session>, i: nat) returns (done: bool, end: PlayEnd)
      requires Valid() && running && i < |sessions|
      modifies this`level, this`highscore, this`running, player`x, player`y, player`shape
      modifies blocks`container, blocks`speed, blocks`batchMax, blocks`batchMin, blocks`xGap, blocks`yGap
      ensures Valid()
      ensures done ==> PlayFrom(RunOf, old(Snapshot()), sessions, i) == (i + 1, end, Snapshot())
      ensures !done ==> running
      ensures !done ==> PlayFrom(RunOf, old(Snapshot()), sessions, i) == PlayFrom(RunOf, Snapshot(), sessions, i + 1)
    {
      ghost var before := Snapshot();
      var outcome := Run(sessions[i].ticks);
      PlayFromRound(RunOf, before, sessions, i, (outcome, Snapshot()));
      if !outcome.Crashed? {
        return true, InputExhausted;
      }
      if !AskRestart(sessions[i].answer) {
        return true, Declined;
      }
      Reset();
      return false, InputExhausted;
    }

    /**
     * `play` on a running game: a run per session; after each crash the
     * answer decides between a reset and the end. The runs played, how play
     * ended and the game afterwards are those of `PlayOf`.
     */
    method Play(sessions: seq<Session>) returns (rounds: nat, end: PlayEnd)
      requires Valid() && running
      modifies this`level, this`highscore, this`running, player`x, player`y, player`shape
      modifies blocks`container, blocks`speed, blocks`batchMax, blocks`batchMin, blocks`xGap, blocks`yGap
      ensures Valid()
      ensures (rounds, end, Snapshot()) == PlayOf(old(Snapshot()), sessions)
    {
      var i := 0;
      while i < |sessions|
        invariant i <= |sessions| && Valid() && running
        invariant PlayFrom(RunOf, Snapshot(), sessions, i) == PlayOf(old(Snapshot()), sessions)
        decreases |sessions| - i
      {
        var done;
        done, end := PlayRound(sessions, i);
        if done {
          return i + 1, end;
        }
        i := i + 1;
      }
      return i, InputExhausted;
    }
  }

  /**
   * A new game, restarted, then fifty-three presses of the up key: the player
   * is at (0, 265), 5 px past the goal line, on an empty field with the
   * default settings, at level 1, still running as a car.
   */
  method ClimbToGoal(first: LegacyHelpers.Spawn, storedHighscore: int) returns (g: Game)
    requires Blocks.CanSpawn(Blocks.DEFAULTS, first)
    ensures fresh(g) && fresh(g.player) && fresh(g.blocks) && g.Valid()
    ensures g.player.x == 0 && g.player.y == 265 && g.player.shape == CarShape
    ensures g.level == 1 && g.highscore == storedHighscore && g.running
    ensures g.blocks.container == [] && g.blocks.Settings() == Blocks.DEFAULTS
  {
    g := new Game(first, storedHighscore);
    g.Reset();
    for k := 0 to 53
      invariant g.Valid() && g.player.x == 0 && g.player.y == START_Y + PLAYER_STEP * k
      modifies g.player`x, g.player`y
    {
      g.Press(Up);
    }
  }

  /**
   * Fifty-three presses of the up key after a restart, then one frame: the
   * fresh batch is far to the right, so there is no collision, and the
   * player, 5 px past the goal line, reaches level 2, goes back to the start,
   * and the difficulty escalates once.
   */
  method DashToGoal(first: LegacyHelpers.Spawn, next: LegacyHelpers.Spawn, storedHighscore: int)
    returns (crashed: bool, level: int, highscore: int, x: int, y: int, settings: Blocks.Difficulty)
    requires Blocks.CanSpawn(Blocks.DEFAULTS, first) && Blocks.CanSpawn(Blocks.DEFAULTS, next)
    ensures !crashed && level == 2 && highscore == Max(storedHighscore, 2)
    ensures x == START_X && y == START_Y
    ensures settings == Blocks.Difficulty(0.19, 3, 0, 80.0, 25.0)
  {
    var g := ClimbToGoal(first, storedHighscore);
    assert Blocks.Moved([], Blocks.MOVE_DISTANCE) == [];
    Blocks.UpdateOfEmptyField(Blocks.DEFAULTS, next);
    DefaultBoundaries();
    crashed := g.Step(next);
    var field := g.blocks.container;
    assert forall i :: 0 <= i < |field| ==> field[i].x == Blocks.X_GENESIS;
    assert !Collides(0, 265, PLAYER_WIDTH, PLAYER_HEIGHT, field);
    level, highscore, x, y, settings := g.level, g.highscore, g.player.x, g.player.y, g.blocks.Settings();
  }

  /**
   * The collision test comes before the goal test: a player 5 px past the
   * goal line with a block moving onto its position crashes, and the level
   * stays at 1.
   */
  method CollisionBeatsGoal(first: LegacyHelpers.Spawn, next: LegacyHelpers.Spawn, storedHighscore: int)
    returns (crashed: bool, running: bool, level: int, highscore: int, y: int)
    requires Blocks.CanSpawn(Blocks.DEFAULTS, first) && Blocks.CanSpawn(Blocks.DEFAULTS, next)
    ensures crashed && !running && level == 1 && highscore == storedHighscore
    ensures PlayerReachedGoal(y, DefaultScreen().top)
  {
    var g := ClimbToGoal(first, storedHighscore);
    g.blocks.RenderBlocks([(5, 265)]);
    assert g.blocks.container == [Block(5, 265)];
    Blocks.UpdateKeepsMovedHead(g.blocks.container, Blocks.DEFAULTS, next);
    y := g.player.y;
    DefaultBoundaries();
    crashed := g.Step(next);
    var field := g.blocks.container;
    assert field[0] == Block(0, 265);
    assert Hits(0, 265, PLAYER_WIDTH, PLAYER_HEIGHT, field[0]);
    running, level, highscore := g.running, g.level, g.highscore;
  }
}
