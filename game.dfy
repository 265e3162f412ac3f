/**
 * The game state machine and the main loop: key events, the per-frame tick
 * while playing (clock, player, falling, camera, coins, goal) and the frame
 * loop that runs until the player quits.
 *
 * As in module Physics, pure functions say what one call does to the whole
 * world; the classes hold the mutable state and their methods are proved to
 * follow those functions. Inv is the invariant every reachable world keeps.
 */
module GameLoop {
  import opened Geometry
  import opened Physics
  import opened Scrolling
  import opened Level

  const StartLives: int := 3
  const StartTime: int := 400
  const TicksPerSecond: int := 60
  const CoinScore: int := 200

  datatype Mode = Menu | Playing | GameOver | Victory

  /** The fields of the game-state object. */
  datatype Status = Status(mode: Mode, score: int, lives: int, coins: int, time: int, timer: int)

  /** The game state of a new session: the menu, three lives, a full clock. */
  const NewSession: Status := Status(Menu, 0, StartLives, 0, StartTime, 0)

  /** reset_level: clears score, coins and the tick counter and refills the clock; lives and mode stay. */
  function Reset(st: Status): (r: Status)
    ensures r.score == 0 && r.coins == 0 && r.time == StartTime && r.timer == 0
    ensures r.lives == st.lives && r.mode == st.mode
  {
    st.(score := 0, coins := 0, time := StartTime, timer := 0)
  }

  /** Everything the main loop owns. */
  datatype World = World(
    status: Status, player: PlayerState, scroll: real,
    platforms: seq<Box>, coins: seq<Box>, goal: Box, running: bool)

  /** The world when the program starts: the menu over a fresh level 1-1. */
  function Initial(): World
  {
    var l := Level11();
    World(NewSession, Spawned(SpawnX, SpawnY), 0.0, l.platforms, l.coins, l.goal, true)
  }

  // ---------------------------------------------------------------------------
  // Events
  // ---------------------------------------------------------------------------

  datatype Key = Escape | Return | OtherKey
  datatype Event = Quit | KeyDown(key: Key) | OtherEvent

  /** Enter from the menu or the game-over screen: a fresh attempt at level 1-1. */
  function StartLevel(w: World): World
  {
    var l := Level11();
    World(Reset(w.status).(mode := Playing), Spawned(SpawnX, SpawnY), 0.0,
          l.platforms, l.coins, l.goal, w.running)
  }

  /** One event of the event pump. */
  function EventStep(w: World, e: Event): World
  {
    match e
    case Quit => w.(running := false)
    case KeyDown(Escape) =>
      if w.status.mode == Playing then w.(status := w.status.(mode := Menu))
      else w.(running := false)
    case KeyDown(Return) =>
      if w.status.mode == Menu || w.status.mode == GameOver then StartLevel(w) else w
    case _ => w
  }

  /** The events of one frame, in order. */
  function EventsStep(w: World, es: seq<Event>): World
    decreases |es|
  {
    if es == [] then w else EventsStep(EventStep(w, es[0]), es[1..])
  }

  // ---------------------------------------------------------------------------
  // Coins
  // ---------------------------------------------------------------------------

  /** The coins that survive a pickup pass with the player at pb, in their original order. */
  function Uncollected(pb: Box, cs: seq<Box>): seq<Box>
    decreases |cs|
  {
    if cs == [] then []
    else
      var c := cs[|cs| - 1];
      Uncollected(pb, cs[..|cs| - 1]) + (if Overlaps(pb, c) then [] else [c])
  }

  /** The coins a pickup pass with the player at pb removes, in their original order. */
  function Collected(pb: Box, cs: seq<Box>): seq<Box>
    decreases |cs|
  {
    if cs == [] then []
    else
      var c := cs[|cs| - 1];
      Collected(pb, cs[..|cs| - 1]) + (if Overlaps(pb, c) then [c] else [])
  }

  /** A pickup pass keeps exactly the coins that do not overlap the player and collects exactly those that do. */
  lemma {:induction false} PickupSides(pb: Box, cs: seq<Box>)
    ensures forall c :: c in Uncollected(pb, cs) <==> c in cs && !Overlaps(pb, c)
    ensures forall c :: c in Collected(pb, cs) <==> c in cs && Overlaps(pb, c)
    decreases |cs|
  {
    if cs != [] {
      var init, c := cs[..|cs| - 1], cs[|cs| - 1];
      PickupSides(pb, init);
      assert cs == init + [c];
    }
  }

  /**
   * A pickup pass splits the coins in two: every coin is either kept or
   * collected, exactly once.
   */
  lemma {:induction false} CoinsPartitioned(pb: Box, cs: seq<Box>)
    ensures multiset(Uncollected(pb, cs)) + multiset(Collected(pb, cs)) == multiset(cs)
    ensures |Uncollected(pb, cs)| + |Collected(pb, cs)| == |cs|
    decreases |cs|
  {
    if cs != [] {
      var init, c := cs[..|cs| - 1], cs[|cs| - 1];
      CoinsPartitioned(pb, init);
      assert cs == init + [c];
      var u, k := Uncollected(pb, init), Collected(pb, init);
      assert multiset(cs) == multiset(init) + multiset{c};
      if Overlaps(pb, c) {
        assert Uncollected(pb, cs) == u;
        assert Collected(pb, cs) == k + [c];
        assert multiset(k + [c]) == multiset(k) + multiset{c};
      } else {
        assert Uncollected(pb, cs) == u + [c];
        assert multiset(u + [c]) == multiset(u) + multiset{c};
        assert Collected(pb, cs) == k;
      }
    }
  }

  /** The pickup pass over one coin more: the loop step of the pickup loop. */
  lemma PickupPrefix(pb: Box, cs: seq<Box>, i: nat)
    requires i < |cs|
    ensures Uncollected(pb, cs[..i + 1]) == Uncollected(pb, cs[..i]) + (if Overlaps(pb, cs[i]) then [] else [cs[i]])
    ensures Collected(pb, cs[..i + 1]) == Collected(pb, cs[..i]) + (if Overlaps(pb, cs[i]) then [cs[i]] else [])
  {
    assert cs[..i + 1][..i] == cs[..i];
  }

  /** Where an element sits in a list split around it. */
  lemma SplitAround<T>(s: seq<T>, front: seq<T>, x: T, back: seq<T>)
    requires s == front + ([x] + back)
    ensures s[..|front|] == front && s[|front| + 1..] == back
    ensures s == (front + [x]) + back
  {
  }

  /** A pass where no coin overlaps the player keeps them all. */
  lemma {:induction false} NothingToCollect(pb: Box, cs: seq<Box>)
    requires forall c :: c in cs ==> !Overlaps(pb, c)
    ensures Uncollected(pb, cs) == cs && Collected(pb, cs) == []
    decreases |cs|
  {
    if cs != [] {
      var init, c := cs[..|cs| - 1], cs[|cs| - 1];
      assert cs == init + [c];
      assert c in cs;
      assert forall d :: d in init ==> d in cs;
      NothingToCollect(pb, init);
    }
  }

  /** A second pass at the same position collects nothing more: each coin is collected at most once. */
  lemma CollectedOnce(pb: Box, cs: seq<Box>)
    ensures Collected(pb, Uncollected(pb, cs)) == []
    ensures Uncollected(pb, Uncollected(pb, cs)) == Uncollected(pb, cs)
  {
    PickupSides(pb, cs);
    NothingToCollect(pb, Uncollected(pb, cs));
  }

  // ---------------------------------------------------------------------------
  // The playing tick
  // ---------------------------------------------------------------------------

  /** The clock part of a tick: count the tick, and every 60 ticks take a second off, ending the game at 0. */
  function ClockStep(st: Status): Status
  {
    var timer := st.timer + 1;
    if timer % TicksPerSecond == 0 then
      var time := st.time - 1;
      st.(timer := timer, time := time, mode := if time <= 0 then GameOver else st.mode)
    else
      st.(timer := timer)
  }

  /** A player below the screen costs a life: the game ends at 0 lives, otherwise the player respawns. */
  function FallStep(w: World): World
  {
    if w.player.y > ScreenHeight as real then
      var lives := w.status.lives - 1;
      if lives <= 0 then w.(status := w.status.(lives := lives, mode := GameOver))
      else w.(status := w.status.(lives := lives), player := Spawned(SpawnX, SpawnY), scroll := 0.0)
    else w
  }

  function CameraStep(w: World): World
  {
    w.(scroll := Follow(w.scroll, w.player.x))
  }

  /** Remove, count and score every coin the player overlaps. */
  function PickupStep(w: World): World
  {
    var pb := PlayerBox(w.player.x, w.player.y);
    var got := |Collected(pb, w.coins)|;
    w.(coins := Uncollected(pb, w.coins),
       status := w.status.(coins := w.status.coins + got, score := w.status.score + CoinScore * got))
  }

  function GoalStep(w: World): World
  {
    if Overlaps(PlayerBox(w.player.x, w.player.y), w.goal) then w.(status := w.status.(mode := Victory)) else w
  }

  /**
   * One frame in the PLAYING state, in the order of the source: clock,
   * player, fall, camera, coins, goal. A GAME_OVER set by the clock or by a
   * fall does not end the frame: the later steps still run, and reaching the
   * goal overrides it with VICTORY.
   */
  function TickStep(w: World, input: Input): World
  {
    var moved := w.(status := ClockStep(w.status), player := UpdateStep(w.player, input, w.platforms));
    GoalStep(PickupStep(CameraStep(FallStep(moved))))
  }

  // ---------------------------------------------------------------------------
  // Frames and the main loop
  // ---------------------------------------------------------------------------

  /** What the outside world supplies for one frame: the queued events and the keys held. */
  datatype FrameInput = FrameInput(events: seq<Event>, input: Input)

  /** One iteration of the main loop: all events, then a tick if the game is being played. */
  function FrameStep(w: World, f: FrameInput): World
  {
    var w1 := EventsStep(w, f.events);
    if w1.status.mode == Playing then TickStep(w1, f.input) else w1
  }

  /** The main loop over a finite script of frames; it stops early once running is false. */
  function RunSteps(w: World, frames: seq<FrameInput>): World
    decreases |frames|
  {
    if !w.running || frames == [] then w else RunSteps(FrameStep(w, frames[0]), frames[1..])
  }

  // ---------------------------------------------------------------------------
  // The invariant
  // ---------------------------------------------------------------------------

  /** The clock shows 400 minus the seconds played and has not run out while playing. */
  predicate ClockInv(st: Status)
  {
    0 <= st.timer && st.time == StartTime - st.timer / TicksPerSecond &&
    (st.mode == Playing ==> st.time > 0)
  }

  /**
   * What holds of a world playing level l: the score is 200 per coin;
   * collected and remaining coins add up to the level's coins and the
   * remaining ones are level coins; the clock invariant; lives never exceed
   * 3; the camera is never left of the origin; the player is alive with an
   * animation frame of 0 or 1; platforms and goal are those of l.
   */
  predicate LevelInv(w: World, l: Layout)
  {
    w.status.score == CoinScore * w.status.coins &&
    w.status.coins + |w.coins| == |l.coins| &&
    multiset(w.coins) <= multiset(l.coins) &&
    ClockInv(w.status) &&
    w.status.lives <= StartLives &&
    w.scroll >= 0.0 &&
    w.player.alive && 0 <= w.player.animTimer && (w.player.frame == 0 || w.player.frame == 1) &&
    -MaxSpeed <= w.player.velX <= MaxSpeed &&
    w.platforms == l.platforms && w.goal == l.goal
  }

  /** What holds of every world the program can reach: the invariant for level 1-1. */
  predicate Inv(w: World)
  {
    LevelInv(w, Level11())
  }

  lemma InitialInv()
    ensures Inv(Initial())
  {
  }

  lemma EventInv(w: World, e: Event)
    requires Inv(w)
    ensures Inv(EventStep(w, e))
  {
  }

  lemma {:induction false} EventsInv(w: World, es: seq<Event>)
    requires Inv(w)
    ensures Inv(EventsStep(w, es))
    decreases |es|
  {
    if es != [] {
      EventInv(w, es[0]);
      EventsInv(EventStep(w, es[0]), es[1..]);
    }
  }

  /** The seconds shown by the clock go down by one exactly when the tick counter reaches a multiple of 60. */
  lemma SecondsStep(timer: int)
    requires timer >= 0
    ensures (timer + 1) / TicksPerSecond ==
      timer / TicksPerSecond + (if (timer + 1) % TicksPerSecond == 0 then 1 else 0)
  {
  }

  /** The clock step keeps the clock invariant: the clock reaching 0 always ends the game. */
  lemma ClockStepInv(st: Status)
    requires ClockInv(st)
    ensures ClockInv(ClockStep(st))
  {
    SecondsStep(st.timer);
  }

  /** The player facts of the invariant survive the player's update. */
  lemma UpdateKeepsPlayer(p: PlayerState, input: Input, ps: seq<Box>)
    requires p.alive && 0 <= p.animTimer && (p.frame == 0 || p.frame == 1)
    requires -MaxSpeed <= p.velX <= MaxSpeed
    ensures var r := UpdateStep(p, input, ps);
      r.alive && 0 <= r.animTimer && (r.frame == 0 || r.frame == 1) &&
      -MaxSpeed <= r.velX <= MaxSpeed
  {
    SpeedStaysBounded(p, input, ps);
  }

  /**
   * What a tick does, piece by piece: the clock fields come from the clock
   * step, the mode is the clock's unless a fall ends the game or the goal is
   * reached, the player is the updated one or a respawned one, the camera
   * follows within the level, and the coins are one pickup pass at the
   * player's final position. Platforms, goal and running stay.
   */
  lemma TickShape(w: World, input: Input)
    ensures var r := TickStep(w, input); var c := ClockStep(w.status);
      var pb := PlayerBox(r.player.x, r.player.y);
      r.status.timer == c.timer && r.status.time == c.time &&
      (r.status.mode == c.mode || r.status.mode == GameOver || r.status.mode == Victory) &&
      r.status.lives <= w.status.lives &&
      (r.player == UpdateStep(w.player, input, w.platforms) || r.player == Spawned(SpawnX, SpawnY)) &&
      (w.scroll >= 0.0 ==> r.scroll >= 0.0) &&
      r.coins == Uncollected(pb, w.coins) &&
      r.status.coins == w.status.coins + |Collected(pb, w.coins)| &&
      r.status.score == w.status.score + CoinScore * |Collected(pb, w.coins)| &&
      r.platforms == w.platforms && r.goal == w.goal && r.running == w.running
  {
  }

  /** A tick keeps the invariant of whatever level is being played. */
  lemma TickLevelInv(w: World, input: Input, l: Layout)
    requires LevelInv(w, l) && w.status.mode == Playing
    ensures LevelInv(TickStep(w, input), l)
  {
    var r := TickStep(w, input);
    TickShape(w, input);
    ClockStepInv(w.status);
    UpdateKeepsPlayer(w.player, input, w.platforms);
    CoinsPartitioned(PlayerBox(r.player.x, r.player.y), w.coins);
  }

  /** The tick keeps the invariant. */
  lemma TickInv(w: World, input: Input)
    requires Inv(w) && w.status.mode == Playing
    ensures Inv(TickStep(w, input))
  {
    TickLevelInv(w, input, Level11());
  }

  lemma FrameInv(w: World, f: FrameInput)
    requires Inv(w)
    ensures Inv(FrameStep(w, f))
  {
    EventsInv(w, f.events);
    var w1 := EventsStep(w, f.events);
    if w1.status.mode == Playing {
      TickInv(w1, f.input);
    }
  }

  lemma {:induction false} RunInv(w: World, frames: seq<FrameInput>)
    requires Inv(w)
    ensures Inv(RunSteps(w, frames))
    decreases |frames|
  {
    if w.running && frames != [] {
      FrameInv(w, frames[0]);
      RunInv(FrameStep(w, frames[0]), frames[1..]);
    }
  }

  /** Every world the main loop reaches from program start satisfies Inv. */
  lemma ReachableInv(frames: seq<FrameInput>)
    ensures Inv(RunSteps(Initial(), frames))
  {
    InitialInv();
    RunInv(Initial(), frames);
  }

  // ---------------------------------------------------------------------------
  // Key transitions
  // ---------------------------------------------------------------------------

  /**
   * Enter on the menu or the game-over screen starts level 1-1 afresh with
   * the counters reset, but the lives are carried over unchanged.
   */
  lemma EnterStarts(w: World)
    requires w.status.mode == Menu || w.status.mode == GameOver
    ensures var r := EventStep(w, KeyDown(Return));
      r.status == Status(Playing, 0, w.status.lives, 0, StartTime, 0) &&
      r.player == Spawned(SpawnX, SpawnY) && r.scroll == 0.0 &&
      r.platforms == Level11().platforms && r.coins == Level11().coins && r.goal == Level11().goal &&
      r.running == w.running
  {
  }

  /** Enter while playing or on the victory screen does nothing. */
  lemma EnterIgnored(w: World)
    requires w.status.mode == Playing || w.status.mode == Victory
    ensures EventStep(w, KeyDown(Return)) == w
  {
  }

  /** Escape while playing returns to the menu and resets nothing. */
  lemma EscapeToMenu(w: World)
    requires w.status.mode == Playing
    ensures EventStep(w, KeyDown(Escape)) == w.(status := w.status.(mode := Menu))
  {
  }

  /** Escape anywhere else, or closing the window, stops the main loop and changes nothing else. */
  lemma EscapeQuits(w: World)
    requires w.status.mode != Playing
    ensures EventStep(w, KeyDown(Escape)) == w.(running := false)
    ensures EventStep(w, Quit) == w.(running := false)
  {
  }

  /** Once running is false the main loop runs no further frame. */
  lemma StoppedStaysStopped(w: World, frames: seq<FrameInput>)
    requires !w.running
    ensures RunSteps(w, frames) == w
  {
  }

  // ---------------------------------------------------------------------------
  // Tick properties
  // ---------------------------------------------------------------------------

  /** The tick counter advances by one and the clock loses a second every 60 ticks. */
  lemma TickClock(w: World, input: Input)
    ensures TickStep(w, input).status.timer == w.status.timer + 1
    ensures TickStep(w, input).status.time ==
      w.status.time - (if (w.status.timer + 1) % TicksPerSecond == 0 then 1 else 0)
  {
  }

  /** A level attempt lasts fewer than 400 seconds of ticks. */
  lemma PlayingTimerBound(w: World)
    requires ClockInv(w.status) && w.status.mode == Playing
    ensures w.status.timer < StartTime * TicksPerSecond
  {
  }

  /** The 24000th tick of an attempt empties the clock and ends the level, unless the goal is reached on it. */
  lemma TimeUp(w: World, input: Input)
    requires ClockInv(w.status) && w.status.mode == Playing
    requires w.status.timer == StartTime * TicksPerSecond - 1
    ensures TickStep(w, input).status.time == 0
    ensures TickStep(w, input).status.mode == GameOver || TickStep(w, input).status.mode == Victory
  {
    TickShape(w, input);
    assert ClockStep(w.status).mode == GameOver;
  }

  /** Reaching the goal wins the level, whatever the clock or a fall did earlier in the same tick. */
  lemma GoalWins(w: World, input: Input)
    requires Overlaps(PlayerBox(TickStep(w, input).player.x, TickStep(w, input).player.y), w.goal)
    ensures TickStep(w, input).status.mode == Victory
  {
  }

  /** Falling with the last life ends the game; the fallen player is not respawned. */
  lemma FallOnLastLife(w: World, input: Input, l: Layout)
    requires WellFormed(l) && LevelInv(w, l) && w.status.mode == Playing && w.status.lives <= 1
    requires UpdateStep(w.player, input, w.platforms).y > ScreenHeight as real
    ensures TickStep(w, input).status.lives == w.status.lives - 1
    ensures TickStep(w, input).status.mode == GameOver
    ensures TickStep(w, input).player == UpdateStep(w.player, input, w.platforms)
  {
    var p := UpdateStep(w.player, input, w.platforms);
    assert !Overlaps(PlayerBox(p.x, p.y), w.goal);
  }

  /**
   * A freshly respawned player in a well-formed level has nothing to pick up
   * and is not at the goal, and the camera stays at the origin: the rest of
   * the tick changes nothing.
   */
  lemma AfterRespawn(f: World, l: Layout)
    requires WellFormed(l) && f.goal == l.goal && multiset(f.coins) <= multiset(l.coins)
    requires f.player == Spawned(SpawnX, SpawnY) && f.scroll == 0.0
    ensures GoalStep(PickupStep(CameraStep(f))) == f
  {
    var pb := PlayerBox(SpawnX, SpawnY);
    assert PlayerBox(f.player.x, f.player.y) == pb;
    assert Follow(0.0, SpawnX) == 0.0;
    assert CameraStep(f) == f;
    forall d | d in f.coins
      ensures !Overlaps(pb, d)
    {
      assert d in multiset(f.coins);
      assert d in multiset(l.coins);
    }
    NothingToCollect(pb, f.coins);
    assert PickupStep(f) == f;
  }

  /**
   * Falling with lives to spare costs one life and puts a new player at the
   * spawn point with the camera at the origin; nothing is collected there.
   */
  lemma FallRespawns(w: World, input: Input, l: Layout)
    requires WellFormed(l) && LevelInv(w, l) && w.status.mode == Playing && w.status.lives >= 2
    requires UpdateStep(w.player, input, w.platforms).y > ScreenHeight as real
    ensures TickStep(w, input).status.lives == w.status.lives - 1
    ensures TickStep(w, input).player == Spawned(SpawnX, SpawnY)
    ensures TickStep(w, input).scroll == 0.0
    ensures TickStep(w, input).coins == w.coins
    ensures TickStep(w, input).status.score == w.status.score
    ensures TickStep(w, input).status.mode != Victory
  {
    var m := w.(status := ClockStep(w.status), player := UpdateStep(w.player, input, w.platforms));
    var f := FallStep(m);
    assert f == m.(status := m.status.(lives := m.status.lives - 1), player := Spawned(SpawnX, SpawnY), scroll := 0.0);
    AfterRespawn(f, l);
  }

  /**
   * Because the game-over screen's Enter keeps the lives, losing the last life
   * and retrying starts a level with no lives left.
   */
  lemma RetryWithoutLives(w: World, input: Input, l: Layout)
    requires WellFormed(l) && LevelInv(w, l) && w.status.mode == Playing && w.status.lives <= 1
    requires UpdateStep(w.player, input, w.platforms).y > ScreenHeight as real
    ensures EventStep(TickStep(w, input), KeyDown(Return)).status.mode == Playing
    ensures EventStep(TickStep(w, input), KeyDown(Return)).status.lives == w.status.lives - 1
  {
    FallOnLastLife(w, input, l);
  }

  // ---------------------------------------------------------------------------
  // The mutable objects
  // ---------------------------------------------------------------------------

  /** The game-state object: mode and counters. */
  class GameState {
    var state: Mode
    var score: int
    var lives: int
    var coins: int
    var time: int
    var timer: int

    function Snapshot(): Status
      reads this
    {
      Status(state, score, lives, coins, time, timer)
    }

    constructor ()
      ensures Snapshot() == NewSession
    {
      state := Menu;
      score := 0;
      lives := StartLives;
      coins := 0;
      time := StartTime;
      timer := 0;
    }

    method ResetLevel()
      modifies this
      ensures Snapshot() == Reset(old(Snapshot()))
    {
      score := 0;
      coins := 0;
      time := StartTime;
      timer := 0;
    }
  }

  /**
   * The state the main loop owns: the game state, the camera, the current
   * player object (replaced on respawn and restart) and the level lists.
   */
  class Game {
    const gs: GameState
    const cam: Camera
    var player: Player
    var platforms: seq<Box>
    var coins: seq<Box>
    var goal: Box
    var running: bool

    function Snapshot(): World
      reads this, gs, cam, player
    {
      World(gs.Snapshot(), player.State(), cam.scrollX, platforms, coins, goal, running)
    }

    constructor ()
      ensures Snapshot() == Initial()
    {
      gs := new GameState();
      cam := new Camera();
      var l := Level11();
      platforms, coins, goal := l.platforms, l.coins, l.goal;
      player := new Player(SpawnX, SpawnY);
      running := true;
    }

    method HandleEvent(e: Event)
      modifies this, gs, cam
      ensures Snapshot() == EventStep(old(Snapshot()), e)
      ensures player == old(player) || fresh(player)
    {
      match e
      case Quit =>
        running := false;
      case KeyDown(k) =>
        if k == Escape {
          if gs.state == Playing {
            gs.state := Menu;
          } else {
            running := false;
          }
        } else if k == Return {
          if gs.state == Menu || gs.state == GameOver {
            gs.state := Playing;
            gs.ResetLevel();
            var l := Level11();
            platforms, coins, goal := l.platforms, l.coins, l.goal;
            player := new Player(SpawnX, SpawnY);
            cam.scrollX := 0.0;
          }
        }
      case OtherEvent =>
    }

    /**
     * The pickup loop: iterate over a copy of the coin list and remove every
     * coin the player overlaps from the live list, counting and scoring it.
     */
    method CollectCoins()
      modifies this`coins, gs
      ensures Snapshot() == PickupStep(old(Snapshot()))
    {
      var pb := PlayerBox(player.x, player.y);
      CollectAt(pb);
    }

    /** The pickup loop for a player box pb. */
    method CollectAt(pb: Box)
      modifies this`coins, gs
      ensures coins == Uncollected(pb, old(coins))
      ensures gs.Snapshot() == old(gs.Snapshot()).(
        coins := old(gs.coins) + |Collected(pb, old(coins))|,
        score := old(gs.score) + CoinScore * |Collected(pb, old(coins))|)
    {
      var copy := coins;
      ghost var kept: seq<Box> := [];
      ghost var got: seq<Box> := [];
      for i := 0 to |copy|
        invariant kept == Uncollected(pb, copy[..i]) && got == Collected(pb, copy[..i])
        invariant coins == kept + copy[i..]
        invariant gs.coins == old(gs.coins) + |got| && gs.score == old(gs.score) + CoinScore * |got|
        invariant gs.state == old(gs.state) && gs.lives == old(gs.lives)
        invariant gs.time == old(gs.time) && gs.timer == old(gs.timer)
      {
        PickupPrefix(pb, copy, i);
        assert copy[i..] == [copy[i]] + copy[i + 1..];
        SplitAround(coins, kept, copy[i], copy[i + 1..]);
        if Overlaps(pb, copy[i]) {
          // the coin sits right after the coins kept so far
          var k := |coins| - (|copy| - i);
          RemoveCoin(k);
          got := got + [copy[i]];
        } else {
          kept := kept + [copy[i]];
        }
      }
      assert copy[..|copy|] == copy;
    }

    /** Take the coin at index k off the list, counting and scoring it. */
    method RemoveCoin(k: nat)
      requires k < |coins|
      modifies this`coins, gs
      ensures coins == old(coins[..k] + coins[k + 1..])
      ensures gs.coins == old(gs.coins) + 1 && gs.score == old(gs.score) + CoinScore
      ensures gs.state == old(gs.state) && gs.lives == old(gs.lives)
      ensures gs.time == old(gs.time) && gs.timer == old(gs.timer)
    {
      coins := coins[..k] + coins[k + 1..];
      gs.coins := gs.coins + 1;
      gs.score := gs.score + CoinScore;
    }

    /** One frame while playing: clock, player, fall, camera, coins, goal. */
    method Tick(input: Input)
      modifies this, gs, cam, player
      ensures Snapshot() == TickStep(old(Snapshot()), input)
      ensures player == old(player) || fresh(player)
    {
      ghost var w0 := Snapshot();
      CountTick();
      ghost var w1 := Snapshot();
      assert w1 == w0.(status := ClockStep(w0.status));
      player.Update(input, platforms);
      ghost var w2 := Snapshot();
      assert w2 == w1.(player := UpdateStep(w1.player, input, w1.platforms));
      CheckFall();
      ghost var w3 := Snapshot();
      cam.Update(player.x);
      ghost var w4 := Snapshot();
      assert w4 == CameraStep(w3);
      CollectCoins();
      CheckGoal();
    }

    /** The clock part of the tick. */
    method CountTick()
      modifies gs
      ensures gs.Snapshot() == ClockStep(old(gs.Snapshot()))
    {
      gs.timer := gs.timer + 1;
      if gs.timer % TicksPerSecond == 0 {
        gs.time := gs.time - 1;
        if gs.time <= 0 {
          gs.state := GameOver;
        }
      }
    }

    /** The goal check of the tick. */
    method CheckGoal()
      modifies gs
      ensures Snapshot() == GoalStep(old(Snapshot()))
    {
      if Overlaps(PlayerBox(player.x, player.y), goal) {
        gs.state := Victory;
      }
    }

    /** The fall check of the tick. */
    method CheckFall()
      modifies this, gs, cam
      ensures Snapshot() == FallStep(old(Snapshot()))
      ensures player == old(player) || fresh(player)
    {
      if player.y > ScreenHeight as real {
        gs.lives := gs.lives - 1;
        if gs.lives <= 0 {
          gs.state := GameOver;
        } else {
          player := new Player(SpawnX, SpawnY);
          cam.scrollX := 0.0;
        }
      }
    }

    method Frame(f: FrameInput)
      modifies this, gs, cam, player
      ensures Snapshot() == FrameStep(old(Snapshot()), f)
      ensures player == old(player) || fresh(player)
    {
      for i := 0 to |f.events|
        invariant EventsStep(Snapshot(), f.events[i..]) == EventsStep(old(Snapshot()), f.events)
        invariant player == old(player) || fresh(player)
      {
        assert f.events[i..][1..] == f.events[i + 1..];
        HandleEvent(f.events[i]);
      }
      assert f.events[|f.events|..] == [];
      if gs.state == Playing {
        Tick(f.input);
      }
    }

    /** The main loop, driven by a finite script of frames. */
    method Run(frames: seq<FrameInput>)
      modifies this, gs, cam, player
      ensures Snapshot() == RunSteps(old(Snapshot()), frames)
    {
      var i := 0;
      while running && i < |frames|
        invariant 0 <= i <= |frames|
        invariant RunSteps(Snapshot(), frames[i..]) == RunSteps(old(Snapshot()), frames)
        invariant player == old(player) || fresh(player)
      {
        assert frames[i..][1..] == frames[i + 1..];
        Frame(frames[i]);
        i := i + 1;
      }
      assert i == |frames| ==> frames[i..] == [];
    }
  }
}
