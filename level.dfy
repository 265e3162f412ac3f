/** The hard-coded layout of level 1-1. */
module Level {
  import opened Geometry
  import opened Physics

  datatype Layout = Layout(platforms: seq<Box>, coins: seq<Box>, goal: Box)

  function CoinAt(x: real, y: real): Box
  {
    Box(x, y, 8.0, 8.0)
  }

  function GoalAt(x: real, y: real): Box
  {
    Box(x, y, 16.0, 32.0)
  }

  /** Where the player is placed at the start of a level and after losing a life. */
  const SpawnX: real := 32.0
  const SpawnY: real := 100.0

  /** Level 1-1: three ground segments with gaps, five floating platforms, six coins and the goal. */
  function Level11(): (l: Layout)
    ensures |l.platforms| == 8 && |l.coins| == 6
  {
    Layout(
      [ // ground
        Box(0.0, 128.0, 200.0, 16.0),
        Box(224.0, 128.0, 200.0, 16.0),
        Box(448.0, 128.0, 400.0, 16.0),
        // floating platforms
        Box(160.0, 96.0, 32.0, 16.0),
        Box(256.0, 80.0, 48.0, 16.0),
        Box(352.0, 64.0, 32.0, 16.0),
        Box(480.0, 96.0, 64.0, 16.0),
        Box(600.0, 112.0, 32.0, 16.0)
      ],
      [ CoinAt(176.0, 80.0), CoinAt(272.0, 64.0), CoinAt(368.0, 48.0),
        CoinAt(496.0, 80.0), CoinAt(512.0, 80.0), CoinAt(616.0, 96.0) ],
      GoalAt(800.0, 96.0))
  }

  /**
   * What the game loop relies on in a level: a player at the spawn point
   * touches no platform, no coin and not the goal, and the goal ends above
   * the bottom of the screen, so a player who has fallen below it cannot
   * reach the goal.
   */
  predicate WellFormed(l: Layout)
  {
    (forall p :: p in l.platforms ==> !Overlaps(PlayerBox(SpawnX, SpawnY), p)) &&
    (forall c :: c in l.coins ==> !Overlaps(PlayerBox(SpawnX, SpawnY), c)) &&
    !Overlaps(PlayerBox(SpawnX, SpawnY), l.goal) &&
    l.goal.y + l.goal.h < ScreenHeight as real
  }

  /** Level 1-1 is well formed and its six coins are distinct. */
  lemma Level11Layout()
    ensures WellFormed(Level11())
    ensures var l := Level11(); forall i, j :: 0 <= i < j < |l.coins| ==> l.coins[i] != l.coins[j]
  {
  }
}
