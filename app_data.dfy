/** The catalog the application starts from: the six game types, the drawing
    and game packs on sale, and the leaderboard built around the player's own
    completion time. Names, descriptions, icons, colours and sample captions
    are display copy and are not part of this model. */
module AppData {
  import opened Options
  import AppHelpers

  /** The four cognitive areas a game trains. */
  datatype Category = MemoryArea | AttentionArea | SpatialArea | ExecutiveArea

  datatype GameType = GameType(id: string, category: Category)

  /** Whether a drawing pack is free drawing or colouring-in. */
  datatype DrawingKind = Drawing | Coloring

  /** A pack on sale. Drawing packs and game packs share an id, a price in
      won and the purchased flag, which is all the purchase logic touches. */
  datatype Pack =
    | DrawingPack(id: string, kind: DrawingKind, price: nat, levels: nat, purchased: bool)
    | GamePack(id: string, price: nat, games: nat, purchased: bool)

  /** A leaderboard row. `time` is optional in the record shape and `isMe`
      is an optional flag, absent meaning false. */
  datatype LeaderboardEntry = LeaderboardEntry(rank: int, score: int, time: Option<nat>, isMe: bool)

  const GameTypes: seq<GameType> := [
    GameType("memory", MemoryArea),
    GameType("attention", AttentionArea),
    GameType("spatial", SpatialArea),
    GameType("sudoku", ExecutiveArea),
    GameType("pattern", MemoryArea),
    GameType("connect", SpatialArea)
  ]

  const InitialDrawingPacks: seq<Pack> := [
    DrawingPack("nature-therapy", Drawing, 3900, 40, false),
    DrawingPack("memory-coloring", Coloring, 2900, 30, true),
    DrawingPack("masterpiece", Drawing, 4900, 25, false),
    DrawingPack("emotion-art", Drawing, 3400, 35, false),
    DrawingPack("photo-coloring", Coloring, 1900, 20, false)
  ]

  const InitialGamePacks: seq<Pack> := [
    GamePack("memory-master", 3900, 12, false),
    GamePack("attention-pro", 2900, 8, true),
    GamePack("spatial-genius", 4200, 15, false),
    GamePack("logic-puzzle", 3500, 10, false)
  ]

  /** No two packs of a list share an id, so an id names at most one pack. */
  predicate DistinctIds(packs: seq<Pack>) {
    forall i, j :: 0 <= i < j < |packs| ==> packs[i].id != packs[j].id
  }

  /** `createLeaderboardData(t)`: seven fixed rows with the player's own row
      fourth, carrying the completion time `t`. */
  function CreateLeaderboardData(t: nat): (r: seq<LeaderboardEntry>)
    ensures |r| == 7
  {
    [ LeaderboardEntry(1, 2150, Some(98), false),
      LeaderboardEntry(2, 2050, Some(112), false),
      LeaderboardEntry(3, 1980, Some(128), false),
      LeaderboardEntry(4, 1850, Some(t), true),
      LeaderboardEntry(5, 1720, Some(147), false),
      LeaderboardEntry(6, 1680, Some(152), false),
      LeaderboardEntry(7, 1650, Some(168), false) ]
  }

  /** Six game types with distinct ids. */
  lemma GameTypesDistinct()
    ensures |GameTypes| == 6
    ensures forall i, j :: 0 <= i < j < |GameTypes| ==> GameTypes[i].id != GameTypes[j].id
  {
  }

  /** The game-type ids are exactly the games that have a detail entry, so
      looking up the details of a listed game never falls back. */
  lemma GameTypeIdsHaveDetails()
    ensures forall i :: 0 <= i < |GameTypes| ==> GameTypes[i].id in AppHelpers.GameDetailTable
    ensures forall id :: id in AppHelpers.GameDetailTable ==> exists i :: 0 <= i < |GameTypes| && GameTypes[i].id == id
  {
    assert GameTypes[0].id == "memory" && GameTypes[1].id == "attention" && GameTypes[2].id == "spatial";
    assert GameTypes[3].id == "sudoku" && GameTypes[4].id == "pattern" && GameTypes[5].id == "connect";
  }

  /** Five drawing packs, all of them drawing packs, with distinct ids and
      positive prices; exactly one, memory-coloring, is already purchased. */
  lemma InitialDrawingPacksFacts()
    ensures |InitialDrawingPacks| == 5 && DistinctIds(InitialDrawingPacks)
    ensures forall i :: 0 <= i < |InitialDrawingPacks| ==>
      InitialDrawingPacks[i].DrawingPack? && InitialDrawingPacks[i].price > 0
    ensures InitialDrawingPacks[1].id == "memory-coloring"
    ensures forall i :: 0 <= i < |InitialDrawingPacks| ==> (InitialDrawingPacks[i].purchased <==> i == 1)
  {
  }

  /** Four game packs, all of them game packs, with distinct ids and
      positive prices; exactly one, attention-pro, is already purchased. */
  lemma InitialGamePacksFacts()
    ensures |InitialGamePacks| == 4 && DistinctIds(InitialGamePacks)
    ensures forall i :: 0 <= i < |InitialGamePacks| ==>
      InitialGamePacks[i].GamePack? && InitialGamePacks[i].price > 0
    ensures InitialGamePacks[1].id == "attention-pro"
    ensures forall i :: 0 <= i < |InitialGamePacks| ==> (InitialGamePacks[i].purchased <==> i == 1)
  {
  }

  /** Ranks run 1..7 in list order; the only row marked as the player's is
      rank 4, which carries the given time; every other row is the same
      whatever the time. */
  lemma LeaderboardShape(t: nat, u: nat)
    ensures var r := CreateLeaderboardData(t);
      (forall i :: 0 <= i < |r| ==> r[i].rank == i + 1)
      && (forall i :: 0 <= i < |r| ==> (r[i].isMe <==> i == 3))
      && r[3].time == Some(t)
      && forall i :: 0 <= i < |r| && i != 3 ==> r[i] == CreateLeaderboardData(u)[i]
  {
  }

  /** Scores strictly decrease as the rank grows. */
  lemma LeaderboardScoresDecrease(t: nat)
    ensures var r := CreateLeaderboardData(t);
      forall i, j :: 0 <= i < j < |r| ==> r[i].score > r[j].score
  {
  }
}
