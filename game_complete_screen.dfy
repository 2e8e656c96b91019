/** The game-complete screen: the player's rank, how the completion time
    compares with the average, a preview of the leaderboard and the buttons
    that leave the screen. The screen holds no state of its own. */
module GameCompleteScreen {
  import opened Options
  import opened Text
  import opened AppData
  import opened AppHelpers

  /** `i` is the first leaderboard row marked as the player's. */
  predicate FirstMe(board: seq<LeaderboardEntry>, i: int) {
    0 <= i < |board| && board[i].isMe && forall j :: 0 <= j < i ==> !board[j].isMe
  }

  /** `find(entry => entry.isMe)`, as an index. */
  function FindMe(board: seq<LeaderboardEntry>): (r: Option<nat>)
    ensures r.Some? ==> FirstMe(board, r.value)
    ensures r.None? ==> forall j :: 0 <= j < |board| ==> !board[j].isMe
  {
    if |board| == 0 then None
    else if board[0].isMe then Some(0)
    else match FindMe(board[1..])
      case None => None
      case Some(k) => Some(k + 1)
  }

  /** `myRank`: the rank of the first row marked as the player's, or 4 when
      no row is marked. The `|| 4` default also replaces a rank of 0. */
  function MyRank(board: seq<LeaderboardEntry>): (r: int)
    ensures forall i :: FirstMe(board, i) && board[i].rank != 0 ==> r == board[i].rank
    ensures forall i :: FirstMe(board, i) && board[i].rank == 0 ==> r == 4
    ensures (forall j :: 0 <= j < |board| ==> !board[j].isMe) ==> r == 4
  {
    match FindMe(board)
    case Some(i) => if board[i].rank != 0 then board[i].rank else 4
    case None => 4
  }

  /** On the board the application builds, the player is ranked fourth. */
  lemma MyRankOnCreatedBoard(t: nat)
    ensures MyRank(CreateLeaderboardData(t)) == 4
  {
    var board := CreateLeaderboardData(t);
    assert FirstMe(board, 3);
  }

  /** The line under the result card: how far ahead of the average the
      player was, or a plain "good record" line (whose percentage is not
      part of this model). */
  datatype SpeedNote = FasterBy(lead: string) | GoodRecord

  /** A player strictly faster than the average is told by how much, and
      that amount, read back as minutes and seconds, is the positive
      difference of the two times. */
  function SpeedMessage(completion: nat, average: nat): (r: SpeedNote)
    ensures r.FasterBy? <==> completion < average
    ensures r.FasterBy? ==> 0 < average - completion && ParseTime(r.lead) == Some(average - completion)
  {
    if completion < average then
      FormatTimeRoundTrip(average - completion);
      FasterBy(FormatTime(average - completion))
    else GoodRecord
  }

  /** With the application's figures (135 seconds against an average of
      142) the player is told they were seven seconds faster, as `0:07`. */
  lemma ShippedSpeedMessage()
    ensures SpeedMessage(135, 142).FasterBy?
    ensures ParseTime(SpeedMessage(135, 142).lead) == Some(7)
    ensures SpeedMessage(135, 142) == FasterBy("0:07")
  {
    FormatTimeLead();
  }

  /** The inline leaderboard: at most the first five rows, in their order. */
  function Preview(board: seq<LeaderboardEntry>): (r: seq<LeaderboardEntry>)
    ensures |r| == if |board| < 5 then |board| else 5
    ensures r == board[..|r|]
  {
    if |board| <= 5 then board else board[..5]
  }

  /** The time shown on a preview row, a missing time showing as zero; it
      reads back as that time. */
  function RowTime(e: LeaderboardEntry): (r: string)
    ensures ParseTime(r) == Some(if e.time.Some? then e.time.value else 0)
  {
    var t := if e.time.Some? then e.time.value else 0;
    FormatTimeRoundTrip(t);
    FormatTime(t)
  }

  /** The screen ids handed to the navigation callback, one per button in
      screen order: back home, full leaderboard, retry, reward, leaderboard. */
  const NavTargets: seq<string> := ["home", "leaderboard", "game-play", "reward", "leaderboard"]

  /** The buttons lead exactly to home, leaderboard, game-play and reward. */
  lemma NavTargetsExactly()
    ensures (set i | 0 <= i < |NavTargets| :: NavTargets[i]) == {"home", "leaderboard", "game-play", "reward"}
  {
    var s := set i | 0 <= i < |NavTargets| :: NavTargets[i];
    assert NavTargets[0] in s && NavTargets[1] in s && NavTargets[2] in s && NavTargets[3] in s;
  }
}
