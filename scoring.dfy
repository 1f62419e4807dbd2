/**
 * The scoring rules of App.tsx as values: who wins a hand, the running
 * totals over a game's hands, when a game is over and how its final result
 * (cumulative score plus a bonus per hand won) names the winner.
 */
module Scoring {
  import opened Wrappers
  import opened Types

  /** A game ends once either cumulative score reaches this. */
  const TARGET_SCORE: int := 100
  /** Points added to a final score for every hand that player won. */
  const HAND_WIN_BONUS: int := 20
  /** The winner name recorded when both final scores are equal. */
  const TIE_LABEL: string := "It's a Tie!"

  const InitialStats: GameStats := GameStats(0, 0, 0, 0)

  /**
   * The winner rule of `handleAddHand`, with its five branches in the source's
   * order. The contract shows that the last two branches never decide anything
   * (Player1 and Player2 are won exactly under the first two tests), that equal
   * positive scores go to Player1, and that only a negative score leaves the
   * hand without a winner.
   */
  function HandWinnerOf(p1Score: int, p2Score: int): (w: Option<HandWinner>)
    ensures w == Some(Player1) <==> p1Score > 0 && p1Score >= p2Score
    ensures w == Some(Player2) <==> p2Score > 0 && p2Score > p1Score
    ensures w == Some(Tie) <==> p1Score == 0 && p2Score == 0
    ensures w == None <==> p1Score <= 0 && p2Score <= 0 && (p1Score < 0 || p2Score < 0)
    ensures p1Score >= 0 && p2Score >= 0 ==> w.Some?
    ensures p1Score >= 0 && p2Score >= 0 && p1Score != p2Score ==>
      w == if p1Score > p2Score then Some(Player1) else Some(Player2)
  {
    if p1Score > 0 && p1Score >= p2Score then Some(Player1)
    else if p2Score > 0 && p2Score > p1Score then Some(Player2)
    else if p1Score == 0 && p2Score == 0 then Some(Tie)
    else if p1Score > 0 && p2Score <= 0 then Some(Player1)
    else if p2Score > 0 && p1Score <= 0 then Some(Player2)
    else None
  }

  /** The hand record `handleAddHand` appends. */
  function NewHand(id: string, p1Score: int, p2Score: int): HandResult {
    HandResult(id, p1Score, p2Score, HandWinnerOf(p1Score, p2Score))
  }

  /** One step of the `reduce` in `calculateStats`. */
  function Step(acc: GameStats, hand: HandResult): GameStats {
    GameStats(
      acc.player1CumulativeScore + hand.player1Score,
      acc.player2CumulativeScore + hand.player2Score,
      acc.player1HandsWon + (if hand.winner == Some(Player1) then 1 else 0),
      acc.player2HandsWon + (if hand.winner == Some(Player2) then 1 else 0))
  }

  /** `calculateStats`: the left fold of Step over the hands, from InitialStats. */
  function Stats(hands: seq<HandResult>): GameStats {
    if hands == [] then InitialStats else Step(Stats(hands[..|hands| - 1]), hands[|hands| - 1])
  }

  /** Reference definitions: the plain sums and counts over the hand list. */
  function SumPlayer1(hands: seq<HandResult>): int {
    if hands == [] then 0 else hands[0].player1Score + SumPlayer1(hands[1..])
  }

  function SumPlayer2(hands: seq<HandResult>): int {
    if hands == [] then 0 else hands[0].player2Score + SumPlayer2(hands[1..])
  }

  function CountWins(hands: seq<HandResult>, w: HandWinner): nat {
    if hands == [] then 0 else (if hands[0].winner == Some(w) then 1 else 0) + CountWins(hands[1..], w)
  }

  /** The statistics the reference definitions give. */
  function ReferenceStats(hands: seq<HandResult>): GameStats {
    GameStats(SumPlayer1(hands), SumPlayer2(hands), CountWins(hands, Player1), CountWins(hands, Player2))
  }

  /** Field-by-field sum of two statistics. */
  function Combine(a: GameStats, b: GameStats): GameStats {
    GameStats(
      a.player1CumulativeScore + b.player1CumulativeScore,
      a.player2CumulativeScore + b.player2CumulativeScore,
      a.player1HandsWon + b.player1HandsWon,
      a.player2HandsWon + b.player2HandsWon)
  }

  lemma {:induction false} ReferenceStatsConcat(a: seq<HandResult>, b: seq<HandResult>)
    ensures ReferenceStats(a + b) == Combine(ReferenceStats(a), ReferenceStats(b))
  {
    if a == [] {
      assert a + b == b;
    } else {
      assert (a + b)[0] == a[0];
      assert (a + b)[1..] == a[1..] + b;
      ReferenceStatsConcat(a[1..], b);
    }
  }

  /** `calculateStats` gives the per-side sums of the hand scores and the number
    * of hands each side won; Tie hands and hands without a winner count for neither. */
  lemma {:induction false} StatsAreSums(hands: seq<HandResult>)
    ensures Stats(hands) == ReferenceStats(hands)
  {
    if hands != [] {
      var init, last := hands[..|hands| - 1], hands[|hands| - 1];
      assert hands == init + [last];
      StatsAreSums(init);
      ReferenceStatsConcat(init, [last]);
      var one := [last];
      assert one[0] == last && one[1..] == [];
      assert SumPlayer1(one) == last.player1Score && SumPlayer2(one) == last.player2Score;
      assert CountWins(one, Player1) == (if last.winner == Some(Player1) then 1 else 0);
      assert CountWins(one, Player2) == (if last.winner == Some(Player2) then 1 else 0);
    }
  }

  /** Folding over one more hand is one more Step. */
  lemma StatsAppend(hands: seq<HandResult>, h: HandResult)
    ensures Stats(hands + [h]) == Step(Stats(hands), h)
  {
    assert (hands + [h])[..|hands|] == hands;
  }

  /** Splitting the hand list anywhere splits the statistics the same way. */
  lemma StatsConcat(a: seq<HandResult>, b: seq<HandResult>)
    ensures Stats(a + b) == Combine(Stats(a), Stats(b))
  {
    StatsAreSums(a + b);
    StatsAreSums(a);
    StatsAreSums(b);
    ReferenceStatsConcat(a, b);
  }

  /** The totals do not depend on the order in which two runs of hands were played. */
  lemma StatsOrderIndependent(a: seq<HandResult>, b: seq<HandResult>)
    ensures Stats(a + b) == Stats(b + a)
  {
    StatsConcat(a, b);
    StatsConcat(b, a);
  }

  /**
   * `calculateStats` itself: a loop that updates one accumulator per hand, as the
   * `reduce` callback does.
   */
  method CalculateStats(hands: seq<HandResult>) returns (acc: GameStats)
    ensures acc == Stats(hands)
    ensures acc.player1CumulativeScore == SumPlayer1(hands) && acc.player2CumulativeScore == SumPlayer2(hands)
    ensures acc.player1HandsWon == CountWins(hands, Player1) && acc.player2HandsWon == CountWins(hands, Player2)
  {
    acc := InitialStats;
    var i := 0;
    while i < |hands|
      invariant 0 <= i <= |hands|
      invariant acc == Stats(hands[..i])
    {
      var hand := hands[i];
      acc := acc.(player1CumulativeScore := acc.player1CumulativeScore + hand.player1Score);
      acc := acc.(player2CumulativeScore := acc.player2CumulativeScore + hand.player2Score);
      if hand.winner == Some(Player1) {
        acc := acc.(player1HandsWon := acc.player1HandsWon + 1);
      } else if hand.winner == Some(Player2) {
        acc := acc.(player2HandsWon := acc.player2HandsWon + 1);
      }
      StatsAppend(hands[..i], hand);
      assert hands[..i + 1] == hands[..i] + [hand];
      i := i + 1;
    }
    assert hands[..i] == hands;
    StatsAreSums(hands);
  }

  /** The end condition, checked after every hand. */
  predicate IsGameOver(stats: GameStats) {
    stats.player1CumulativeScore >= TARGET_SCORE || stats.player2CumulativeScore >= TARGET_SCORE
  }

  function FinalScore(cumulative: int, handsWon: int): int {
    cumulative + handsWon * HAND_WIN_BONUS
  }

  /**
   * The final result `processGameOver` records: bonus-adjusted final scores, the
   * cumulative figures they came from, and the winner, which is the strictly
   * higher final score or, on equal finals, nobody under the tie label.
   */
  function FinalResultOf(stats: GameStats, p1Id: string, p2Id: string, p1Name: string, p2Name: string): (r: FinalGameResult)
    ensures r.player1FinalScore == stats.player1CumulativeScore + stats.player1HandsWon * HAND_WIN_BONUS
    ensures r.player2FinalScore == stats.player2CumulativeScore + stats.player2HandsWon * HAND_WIN_BONUS
    ensures r.player1FinalScore > r.player2FinalScore ==> r.winnerId == Some(p1Id) && r.winnerName == p1Name
    ensures r.player2FinalScore > r.player1FinalScore ==> r.winnerId == Some(p2Id) && r.winnerName == p2Name
    ensures r.winnerId == None <==> r.player1FinalScore == r.player2FinalScore
    ensures r.winnerId == None ==> r.winnerName == TIE_LABEL
    ensures r.player1Cumulative == stats.player1CumulativeScore && r.player2Cumulative == stats.player2CumulativeScore
    ensures r.player1HandsWon == stats.player1HandsWon && r.player2HandsWon == stats.player2HandsWon
    ensures r.player1Id == Some(p1Id) && r.player2Id == Some(p2Id)
    ensures r.player1Name == p1Name && r.player2Name == p2Name && r.handWinBonus == HAND_WIN_BONUS
  {
    var p1Final := FinalScore(stats.player1CumulativeScore, stats.player1HandsWon);
    var p2Final := FinalScore(stats.player2CumulativeScore, stats.player2HandsWon);
    var (winnerName, winnerId) :=
      if p1Final > p2Final then (p1Name, Some(p1Id))
      else if p2Final > p1Final then (p2Name, Some(p2Id))
      else (TIE_LABEL, None);
    FinalGameResult(
      p1Final, p2Final, winnerName, winnerId, p1Name, p2Name, Some(p1Id), Some(p2Id),
      stats.player1CumulativeScore, stats.player2CumulativeScore,
      stats.player1HandsWon, stats.player2HandsWon, HAND_WIN_BONUS)
  }

  /** The final scores in terms of the hands alone: each side's points plus the bonus for every hand it won. */
  lemma FinalScoresFromHands(hands: seq<HandResult>, p1Id: string, p2Id: string, p1Name: string, p2Name: string)
    ensures var r := FinalResultOf(Stats(hands), p1Id, p2Id, p1Name, p2Name);
      r.player1FinalScore == SumPlayer1(hands) + CountWins(hands, Player1) * HAND_WIN_BONUS
      && r.player2FinalScore == SumPlayer2(hands) + CountWins(hands, Player2) * HAND_WIN_BONUS
  {
    StatsAreSums(hands);
  }

  /** A 0-0 hand is a Tie that changes no total, so it can never end a game. */
  lemma ZeroHandCannotEndGame(hands: seq<HandResult>, id: string)
    ensures NewHand(id, 0, 0).winner == Some(Tie)
    ensures Stats(hands + [NewHand(id, 0, 0)]) == Stats(hands)
    ensures IsGameOver(Stats(hands + [NewHand(id, 0, 0)])) == IsGameOver(Stats(hands))
  {
    StatsAppend(hands, NewHand(id, 0, 0));
  }

  /**
   * When hands score for one side only (as the hand form submits them) and the
   * game was not over before, at most one cumulative score has reached the
   * target when the end condition is next evaluated.
   */
  lemma AtMostOneSideReachesTarget(hands: seq<HandResult>, id: string, p1Score: int, p2Score: int)
    requires !IsGameOver(Stats(hands))
    requires p1Score >= 0 && p2Score >= 0 && (p1Score == 0 || p2Score == 0)
    ensures var s := Stats(hands + [NewHand(id, p1Score, p2Score)]);
      !(s.player1CumulativeScore >= TARGET_SCORE && s.player2CumulativeScore >= TARGET_SCORE)
  {
    StatsAppend(hands, NewHand(id, p1Score, p2Score));
  }

  /** A player's display name for the session: "Player" without an id, the
    * roster name when the id is on the roster, "Player (Unknown)" otherwise. */
  function DerivePlayerName(users: seq<User>, playerId: Option<string>): (name: string)
    ensures !Truthy(playerId) ==> name == "Player"
    ensures Truthy(playerId) && FindUser(users, playerId).Some? ==> name == FindUser(users, playerId).value.name
    ensures Truthy(playerId) && (forall k :: 0 <= k < |users| ==> Some(users[k].id) != playerId) ==> name == "Player (Unknown)"
  {
    if !Truthy(playerId) then "Player"
    else match FindUser(users, playerId)
      case Some(u) => u.name
      case None => "Player (Unknown)"
  }
}
