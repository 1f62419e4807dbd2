/**
 * The head-to-head panel (components/UserComparison.tsx): the stored games in
 * which the selected user and the comparison user held the two seats, in
 * either order, counted into games played, wins, ties and shutouts; the
 * guarded win percentage; and the list of users offered for comparison.
 */
module UserComparison {
  import opened Wrappers
  import opened Types
  import opened Scoring

  const NoGames: HeadToHeadStats := HeadToHeadStats(0, 0, 0, 0, 0, 0)

  /** The game was played between the two users, whoever sat in seat 1. */
  predicate SeatsMatch(game: StoredGame, selectedId: string, comparisonId: string) {
    var s := game.settings;
    (s.player1Id == Some(selectedId) && s.player2Id == Some(comparisonId))
    || (s.player1Id == Some(comparisonId) && s.player2Id == Some(selectedId))
  }

  /** One turn of the `forEach` over the stored games. */
  function Tally(acc: HeadToHeadStats, game: StoredGame, selectedId: string, comparisonId: string): HeadToHeadStats {
    if !SeatsMatch(game, selectedId, comparisonId) then acc
    else
      var played := acc.(gamesPlayed := acc.gamesPlayed + 1);
      var selectedWasP1 := game.settings.player1Id == Some(selectedId);
      var r := game.finalResult;
      if r.winnerId == Some(selectedId) then
        var won := played.(selectedUserWins := played.selectedUserWins + 1);
        if (selectedWasP1 && r.player2Cumulative == 0) || (!selectedWasP1 && r.player1Cumulative == 0)
        then won.(selectedUserShutouts := won.selectedUserShutouts + 1)
        else won
      else if r.winnerId == Some(comparisonId) then
        var won := played.(comparisonUserWins := played.comparisonUserWins + 1);
        if (selectedWasP1 && r.player1Cumulative == 0) || (!selectedWasP1 && r.player2Cumulative == 0)
        then won.(comparisonUserShutouts := won.comparisonUserShutouts + 1)
        else won
      else if r.winnerName == TIE_LABEL then played.(ties := played.ties + 1)
      else played
  }

  /** The six counters after the loop has run over `games`. */
  function HeadToHeadOf(games: seq<StoredGame>, selectedId: string, comparisonId: string): HeadToHeadStats {
    if games == [] then NoGames
    else Tally(HeadToHeadOf(games[..|games| - 1], selectedId, comparisonId), games[|games| - 1], selectedId, comparisonId)
  }

  /** Counter-wise sum. */
  function Add(a: HeadToHeadStats, b: HeadToHeadStats): HeadToHeadStats {
    HeadToHeadStats(a.gamesPlayed + b.gamesPlayed, a.selectedUserWins + b.selectedUserWins,
                    a.comparisonUserWins + b.comparisonUserWins, a.ties + b.ties,
                    a.selectedUserShutouts + b.selectedUserShutouts, a.comparisonUserShutouts + b.comparisonUserShutouts)
  }

  /**
   * What one game adds to the counters, stated rule by rule: a game between the
   * two users counts as played; it is a win for the user whose id is the
   * winner id (the selected user first), a shutout when the loser's seat ended
   * with a cumulative score of 0, and a tie when neither user won and the
   * winner name is the tie label.
   */
  function Contribution(game: StoredGame, selectedId: string, comparisonId: string): (c: HeadToHeadStats)
    ensures var m := SeatsMatch(game, selectedId, comparisonId);
      var r := game.finalResult;
      var selectedWasP1 := game.settings.player1Id == Some(selectedId);
      var selectedWins := m && r.winnerId == Some(selectedId);
      var comparisonWins := m && r.winnerId != Some(selectedId) && r.winnerId == Some(comparisonId);
      && c.gamesPlayed == (if m then 1 else 0)
      && c.selectedUserWins == (if selectedWins then 1 else 0)
      && c.comparisonUserWins == (if comparisonWins then 1 else 0)
      && c.ties == (if m && r.winnerId != Some(selectedId) && r.winnerId != Some(comparisonId)
                       && r.winnerName == TIE_LABEL then 1 else 0)
      && c.selectedUserShutouts ==
           (if selectedWins && (if selectedWasP1 then r.player2Cumulative else r.player1Cumulative) == 0 then 1 else 0)
      && c.comparisonUserShutouts ==
           (if comparisonWins && (if selectedWasP1 then r.player1Cumulative else r.player2Cumulative) == 0 then 1 else 0)
  {
    Tally(NoGames, game, selectedId, comparisonId)
  }

  /** A loop turn adds the game's contribution to the counters. */
  lemma TallyAdds(acc: HeadToHeadStats, game: StoredGame, selectedId: string, comparisonId: string)
    ensures Tally(acc, game, selectedId, comparisonId) == Add(acc, Contribution(game, selectedId, comparisonId))
  {
  }

  /** The counters over games played one list after another are the sums of the counters over each. */
  lemma {:induction false} HeadToHeadConcat(a: seq<StoredGame>, b: seq<StoredGame>, selectedId: string, comparisonId: string)
    ensures HeadToHeadOf(a + b, selectedId, comparisonId)
      == Add(HeadToHeadOf(a, selectedId, comparisonId), HeadToHeadOf(b, selectedId, comparisonId))
  {
    if b == [] {
      assert a + b == a;
    } else {
      var last := b[|b| - 1];
      assert (a + b)[..|a + b| - 1] == a + b[..|b| - 1];
      HeadToHeadConcat(a, b[..|b| - 1], selectedId, comparisonId);
      TallyAdds(HeadToHeadOf(a + b[..|b| - 1], selectedId, comparisonId), last, selectedId, comparisonId);
      TallyAdds(HeadToHeadOf(b[..|b| - 1], selectedId, comparisonId), last, selectedId, comparisonId);
    }
  }

  /** A game between other players, appended anywhere in the list, changes none of the six counters. */
  lemma OtherGamesIgnored(before: seq<StoredGame>, game: StoredGame, after: seq<StoredGame>,
                          selectedId: string, comparisonId: string)
    requires !SeatsMatch(game, selectedId, comparisonId)
    ensures HeadToHeadOf(before + [game] + after, selectedId, comparisonId)
      == HeadToHeadOf(before + after, selectedId, comparisonId)
  {
    HeadToHeadConcat(before + [game], after, selectedId, comparisonId);
    HeadToHeadConcat(before, [game], selectedId, comparisonId);
    HeadToHeadConcat(before, after, selectedId, comparisonId);
    assert HeadToHeadOf([game], selectedId, comparisonId) == Tally(NoGames, game, selectedId, comparisonId) by {
      assert [game][..0] == [];
    }
  }

  /** The same counters whatever order the store returns the games in. */
  lemma HeadToHeadOrderIndependent(a: seq<StoredGame>, b: seq<StoredGame>, selectedId: string, comparisonId: string)
    ensures HeadToHeadOf(a + b, selectedId, comparisonId) == HeadToHeadOf(b + a, selectedId, comparisonId)
  {
    HeadToHeadConcat(a, b, selectedId, comparisonId);
    HeadToHeadConcat(b, a, selectedId, comparisonId);
  }

  /** The games between the two users, in order. */
  function MatchingGames(games: seq<StoredGame>, selectedId: string, comparisonId: string): (r: seq<StoredGame>)
    ensures |r| <= |games|
    ensures forall g :: g in r <==> g in games && SeatsMatch(g, selectedId, comparisonId)
  {
    if games == [] then []
    else
      var rest := MatchingGames(games[1..], selectedId, comparisonId);
      assert forall g :: g in games <==> g == games[0] || g in games[1..] by {
        assert games == [games[0]] + games[1..];
      }
      if SeatsMatch(games[0], selectedId, comparisonId) then [games[0]] + rest else rest
  }

  /**
   * The counters are bounded as the if/else-if chain makes them: each counted
   * game is at most one of a selected win, a comparison win or a tie, and a
   * shutout is always also a win.
   */
  lemma {:induction false} HeadToHeadBounds(games: seq<StoredGame>, selectedId: string, comparisonId: string)
    ensures var h := HeadToHeadOf(games, selectedId, comparisonId);
      && 0 <= h.selectedUserShutouts <= h.selectedUserWins
      && 0 <= h.comparisonUserShutouts <= h.comparisonUserWins
      && 0 <= h.ties
      && h.selectedUserWins + h.comparisonUserWins + h.ties <= h.gamesPlayed
  {
    if games != [] {
      var init := games[..|games| - 1];
      HeadToHeadBounds(init, selectedId, comparisonId);
      TallyAdds(HeadToHeadOf(init, selectedId, comparisonId), games[|games| - 1], selectedId, comparisonId);
    }
  }

  /** Games played counts exactly the games between the two users. */
  lemma {:induction false} GamesPlayedCount(games: seq<StoredGame>, selectedId: string, comparisonId: string)
    ensures HeadToHeadOf(games, selectedId, comparisonId).gamesPlayed == |MatchingGames(games, selectedId, comparisonId)|
  {
    if games != [] {
      var init, last := games[..|games| - 1], games[|games| - 1];
      assert games == init + [last];
      GamesPlayedCount(init, selectedId, comparisonId);
      MatchingConcat(init, [last], selectedId, comparisonId);
      assert MatchingGames([last], selectedId, comparisonId)
        == if SeatsMatch(last, selectedId, comparisonId) then [last] else [];
      TallyAdds(HeadToHeadOf(init, selectedId, comparisonId), last, selectedId, comparisonId);
    }
  }

  /** The filter keeps every game between the two as often as the list has it, and no other game. */
  lemma {:induction false} MatchingCounts(games: seq<StoredGame>, selectedId: string, comparisonId: string)
    ensures forall g ::
      multiset(MatchingGames(games, selectedId, comparisonId))[g]
        == if SeatsMatch(g, selectedId, comparisonId) then multiset(games)[g] else 0
  {
    if games != [] {
      assert games == [games[0]] + games[1..];
      MatchingCounts(games[1..], selectedId, comparisonId);
    }
  }

  /** The filter keeps the order of the games: filtering a concatenation
    * concatenates the filtered parts. */
  lemma {:induction false} MatchingConcat(a: seq<StoredGame>, b: seq<StoredGame>, selectedId: string, comparisonId: string)
    ensures MatchingGames(a + b, selectedId, comparisonId)
      == MatchingGames(a, selectedId, comparisonId) + MatchingGames(b, selectedId, comparisonId)
  {
    if a == [] {
      assert a + b == b;
    } else {
      assert (a + b)[0] == a[0];
      assert (a + b)[1..] == a[1..] + b;
      MatchingConcat(a[1..], b, selectedId, comparisonId);
    }
  }

  /**
   * The loop of `fetchAndCalcHeadToHead` over the stored games, with its six
   * counters.
   */
  method ComputeHeadToHead(allGames: seq<StoredGame>, selectedId: string, comparisonId: string)
    returns (stats: HeadToHeadStats)
    ensures stats == HeadToHeadOf(allGames, selectedId, comparisonId)
    ensures stats.gamesPlayed == |MatchingGames(allGames, selectedId, comparisonId)|
    ensures stats.selectedUserWins + stats.comparisonUserWins + stats.ties <= stats.gamesPlayed
    ensures 0 <= stats.selectedUserShutouts <= stats.selectedUserWins
    ensures 0 <= stats.comparisonUserShutouts <= stats.comparisonUserWins
  {
    var played, sUserWins, cUserWins, gameTies, sUserShutouts, cUserShutouts := 0, 0, 0, 0, 0, 0;
    var i := 0;
    while i < |allGames|
      invariant 0 <= i <= |allGames|
      invariant HeadToHeadStats(played, sUserWins, cUserWins, gameTies, sUserShutouts, cUserShutouts)
        == HeadToHeadOf(allGames[..i], selectedId, comparisonId)
    {
      var game := allGames[i];
      assert allGames[..i + 1][..i] == allGames[..i];
      var p1IsSelected := game.settings.player1Id == Some(selectedId);
      var p2IsSelected := game.settings.player2Id == Some(selectedId);
      var p1IsComparison := game.settings.player1Id == Some(comparisonId);
      var p2IsComparison := game.settings.player2Id == Some(comparisonId);
      if (p1IsSelected && p2IsComparison) || (p1IsComparison && p2IsSelected) {
        played := played + 1;
        var selectedUserWasP1 := p1IsSelected;
        if game.finalResult.winnerId == Some(selectedId) {
          sUserWins := sUserWins + 1;
          if selectedUserWasP1 && game.finalResult.player2Cumulative == 0 {
            sUserShutouts := sUserShutouts + 1;
          } else if !selectedUserWasP1 && game.finalResult.player1Cumulative == 0 {
            sUserShutouts := sUserShutouts + 1;
          }
        } else if game.finalResult.winnerId == Some(comparisonId) {
          cUserWins := cUserWins + 1;
          if selectedUserWasP1 && game.finalResult.player1Cumulative == 0 {
            cUserShutouts := cUserShutouts + 1;
          } else if !selectedUserWasP1 && game.finalResult.player2Cumulative == 0 {
            cUserShutouts := cUserShutouts + 1;
          }
        } else if game.finalResult.winnerName == TIE_LABEL {
          gameTies := gameTies + 1;
        }
      }
      i := i + 1;
    }
    assert allGames[..i] == allGames;
    stats := HeadToHeadStats(played, sUserWins, cUserWins, gameTies, sUserShutouts, cUserShutouts);
    HeadToHeadBounds(allGames, selectedId, comparisonId);
    GamesPlayedCount(allGames, selectedId, comparisonId);
  }

  /** A win percentage before formatting: `'N/A'`, or wins out of a non-zero number of games. */
  datatype WinPercentage = NotApplicable | Ratio(wins: int, outOf: int)

  /** `calculateHeadToHeadWinPercentage`: no division when the denominator is 0. */
  function HeadToHeadWinPercentage(wins: int, totalExcludingTies: int): (r: WinPercentage)
    ensures r == NotApplicable <==> totalExcludingTies == 0
    ensures r.Ratio? ==> r.outOf != 0 && r == Ratio(wins, totalExcludingTies)
  {
    if totalExcludingTies == 0 then NotApplicable else Ratio(wins, totalExcludingTies)
  }

  /**
   * The two percentages the table shows are 'N/A' exactly when every game
   * between the two users was a tie (or there was none), and otherwise lie
   * between 0 and 100 and together do not exceed 100.
   */
  lemma TablePercentages(games: seq<StoredGame>, selectedId: string, comparisonId: string)
    ensures var h := HeadToHeadOf(games, selectedId, comparisonId);
      var ps := HeadToHeadWinPercentage(h.selectedUserWins, h.gamesPlayed - h.ties);
      var pc := HeadToHeadWinPercentage(h.comparisonUserWins, h.gamesPlayed - h.ties);
      && (ps == NotApplicable <==> h.gamesPlayed == h.ties)
      && (pc == NotApplicable <==> h.gamesPlayed == h.ties)
      && (ps.Ratio? ==> 0 <= ps.wins <= ps.outOf && 0 <= pc.wins <= pc.outOf && ps.wins + pc.wins <= ps.outOf)
  {
    HeadToHeadBounds(games, selectedId, comparisonId);
  }

  /** The comparison-user lookup: none without an id, else the first user with that id. */
  function ComparisonUser(allUsers: seq<User>, comparisonUserId: Option<string>): (r: Option<User>)
    ensures !Truthy(comparisonUserId) ==> r == None
    ensures r.Some? ==> r.value in allUsers && Some(r.value.id) == comparisonUserId
    ensures Truthy(comparisonUserId) ==> r == FindUser(allUsers, comparisonUserId)
    ensures Truthy(comparisonUserId) && (exists k :: 0 <= k < |allUsers| && Some(allUsers[k].id) == comparisonUserId) ==> r.Some?
  {
    if !Truthy(comparisonUserId) then None else FindUser(allUsers, comparisonUserId)
  }

  /** `availableForComparison`: every user but the selected one, in roster order. */
  function AvailableForComparison(allUsers: seq<User>, selectedUser: Option<User>): (r: seq<User>)
    ensures selectedUser.None? ==> r == allUsers
    ensures selectedUser.Some? ==> forall u :: u in r <==> u in allUsers && u.id != selectedUser.value.id
    ensures selectedUser.Some? ==>
      forall u :: multiset(r)[u] == if u.id == selectedUser.value.id then 0 else multiset(allUsers)[u]
    ensures selectedUser.Some? ==> r == WithoutId(allUsers, selectedUser.value.id)
  {
    if selectedUser.None? then allUsers
    else
      WithoutIdCounts(allUsers, selectedUser.value.id);
      WithoutId(allUsers, selectedUser.value.id)
  }

  /** The panel's derived state; `comparisonError` stands for its error message. */
  class ComparisonPanel {
    var headToHeadStats: Option<HeadToHeadStats>
    var isLoadingComparison: bool
    var comparisonError: bool

    constructor ()
      ensures headToHeadStats == None && !isLoadingComparison && !comparisonError
    {
      headToHeadStats := None;
      isLoadingComparison := false;
      comparisonError := false;
    }

    /**
     * The effect that runs when the selected or the comparison user changes.
     * `fetched` is the game store's answer (None when the request fails).
     */
    method Refresh(selectedUser: Option<User>, comparisonUser: Option<User>, fetched: Option<seq<StoredGame>>)
      modifies this
      ensures !isLoadingComparison
      ensures selectedUser.None? || comparisonUser.None? ==> headToHeadStats == None && !comparisonError
      ensures selectedUser.Some? && comparisonUser.Some? && fetched.None? ==> headToHeadStats == None && comparisonError
      ensures selectedUser.Some? && comparisonUser.Some? && fetched.Some? ==>
        headToHeadStats == Some(HeadToHeadOf(fetched.value, selectedUser.value.id, comparisonUser.value.id))
        && !comparisonError
    {
      if selectedUser.Some? && comparisonUser.Some? {
        isLoadingComparison := true;
        headToHeadStats := None;
        comparisonError := false;
        match fetched {
          case Some(allGames) =>
            var stats := ComputeHeadToHead(allGames, selectedUser.value.id, comparisonUser.value.id);
            headToHeadStats := Some(stats);
          case None =>
            comparisonError := true;
            headToHeadStats := None;
        }
        isLoadingComparison := false;
      } else {
        headToHeadStats := None;
        isLoadingComparison := false;
        comparisonError := false;
      }
    }
  }
}
