/**
 * The hand entry form (components/HandScoreForm.tsx): the player who scored
 * the hand and the points typed for them become the score pair the session
 * receives. Only the chosen side can be non-zero, which is what lets the
 * session's winner rule always name a winner. Alerts are modelled by their kind.
 */
module HandScoreForm {
  import opened Wrappers
  import opened Types
  import opened Text
  import opened Scoring

  /** The radio group: nobody chosen yet (`''`), `'player1'` or `'player2'`. */
  datatype ScoringPlayer = NoPlayer | ScoredByPlayer1 | ScoredByPlayer2

  /** The two alerts the form can raise instead of submitting. */
  datatype EntryError = NoScoringPlayer | InvalidPoints

  /** The arguments of `onSubmit`. */
  datatype ScorePair = ScorePair(p1Score: int, p2Score: int)

  /**
   * The checks and the mapping of `handleSubmit`: a scoring player must be
   * chosen, the points must parse to a non-negative number, and that number
   * goes to the chosen side while the other side scores 0.
   */
  function HandEntry(player: ScoringPlayer, pointsStr: string): (r: Result<ScorePair, EntryError>)
    ensures r == Failure(NoScoringPlayer) <==> player == NoPlayer
    ensures r == Failure(InvalidPoints) <==>
      player != NoPlayer && (ParseInt(pointsStr).None? || ParseInt(pointsStr).value < 0)
    ensures r.Success? ==>
      r.value.p1Score >= 0 && r.value.p2Score >= 0 && (r.value.p1Score == 0 || r.value.p2Score == 0)
    ensures r.Success? && player == ScoredByPlayer1 ==> r.value == ScorePair(ParseInt(pointsStr).value, 0)
    ensures r.Success? && player == ScoredByPlayer2 ==> r.value == ScorePair(0, ParseInt(pointsStr).value)
  {
    var points := ParseInt(pointsStr);
    if player == NoPlayer then Failure(NoScoringPlayer)
    else if points.None? || points.value < 0 then Failure(InvalidPoints)
    else if player == ScoredByPlayer1 then Success(ScorePair(points.value, 0))
    else Success(ScorePair(0, points.value))
  }

  /**
   * Every pair the form submits has a hand winner: the chosen side when it
   * scored, a tie when it scored 0. The session's fallback branches, and its
   * null winner, are never reached from the form.
   */
  lemma FormPairWinner(player: ScoringPlayer, pointsStr: string)
    requires HandEntry(player, pointsStr).Success?
    ensures var pair := HandEntry(player, pointsStr).value;
      var points := ParseInt(pointsStr).value;
      HandWinnerOf(pair.p1Score, pair.p2Score)
        == if points == 0 then Some(Tie) else if player == ScoredByPlayer1 then Some(Player1) else Some(Player2)
  {
  }

  /** A run of digits typed into the number input is submitted as its value. */
  lemma TypedPointsSubmitted(player: ScoringPlayer, digits: string)
    requires player != NoPlayer && digits != [] && AllDigits(digits)
    ensures HandEntry(player, digits)
      == Success(if player == ScoredByPlayer1 then ScorePair(DigitsValue(digits), 0) else ScorePair(0, DigitsValue(digits)))
  {
    ParseIntDigits(digits, []);
    assert digits + [] == digits;
  }

  /** A negative number is refused. */
  lemma NegativePointsRefused(player: ScoringPlayer, digits: string)
    requires player != NoPlayer && digits != [] && AllDigits(digits) && DigitsValue(digits) > 0
    ensures HandEntry(player, ['-'] + digits) == Failure(InvalidPoints)
  {
    ParseUnsignedDigits(digits, []);
    assert digits + [] == digits;
    ParseIntNegative(digits, DigitsValue(digits));
  }

  /** The form's own state: the typed points and the chosen scorer. */
  class HandScoreEntry {
    var pointsStr: string
    var scoringPlayer: ScoringPlayer

    constructor ()
      ensures pointsStr == "" && scoringPlayer == NoPlayer
    {
      pointsStr := "";
      scoringPlayer := NoPlayer;
    }

    /** The `onChange` of either radio button. */
    method ChooseScorer(player: ScoringPlayer)
      modifies this`scoringPlayer
      ensures scoringPlayer == player
    {
      scoringPlayer := player;
    }

    /** The `onChange` of the points input. */
    method TypePoints(text: string)
      modifies this`pointsStr
      ensures pointsStr == text
    {
      pointsStr := text;
    }

    /**
     * `handleSubmit`: the pair handed to `onSubmit`, after which the form is
     * cleared for the next hand, or the alert raised instead, which leaves the
     * form as it was.
     */
    method Submit() returns (sent: Option<ScorePair>, alert: Option<EntryError>)
      modifies this`pointsStr, this`scoringPlayer
      ensures match HandEntry(old(scoringPlayer), old(pointsStr))
        case Success(pair) =>
          sent == Some(pair) && alert == None && pointsStr == "" && scoringPlayer == NoPlayer
        case Failure(e) =>
          sent == None && alert == Some(e) && pointsStr == old(pointsStr) && scoringPlayer == old(scoringPlayer)
    {
      var points := ParseInt(pointsStr);
      sent, alert := None, None;
      if scoringPlayer == NoPlayer {
        alert := Some(NoScoringPlayer);
        return;
      }
      if points.None? || points.value < 0 {
        alert := Some(InvalidPoints);
        return;
      }
      var p1Score := 0;
      var p2Score := 0;
      if scoringPlayer == ScoredByPlayer1 {
        p1Score := points.value;
      } else if scoringPlayer == ScoredByPlayer2 {
        p2Score := points.value;
      }
      sent := Some(ScorePair(p1Score, p2Score));
      pointsStr := "";
      scoringPlayer := NoPlayer;
    }
  }
}
