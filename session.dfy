/**
 * The session state App.tsx keeps (the roster, the current game's settings,
 * its hands, its statistics and its final result) and the handlers that
 * change it. `processGameOver`, an effect that React runs after each change
 * to the hands, is the method ProcessGameOver; PlayHand runs it right after
 * AddHand, the order the application relies on, and keeps the invariant
 * Valid: the statistics are those of the hand list, and a game is active only
 * while no cumulative score has reached the target.
 */
module App {
  import opened Wrappers
  import opened Types
  import opened Text
  import opened Scoring
  import GameSettingsPage

  datatype View = Landing | SettingsView | GameView | PastGamesView | UserManagementView

  /** How `handleGameSetupComplete` ends: a started game or the reason it stopped. */
  datatype SetupOutcome = Started | DuplicateNewNames | CreateFailed | MissingPlayer | SamePlayers

  const DEFAULT_SETTINGS: GameSettings := GameSettings(None, None, "Player 1", "Player 2")

  /** What `handleGameSetupComplete` decides, given the answers of the user store. */
  datatype SetupPlan = SetupPlan(outcome: SetupOutcome, created: seq<User>, settings: GameSettings)

  /** The two selections ask for a new user to be created. */
  predicate CreatesUser(data: PlayerSelectionData) {
    data.id == Some(CREATE_NEW_USER_ID) && Truthy(data.name)
  }

  /**
   * The decision of `handleGameSetupComplete`. `created1` and `created2` are the
   * users the store returns for the two creation requests (None when the request
   * fails); `users` is the roster the handler sees.
   */
  function PlanSetup(users: seq<User>, p1Data: PlayerSelectionData, p2Data: PlayerSelectionData,
                     created1: Option<User>, created2: Option<User>): (plan: SetupPlan)
    ensures plan.outcome == Started ==>
      Truthy(plan.settings.player1Id) && Truthy(plan.settings.player2Id)
      && plan.settings.player1Id != plan.settings.player2Id
    ensures plan.outcome == DuplicateNewNames <==>
      CreatesUser(p1Data) && created1.Some? && CreatesUser(p2Data)
      && SameIgnoringCase(p1Data.name.value, p2Data.name.value)
    ensures CreatesUser(p1Data) && created1.None? ==> plan.outcome == CreateFailed && plan.created == []
    ensures plan.outcome == CreateFailed ==> (CreatesUser(p1Data) && created1.None?) || (CreatesUser(p2Data) && created2.None?)
    ensures plan.outcome == DuplicateNewNames ==> plan.created == [created1.value]
    ensures plan.outcome == Started && !CreatesUser(p1Data) ==> plan.settings.player1Id == p1Data.id
    ensures plan.outcome == Started && !CreatesUser(p2Data) ==> plan.settings.player2Id == p2Data.id
    ensures plan.outcome == Started && CreatesUser(p1Data) ==> plan.settings.player1Id == Some(created1.value.id)
    ensures plan.outcome == Started && CreatesUser(p2Data) ==> created2.Some? && plan.settings.player2Id == Some(created2.value.id)
    ensures (!CreatesUser(p1Data) || created1.Some?) && CreatesUser(p2Data) && created2.None?
            && !(CreatesUser(p1Data) && SameIgnoringCase(p1Data.name.value, p2Data.name.value)) ==>
      plan.outcome == CreateFailed && plan.created == (if CreatesUser(p1Data) then [created1.value] else [])
    ensures PastCreation(plan) ==>
      && (CreatesUser(p1Data) ==> created1.Some?)
      && (CreatesUser(p2Data) ==> created2.Some?)
      && plan.created == (if CreatesUser(p1Data) then [created1.value] else [])
                         + (if CreatesUser(p2Data) then [created2.value] else [])
  {
    var p1Creates, p2Creates := CreatesUser(p1Data), CreatesUser(p2Data);
    if p1Creates && created1.None? then SetupPlan(CreateFailed, [], DEFAULT_SETTINGS)
    else
      var created1List := if p1Creates then [created1.value] else [];
      if p2Creates && p1Creates && SameIgnoringCase(p1Data.name.value, p2Data.name.value) then
        SetupPlan(DuplicateNewNames, created1List, DEFAULT_SETTINGS)
      else if p2Creates && created2.None? then SetupPlan(CreateFailed, created1List, DEFAULT_SETTINGS)
      else
        var created := created1List + (if p2Creates then [created2.value] else []);
        var p1Id, p2Id := SeatId(p1Data, created1), SeatId(p2Data, created2);
        var p1Name := NameFromCreated(created, p1Id, SeatName(users, p1Data, created1, "Player 1"));
        var p2Name := NameFromCreated(created, p2Id, SeatName(users, p2Data, created2, "Player 2"));
        SetupPlan(OutcomeOf(p1Id, p2Id), created, GameSettings(p1Id, p2Id, p1Name, p2Name))
  }

  /** The setup got past the creation of the new users. */
  predicate PastCreation(plan: SetupPlan) {
    plan.outcome != DuplicateNewNames && plan.outcome != CreateFailed
  }

  /**
   * The names the seats start with once the creations succeeded: a created
   * user's own name, or the roster name of the selected user unless a user
   * just created carries the same id; a seat with neither keeps its default.
   */
  lemma PlanSetupSeatNames(users: seq<User>, p1Data: PlayerSelectionData, p2Data: PlayerSelectionData,
                           created1: Option<User>, created2: Option<User>)
    requires PastCreation(PlanSetup(users, p1Data, p2Data, created1, created2))
    ensures var plan := PlanSetup(users, p1Data, p2Data, created1, created2);
      && (CreatesUser(p1Data) ==> plan.settings.player1Name == created1.value.name)
      && (CreatesUser(p2Data) ==>
            plan.settings.player2Name
              == if CreatesUser(p1Data) && created1.value.id == created2.value.id then created1.value.name
                 else created2.value.name)
      && (!CreatesUser(p1Data) && Truthy(p1Data.id) && FindUser(plan.created, p1Data.id).None? ==>
            plan.settings.player1Name == DerivePlayerName(users, p1Data.id))
      && (!CreatesUser(p2Data) && Truthy(p2Data.id) && FindUser(plan.created, p2Data.id).None? ==>
            plan.settings.player2Name == DerivePlayerName(users, p2Data.id))
      && (!CreatesUser(p1Data) && !Truthy(p1Data.id) ==> plan.settings.player1Id == None && plan.settings.player1Name == "Player 1")
      && (!CreatesUser(p2Data) && !Truthy(p2Data.id) ==> plan.settings.player2Id == None && plan.settings.player2Name == "Player 2")
  {
  }

  /** The id a seat resolves to: the created user's, or the selected id when there is one. */
  function SeatId(data: PlayerSelectionData, created: Option<User>): Option<string>
    requires CreatesUser(data) ==> created.Some?
  {
    if CreatesUser(data) then Some(created.value.id) else if Truthy(data.id) then data.id else None
  }

  /** The name a seat starts with before the created users are consulted. */
  function SeatName(users: seq<User>, data: PlayerSelectionData, created: Option<User>, default: string): string
    requires CreatesUser(data) ==> created.Some?
  {
    if CreatesUser(data) then created.value.name
    else if Truthy(data.id) then DerivePlayerName(users, data.id) else default
  }

  /** A seat held by a user created in this setup takes that user's name. */
  function NameFromCreated(created: seq<User>, id: Option<string>, name: string): string {
    match FindUser(created, id)
    case Some(u) => u.name
    case None => name
  }

  /** The last two checks of the setup. */
  function OutcomeOf(p1Id: Option<string>, p2Id: Option<string>): SetupOutcome {
    if !Truthy(p1Id) || !Truthy(p2Id) then MissingPlayer
    else if p1Id == p2Id then SamePlayers
    else Started
  }

  /**
   * A request the settings page sends never trips the session's own
   * duplicate-name check, and two existing users it lets through always start a
   * game with exactly those two seats.
   */
  lemma SettingsPageRequestsStart(users: seq<User>, form: GameSettingsPage.FormState,
                                  created1: Option<User>, created2: Option<User>)
    requires GameSettingsPage.ValidateSettings(users, form).Success?
    ensures var req := GameSettingsPage.ValidateSettings(users, form).value;
      var plan := PlanSetup(users, req.p1, req.p2, created1, created2);
      plan.outcome != DuplicateNewNames
      && (req.p1.id != Some(CREATE_NEW_USER_ID) && req.p2.id != Some(CREATE_NEW_USER_ID) ==>
            plan.outcome == Started
            && plan.settings.player1Id == req.p1.id && plan.settings.player2Id == req.p2.id)
  {
    var req := GameSettingsPage.ValidateSettings(users, form).value;
    GameSettingsPage.ValidateSettingsSound(users, form);
    if CreatesUser(req.p1) && CreatesUser(req.p2) {
      assert !SameIgnoringCase(req.p1.name.value, req.p2.name.value);
    }
  }

  /**
   * The seat resolution of `handleGameSetupComplete`, before it touches any
   * state: each seat takes the created user or the selected one, a pair of
   * new names equal up to case stops the setup, and so does a failed creation.
   * `abort` is the outcome when the setup stops here; `created` lists the users
   * created so far.
   */
  method ResolveSeats(users: seq<User>, p1Data: PlayerSelectionData, p2Data: PlayerSelectionData,
                      created1: Option<User>, created2: Option<User>)
    returns (abort: Option<SetupOutcome>, created: seq<User>,
             p1Id: Option<string>, p2Id: Option<string>, p1Name: string, p2Name: string)
    ensures abort.Some? ==> abort.value in {DuplicateNewNames, CreateFailed}
    ensures abort.Some? ==>
      PlanSetup(users, p1Data, p2Data, created1, created2).outcome == abort.value
      && PlanSetup(users, p1Data, p2Data, created1, created2).created == created
    ensures abort.None? ==>
      PlanSetup(users, p1Data, p2Data, created1, created2)
        == SetupPlan(OutcomeOf(p1Id, p2Id), created, GameSettings(p1Id, p2Id, p1Name, p2Name))
  {
    var p1Creates := p1Data.id == Some(CREATE_NEW_USER_ID) && Truthy(p1Data.name);
    var p2Creates := p2Data.id == Some(CREATE_NEW_USER_ID) && Truthy(p2Data.name);
    p1Id, p2Id := None, None;
    p1Name, p2Name := "Player 1", "Player 2";
    created := [];
    abort := None;

    if p1Creates {
      if created1.None? {
        abort := Some(CreateFailed);
        return;
      }
      p1Id := Some(created1.value.id);
      p1Name := created1.value.name;
      created := created + [created1.value];
    } else if Truthy(p1Data.id) {
      p1Id := p1Data.id;
      p1Name := DerivePlayerName(users, p1Id);
    }

    if p2Creates {
      if p1Creates && SameIgnoringCase(p1Data.name.value, p2Data.name.value) {
        abort := Some(DuplicateNewNames);
        return;
      }
      if created2.None? {
        abort := Some(CreateFailed);
        return;
      }
      p2Id := Some(created2.value.id);
      p2Name := created2.value.name;
      created := created + [created2.value];
    } else if Truthy(p2Data.id) {
      p2Id := p2Data.id;
      p2Name := DerivePlayerName(users, p2Id);
    }

    if |created| > 0 {
      p1Name := NameFromCreated(created, p1Id, p1Name);
      p2Name := NameFromCreated(created, p2Id, p2Name);
    }
  }

  class Session {
    var view: View
    var users: seq<User>
    var settings: GameSettings
    var isGameActive: bool
    var hands: seq<HandResult>
    var gameStats: GameStats
    var finalResult: Option<FinalGameResult>

    /** The session invariant kept by every handler (AddHand alone, without the
      * end check that follows it, is the one step that may break it). */
    ghost predicate Valid()
      reads this
    {
      && gameStats == Stats(hands)
      && (isGameActive ==>
            view == GameView && Truthy(settings.player1Id) && Truthy(settings.player2Id)
            && finalResult == None && !IsGameOver(gameStats))
      && (finalResult.Some? ==>
            !isGameActive && IsGameOver(gameStats)
            && finalResult.value.player1Cumulative == gameStats.player1CumulativeScore
            && finalResult.value.player2Cumulative == gameStats.player2CumulativeScore)
    }

    /** The initial component state. */
    constructor ()
      ensures Valid()
      ensures view == Landing && users == [] && settings == DEFAULT_SETTINGS
      ensures !isGameActive && hands == [] && gameStats == InitialStats && finalResult == None
    {
      view := Landing;
      users := [];
      settings := DEFAULT_SETTINGS;
      isGameActive := false;
      hands := [];
      gameStats := InitialStats;
      finalResult := None;
    }

    /** `fetchUsers` once the user store has answered. */
    method UsersFetched(fetched: seq<User>)
      requires Valid()
      modifies this`users
      ensures Valid()
      ensures users == fetched
    {
      users := fetched;
    }

    /** `handleUpdateUser` once the user store has returned the renamed user. */
    method UserUpdated(returned: User)
      requires Valid()
      modifies this`users
      ensures Valid()
      ensures users == ReplaceUser(old(users), returned)
    {
      users := ReplaceUser(users, returned);
    }

    /** The roster update of `handleGameSetupComplete`: the users it created join the roster. */
    method AddUsers(newUsers: seq<User>)
      requires Valid()
      modifies this`users
      ensures Valid()
      ensures users == old(users) + newUsers
    {
      users := users + newUsers;
    }

    /** `handleAddHand`: classify the hand and append it, only while a game is active. */
    method AddHand(p1Score: int, p2Score: int, handId: string)
      modifies this`hands
      ensures old(isGameActive) ==> hands == old(hands) + [NewHand(handId, p1Score, p2Score)]
      ensures !old(isGameActive) ==> hands == old(hands)
    {
      if !isGameActive {
        return;
      }
      var winner: Option<HandWinner> := None;
      if p1Score > 0 && p1Score >= p2Score {
        winner := Some(Player1);
      } else if p2Score > 0 && p2Score > p1Score {
        winner := Some(Player2);
      } else if p1Score == 0 && p2Score == 0 {
        winner := Some(Tie);
      } else if p1Score > 0 && p2Score <= 0 {
        winner := Some(Player1);
      } else if p2Score > 0 && p1Score <= 0 {
        winner := Some(Player2);
      }
      var newHand := HandResult(handId, p1Score, p2Score, winner);
      hands := hands + [newHand];
    }

    /**
     * `processGameOver`: while a game is on screen, refresh the statistics and,
     * once a cumulative score reaches the target, record the final result, end
     * the game and hand the completed game to the store (the returned value).
     */
    method ProcessGameOver() returns (toSave: Option<CompletedGame>)
      modifies this`gameStats, this`finalResult, this`isGameActive
      ensures var runs := old(isGameActive) && view == GameView && Truthy(settings.player1Id) && Truthy(settings.player2Id);
        && (!runs ==> gameStats == old(gameStats) && finalResult == old(finalResult)
                      && isGameActive == old(isGameActive) && toSave == None)
        && (runs ==> gameStats == Stats(hands) && (isGameActive <==> !IsGameOver(gameStats)))
        && (runs && !IsGameOver(gameStats) ==> finalResult == old(finalResult) && toSave == None)
        && (runs && IsGameOver(gameStats) ==>
              var p1Name := DerivePlayerName(users, settings.player1Id);
              var p2Name := DerivePlayerName(users, settings.player2Id);
              finalResult == Some(FinalResultOf(gameStats, settings.player1Id.value, settings.player2Id.value, p1Name, p2Name))
              && toSave == Some(CompletedGame(
                   GameSettings(settings.player1Id, settings.player2Id, p1Name, p2Name), hands, finalResult.value)))
    {
      toSave := None;
      if !isGameActive || view != GameView || !Truthy(settings.player1Id) || !Truthy(settings.player2Id) {
        return;
      }
      var currentStats := CalculateStats(hands);
      gameStats := currentStats;
      var p1Name := DerivePlayerName(users, settings.player1Id);
      var p2Name := DerivePlayerName(users, settings.player2Id);
      if IsGameOver(currentStats) {
        var calculated := FinalResultOf(currentStats, settings.player1Id.value, settings.player2Id.value, p1Name, p2Name);
        finalResult := Some(calculated);
        isGameActive := false;
        toSave := Some(CompletedGame(GameSettings(settings.player1Id, settings.player2Id, p1Name, p2Name), hands, calculated));
      }
    }

    /** A hand submitted from the form, followed by the end check React runs after it. */
    method PlayHand(p1Score: int, p2Score: int, handId: string) returns (toSave: Option<CompletedGame>)
      requires Valid()
      modifies this`hands, this`gameStats, this`finalResult, this`isGameActive
      ensures Valid()
      ensures old(isGameActive) ==>
        && hands == old(hands) + [NewHand(handId, p1Score, p2Score)]
        && (isGameActive <==> !IsGameOver(Stats(hands)))
        && (toSave.Some? <==> !isGameActive)
      ensures old(isGameActive) && !IsGameOver(Stats(hands)) ==> finalResult == None && toSave == None
      ensures old(isGameActive) && IsGameOver(Stats(hands)) ==>
        var p1Name := DerivePlayerName(users, settings.player1Id);
        var p2Name := DerivePlayerName(users, settings.player2Id);
        && finalResult == Some(FinalResultOf(Stats(hands), settings.player1Id.value, settings.player2Id.value, p1Name, p2Name))
        && toSave == Some(CompletedGame(GameSettings(settings.player1Id, settings.player2Id, p1Name, p2Name), hands, finalResult.value))
      ensures !old(isGameActive) ==>
        hands == old(hands) && gameStats == old(gameStats) && finalResult == old(finalResult)
        && !isGameActive && toSave == None
    {
      AddHand(p1Score, p2Score, handId);
      toSave := ProcessGameOver();
    }

    /** `handleReturnToLanding`: abandon or close the game and go back to the landing view. */
    method ReturnToLanding()
      requires Valid()
      modifies this`isGameActive, this`hands, this`gameStats, this`finalResult, this`view, this`settings
      ensures Valid()
      ensures !isGameActive && hands == [] && gameStats == InitialStats && finalResult == None && view == Landing
      ensures settings == GameSettings(None, None,
        if Truthy(old(settings.player1Id)) then DerivePlayerName(users, old(settings.player1Id)) else "Player 1",
        if Truthy(old(settings.player2Id)) then DerivePlayerName(users, old(settings.player2Id)) else "Player 2")
    {
      isGameActive := false;
      hands := [];
      gameStats := InitialStats;
      finalResult := None;
      view := Landing;
      settings := GameSettings(None, None,
        if Truthy(settings.player1Id) then DerivePlayerName(users, settings.player1Id) else "Player 1",
        if Truthy(settings.player2Id) then DerivePlayerName(users, settings.player2Id) else "Player 2");
    }

    /**
     * `handleDeleteUser` once the store has answered (`deleted` is false when the
     * request failed). A seat held by the deleted user abandons an active game
     * and is cleared otherwise. The abandon step sees the roster as it was before
     * the deletion, as the handler's captured state does.
     */
    method DeleteUser(userIdToDelete: string, deleted: bool)
      requires Valid()
      modifies this
      ensures Valid()
      ensures !deleted ==> unchanged(this)
      ensures deleted ==> users == WithoutId(old(users), userIdToDelete)
      ensures var inGame := old(settings.player1Id) == Some(userIdToDelete) || old(settings.player2Id) == Some(userIdToDelete);
        && (deleted && inGame && old(isGameActive) ==>
              !isGameActive && hands == [] && gameStats == InitialStats && finalResult == None && view == Landing
              && settings == GameSettings(None, None,
                   DerivePlayerName(old(users), old(settings.player1Id)), DerivePlayerName(old(users), old(settings.player2Id))))
        && (deleted && inGame && !old(isGameActive) ==>
              settings == old(settings).(
                player1Id := if old(settings.player1Id) == Some(userIdToDelete) then None else old(settings.player1Id),
                player2Id := if old(settings.player2Id) == Some(userIdToDelete) then None else old(settings.player2Id))
              && hands == old(hands) && finalResult == old(finalResult) && isGameActive == old(isGameActive) && view == old(view))
        && (deleted && !inGame ==>
              settings == old(settings) && hands == old(hands) && finalResult == old(finalResult)
              && isGameActive == old(isGameActive) && view == old(view))
    {
      if !deleted {
        return;
      }
      if settings.player1Id == Some(userIdToDelete) || settings.player2Id == Some(userIdToDelete) {
        if isGameActive {
          ReturnToLanding();
        } else {
          settings := settings.(
            player1Id := if settings.player1Id == Some(userIdToDelete) then None else settings.player1Id,
            player2Id := if settings.player2Id == Some(userIdToDelete) then None else settings.player2Id);
        }
      }
      users := WithoutId(users, userIdToDelete);
    }

    /**
     * `handleGameSetupComplete`: create the requested users (their store answers
     * are `created1` and `created2`), resolve both seats and start a fresh game,
     * or stop with the reason. `createdOnServer` lists the users the store did
     * create, including one created before a later check stopped the setup.
     */
    method SetupComplete(p1Data: PlayerSelectionData, p2Data: PlayerSelectionData,
                         created1: Option<User>, created2: Option<User>)
      returns (outcome: SetupOutcome, createdOnServer: seq<User>)
      requires Valid()
      modifies this`users, this`settings, this`hands, this`gameStats, this`isGameActive, this`finalResult, this`view
      ensures Valid()
      ensures outcome == PlanSetup(old(users), p1Data, p2Data, created1, created2).outcome
      ensures createdOnServer == PlanSetup(old(users), p1Data, p2Data, created1, created2).created
      ensures outcome == DuplicateNewNames || outcome == CreateFailed ==> users == old(users)
      ensures outcome == Started || outcome == MissingPlayer || outcome == SamePlayers ==> users == old(users) + createdOnServer
      ensures outcome == Started ==>
        settings == PlanSetup(old(users), p1Data, p2Data, created1, created2).settings
        && hands == [] && gameStats == InitialStats && isGameActive && finalResult == None && view == GameView
      ensures outcome != Started ==>
        settings == old(settings) && hands == old(hands) && gameStats == old(gameStats)
        && isGameActive == old(isGameActive) && finalResult == old(finalResult) && view == old(view)
    {
      var abort, created, p1Id, p2Id, p1Name, p2Name := ResolveSeats(users, p1Data, p2Data, created1, created2);
      createdOnServer := created;
      if abort.Some? {
        outcome := abort.value;
        return;
      }
      if |created| > 0 {
        AddUsers(created);
      }
      outcome := StartGame(p1Id, p2Id, p1Name, p2Name);
    }

    /** The last two checks of `handleGameSetupComplete` and, when both pass, a fresh game. */
    method StartGame(p1Id: Option<string>, p2Id: Option<string>, p1Name: string, p2Name: string)
      returns (outcome: SetupOutcome)
      requires Valid()
      modifies this`settings, this`hands, this`gameStats, this`isGameActive, this`finalResult, this`view
      ensures Valid()
      ensures outcome == OutcomeOf(p1Id, p2Id)
      ensures outcome == Started ==>
        settings == GameSettings(p1Id, p2Id, p1Name, p2Name) && hands == [] && gameStats == InitialStats
        && isGameActive && finalResult == None && view == GameView
      ensures outcome != Started ==>
        settings == old(settings) && hands == old(hands) && gameStats == old(gameStats)
        && isGameActive == old(isGameActive) && finalResult == old(finalResult) && view == old(view)
    {
      if !Truthy(p1Id) || !Truthy(p2Id) {
        outcome := MissingPlayer;
        return;
      }
      if p1Id == p2Id {
        outcome := SamePlayers;
        return;
      }
      settings := GameSettings(p1Id, p2Id, p1Name, p2Name);
      hands := [];
      gameStats := InitialStats;
      isGameActive := true;
      finalResult := None;
      view := GameView;
      outcome := Started;
    }
  }
}
