/**
 * The game settings page (pages/GameSettingsPage.tsx): two seat selections,
 * each an existing user's id or the "create new user" entry with a name typed
 * beside it, and the guard chain that turns them into the request that starts
 * a game. Error messages are modelled by their kind.
 */
module GameSettingsPage {
  import opened Wrappers
  import opened Types
  import opened Text

  const PLACEHOLDER_P1_NAME: string := "New Player 1 Name"
  const PLACEHOLDER_P2_NAME: string := "New Player 2 Name"

  datatype Slot = Slot1 | Slot2

  datatype SettingsError =
    | Player1NameEmpty
    | Player1NameExists(name: string)
    | Player1Missing
    | Player2NameEmpty
    | Player2NameTaken(name: string)
    | Player2Missing
    | PlayersNotDifferent

  /** The fields `handleSubmit` reads. */
  datatype FormState = FormState(
    selectedPlayer1Id: Option<string>,
    newPlayer1Name: string,
    selectedPlayer2Id: Option<string>,
    newPlayer2Name: string)

  /** The two arguments `onStartGame` is called with. */
  datatype StartRequest = StartRequest(p1: PlayerSelectionData, p2: PlayerSelectionData)

  /** `users.some(u => u.name.toLowerCase() === name.toLowerCase())`. */
  predicate NameTaken(users: seq<User>, name: string) {
    exists k :: 0 <= k < |users| && SameIgnoringCase(users[k].name, name)
  }

  /** A seat selection that names a real user rather than the create entry. */
  predicate IsExistingId(id: Option<string>) {
    Truthy(id) && id != Some(CREATE_NEW_USER_ID)
  }

  /** The combined condition under which the page starts a game. */
  predicate AllGuardsPass(users: seq<User>, f: FormState) {
    var name1, name2 := Trim(f.newPlayer1Name), Trim(f.newPlayer2Name);
    var creates1, creates2 := f.selectedPlayer1Id == Some(CREATE_NEW_USER_ID), f.selectedPlayer2Id == Some(CREATE_NEW_USER_ID);
    && Truthy(f.selectedPlayer1Id) && Truthy(f.selectedPlayer2Id)
    && (creates1 ==> name1 != "" && name1 != PLACEHOLDER_P1_NAME && !NameTaken(users, name1))
    && (creates2 ==> name2 != "" && name2 != PLACEHOLDER_P2_NAME && !NameTaken(users, name2))
    && (creates1 && creates2 ==> !SameIgnoringCase(name1, name2))
    && !(IsExistingId(f.selectedPlayer1Id) && f.selectedPlayer1Id == f.selectedPlayer2Id)
  }

  /**
   * `handleSubmit`: check Player 1, then Player 2, then that two existing users
   * differ. The request carries the trimmed names of users to create; the
   * first failing check decides the error.
   */
  function ValidateSettings(users: seq<User>, f: FormState): (r: Result<StartRequest, SettingsError>)
    ensures r.Success? <==> AllGuardsPass(users, f)
    ensures r.Success? ==>
      r.value.p1 == (if f.selectedPlayer1Id == Some(CREATE_NEW_USER_ID)
                     then PlayerSelectionData(Some(CREATE_NEW_USER_ID), Some(Trim(f.newPlayer1Name)))
                     else PlayerSelectionData(f.selectedPlayer1Id, None))
      && r.value.p2 == (if f.selectedPlayer2Id == Some(CREATE_NEW_USER_ID)
                        then PlayerSelectionData(Some(CREATE_NEW_USER_ID), Some(Trim(f.newPlayer2Name)))
                        else PlayerSelectionData(f.selectedPlayer2Id, None))
    ensures !Truthy(f.selectedPlayer1Id) ==> r == Failure(Player1Missing)
    ensures f.selectedPlayer1Id == Some(CREATE_NEW_USER_ID)
            && (Trim(f.newPlayer1Name) == "" || Trim(f.newPlayer1Name) == PLACEHOLDER_P1_NAME)
            ==> r == Failure(Player1NameEmpty)
    ensures r == Failure(PlayersNotDifferent) ==>
      IsExistingId(f.selectedPlayer1Id) && f.selectedPlayer1Id == f.selectedPlayer2Id
  {
    var p1Trimmed, p2Trimmed := Trim(f.newPlayer1Name), Trim(f.newPlayer2Name);
    if f.selectedPlayer1Id == Some(CREATE_NEW_USER_ID) && (p1Trimmed == "" || p1Trimmed == PLACEHOLDER_P1_NAME) then
      Failure(Player1NameEmpty)
    else if f.selectedPlayer1Id == Some(CREATE_NEW_USER_ID) && NameTaken(users, p1Trimmed) then
      Failure(Player1NameExists(p1Trimmed))
    else if !Truthy(f.selectedPlayer1Id) then
      Failure(Player1Missing)
    else
      var p1Data :=
        if f.selectedPlayer1Id == Some(CREATE_NEW_USER_ID)
        then PlayerSelectionData(Some(CREATE_NEW_USER_ID), Some(p1Trimmed))
        else PlayerSelectionData(f.selectedPlayer1Id, None);
      if f.selectedPlayer2Id == Some(CREATE_NEW_USER_ID) && (p2Trimmed == "" || p2Trimmed == PLACEHOLDER_P2_NAME) then
        Failure(Player2NameEmpty)
      else if f.selectedPlayer2Id == Some(CREATE_NEW_USER_ID)
              && (NameTaken(users, p2Trimmed)
                  || (f.selectedPlayer1Id == Some(CREATE_NEW_USER_ID) && SameIgnoringCase(p1Trimmed, p2Trimmed))) then
        Failure(Player2NameTaken(p2Trimmed))
      else if !Truthy(f.selectedPlayer2Id) then
        Failure(Player2Missing)
      else
        var p2Data :=
          if f.selectedPlayer2Id == Some(CREATE_NEW_USER_ID)
          then PlayerSelectionData(Some(CREATE_NEW_USER_ID), Some(p2Trimmed))
          else PlayerSelectionData(f.selectedPlayer2Id, None);
        if Truthy(p1Data.id) && p1Data.id != Some(CREATE_NEW_USER_ID)
           && Truthy(p2Data.id) && p2Data.id != Some(CREATE_NEW_USER_ID)
           && p1Data.id == p2Data.id then
          Failure(PlayersNotDifferent)
        else
          Success(StartRequest(p1Data, p2Data))
  }

  /** The two seats never hold the same existing user. */
  predicate SelectionsDistinct(selected1: Option<string>, selected2: Option<string>) {
    !(IsExistingId(selected1) && selected1 == selected2)
  }

  /** Selections made through the page's select handler never meet the
    * "players must be different" check. */
  lemma DistinctSelectionsPassDifferentCheck(users: seq<User>, f: FormState)
    requires SelectionsDistinct(f.selectedPlayer1Id, f.selectedPlayer2Id)
    ensures ValidateSettings(users, f) != Failure(PlayersNotDifferent)
  {
  }

  /** A request the page sends names users to create that the roster does not
    * already hold, under trimmed non-empty names that differ from each other. */
  lemma ValidateSettingsSound(users: seq<User>, f: FormState)
    requires ValidateSettings(users, f).Success?
    ensures var req := ValidateSettings(users, f).value;
      && (req.p1.id == Some(CREATE_NEW_USER_ID) ==>
            req.p1.name.Some? && req.p1.name.value != "" && !NameTaken(users, req.p1.name.value))
      && (req.p2.id == Some(CREATE_NEW_USER_ID) ==>
            req.p2.name.Some? && req.p2.name.value != "" && !NameTaken(users, req.p2.name.value))
      && (req.p1.id == Some(CREATE_NEW_USER_ID) && req.p2.id == Some(CREATE_NEW_USER_ID) ==>
            !SameIgnoringCase(req.p1.name.value, req.p2.name.value))
      && Truthy(req.p1.id) && Truthy(req.p2.id)
      && !(req.p1.id != Some(CREATE_NEW_USER_ID) && req.p1.id == req.p2.id)
  {
  }

  /** The page's own state. */
  class SettingsForm {
    var selectedPlayer1Id: Option<string>
    var newPlayer1Name: string
    var selectedPlayer2Id: Option<string>
    var newPlayer2Name: string
    var error: Option<SettingsError>

    function State(): FormState
      reads this
    {
      FormState(selectedPlayer1Id, newPlayer1Name, selectedPlayer2Id, newPlayer2Name)
    }

    constructor ()
      ensures selectedPlayer1Id == None && selectedPlayer2Id == None
      ensures newPlayer1Name == "" && newPlayer2Name == "" && error == None
    {
      selectedPlayer1Id, newPlayer1Name := None, "";
      selectedPlayer2Id, newPlayer2Name := None, "";
      error := None;
    }

    /**
     * `handlePlayerSelect` for one seat: store the chosen value, forget the
     * typed name unless the create entry was chosen, and free the other seat
     * when it holds the same existing user.
     */
    method SelectPlayer(slot: Slot, value: string)
      modifies this
      ensures error == None
      ensures SelectionsDistinct(selectedPlayer1Id, selectedPlayer2Id)
      ensures slot == Slot1 ==>
        && selectedPlayer1Id == Some(value)
        && newPlayer1Name == (if value != CREATE_NEW_USER_ID then "" else old(newPlayer1Name))
        && selectedPlayer2Id == (if IsExistingId(Some(value)) && Some(value) == old(selectedPlayer2Id) then None else old(selectedPlayer2Id))
        && newPlayer2Name == old(newPlayer2Name)
      ensures slot == Slot2 ==>
        && selectedPlayer2Id == Some(value)
        && newPlayer2Name == (if value != CREATE_NEW_USER_ID then "" else old(newPlayer2Name))
        && selectedPlayer1Id == (if IsExistingId(Some(value)) && Some(value) == old(selectedPlayer1Id) then None else old(selectedPlayer1Id))
        && newPlayer1Name == old(newPlayer1Name)
    {
      if slot == Slot1 {
        selectedPlayer1Id := Some(value);
        if value != CREATE_NEW_USER_ID {
          newPlayer1Name := "";
        }
        if value != "" && value != CREATE_NEW_USER_ID && Some(value) == selectedPlayer2Id {
          selectedPlayer2Id := None;
        }
      } else {
        selectedPlayer2Id := Some(value);
        if value != CREATE_NEW_USER_ID {
          newPlayer2Name := "";
        }
        if value != "" && value != CREATE_NEW_USER_ID && Some(value) == selectedPlayer1Id {
          selectedPlayer1Id := None;
        }
      }
      error := None;
    }

    /** `handleNewNameChange` for one seat. */
    method ChangeNewName(slot: Slot, text: string)
      modifies this`newPlayer1Name, this`newPlayer2Name, this`error
      ensures error == None
      ensures slot == Slot1 ==> newPlayer1Name == text && newPlayer2Name == old(newPlayer2Name)
      ensures slot == Slot2 ==> newPlayer2Name == text && newPlayer1Name == old(newPlayer1Name)
    {
      if slot == Slot1 {
        newPlayer1Name := text;
      } else {
        newPlayer2Name := text;
      }
      error := None;
    }

    /** `handleSubmit`: the request handed to `onStartGame`, or the error shown instead. */
    method Submit(users: seq<User>) returns (start: Option<StartRequest>)
      modifies this`error
      ensures match ValidateSettings(users, State())
        case Success(req) => start == Some(req) && error == None
        case Failure(e) => start == None && error == Some(e)
    {
      error := None;
      match ValidateSettings(users, State()) {
        case Success(req) =>
          start := Some(req);
        case Failure(e) =>
          error := Some(e);
          start := None;
      }
    }
  }
}
