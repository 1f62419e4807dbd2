/**
 * The user management page (pages/UserManagementPage.tsx): choosing a user,
 * renaming them under the page's name rules, deleting them after a
 * confirmation, and the guarded overall win rate. The roster is the page's
 * input; the rename and the deletion are handed back to the session.
 */
module UserManagement {
  import opened Wrappers
  import opened Types
  import opened Text

  /** Why a rename was refused (the page shows a message for each). */
  datatype RenameError = NameEmpty | NameExists(name: string)

  /** The overall win rate before formatting: `'N/A'`, `'N/A (0 games)'` or games won out of games played. */
  datatype WinRate = NoUser | NoGamesPlayed | Rate(won: int, played: nat)

  /** Another user than `selected` goes by `name`, up to ASCII case. */
  predicate NameTakenByOther(users: seq<User>, selected: User, name: string) {
    exists k :: 0 <= k < |users| && users[k].id != selected.id && SameIgnoringCase(users[k].name, name)
  }

  /**
   * The checks of `handleSaveName`: the trimmed name must not be empty and no
   * other user may already have it; the user's own current name is no
   * conflict. A rename changes the name alone.
   */
  function RenameCheck(users: seq<User>, selected: User, editingName: string): (r: Result<User, RenameError>)
    ensures r == Failure(NameEmpty) <==> Trim(editingName) == ""
    ensures r.Failure? && r.error.NameExists? <==> Trim(editingName) != "" && NameTakenByOther(users, selected, Trim(editingName))
    ensures r.Failure? && r.error.NameExists? ==> r.error.name == Trim(editingName)
    ensures r.Success? ==>
      && r.value.id == selected.id && r.value.name == Trim(editingName)
      && r.value.gamesPlayedIds == selected.gamesPlayedIds
      && r.value.gamesWon == selected.gamesWon && r.value.gamesLost == selected.gamesLost
  {
    var trimmedName := Trim(editingName);
    if trimmedName == "" then Failure(NameEmpty)
    else if NameTakenByOther(users, selected, trimmedName) then Failure(NameExists(trimmedName))
    else Success(selected.(name := trimmedName))
  }

  /** No two users with different ids share a name up to case. */
  predicate UniqueNames(users: seq<User>) {
    forall j, k :: 0 <= j < |users| && 0 <= k < |users| && users[j].id != users[k].id ==>
      !SameIgnoringCase(users[j].name, users[k].name)
  }

  /**
   * Keeping one's own name, in another letter case or with spaces around it,
   * is accepted on a roster whose names are unique.
   */
  lemma OwnNameAccepted(users: seq<User>, selected: User, editingName: string)
    requires UniqueNames(users) && selected in users
    requires Trim(editingName) != "" && SameIgnoringCase(Trim(editingName), selected.name)
    ensures RenameCheck(users, selected, editingName).Success?
  {
    var i :| 0 <= i < |users| && users[i] == selected;
    forall k | 0 <= k < |users| && users[k].id != selected.id
      ensures !SameIgnoringCase(users[k].name, Trim(editingName))
    {
      assert !SameIgnoringCase(users[k].name, users[i].name);
    }
  }

  /** An accepted rename, applied by the session, keeps the roster's names unique. */
  lemma RenameKeepsNamesUnique(users: seq<User>, selected: User, editingName: string)
    requires UniqueNames(users)
    requires RenameCheck(users, selected, editingName).Success?
    ensures UniqueNames(ReplaceUser(users, RenameCheck(users, selected, editingName).value))
  {
    var renamed := RenameCheck(users, selected, editingName).value;
    var after := ReplaceUser(users, renamed);
    forall j, k | 0 <= j < |after| && 0 <= k < |after| && after[j].id != after[k].id
      ensures !SameIgnoringCase(after[j].name, after[k].name)
    {
      if users[j].id == renamed.id {
        assert !SameIgnoringCase(users[k].name, renamed.name);
      } else if users[k].id == renamed.id {
        assert !SameIgnoringCase(users[j].name, renamed.name);
      }
    }
  }

  /** `calculateOverallWinRate`: no division without a user or without games. */
  function OverallWinRate(user: Option<User>): (r: WinRate)
    ensures r == NoUser <==> user.None?
    ensures r == NoGamesPlayed <==> user.Some? && |user.value.gamesPlayedIds| == 0
    ensures r.Rate? ==> r.played > 0 && r.played == |user.value.gamesPlayedIds| && r.won == user.value.gamesWon
  {
    if user.None? then NoUser
    else if |user.value.gamesPlayedIds| == 0 then NoGamesPlayed
    else Rate(user.value.gamesWon, |user.value.gamesPlayedIds|)
  }

  /** The page's own state; `error` stands for the message shown. */
  class ManagementPage {
    var selectedUserId: Option<string>
    var comparisonUserId: Option<string>
    var editingName: string
    var isEditing: bool
    var error: Option<RenameError>

    constructor ()
      ensures selectedUserId == None && comparisonUserId == None
      ensures editingName == "" && !isEditing && error == None
    {
      selectedUserId, comparisonUserId := None, None;
      editingName, isEditing, error := "", false, None;
    }

    /** The `selectedUser` the page derives from the roster. */
    function SelectedUser(users: seq<User>): Option<User>
      reads this
    {
      FindUser(users, selectedUserId)
    }

    /** `handleSelectUser`: a new selection drops the comparison, the editing mode
      * and the error, and loads the user's name into the edit field. */
    method SelectUser(users: seq<User>, userId: string)
      modifies this
      ensures selectedUserId == Some(userId) && comparisonUserId == None && !isEditing && error == None
      ensures editingName == match FindUser(users, Some(userId))
                             case Some(u) => u.name
                             case None => old(editingName)
    {
      selectedUserId := Some(userId);
      comparisonUserId := None;
      isEditing := false;
      error := None;
      var user := FindUser(users, Some(userId));
      if user.Some? {
        editingName := user.value.name;
      }
    }

    /** `handleComparisonUserSelect`: the empty option clears the comparison. */
    method ComparisonUserSelect(value: string)
      modifies this`comparisonUserId
      ensures comparisonUserId == if value == "" then None else Some(value)
    {
      comparisonUserId := if value == "" then None else Some(value);
    }

    /** `handleClearComparison`. */
    method ClearComparison()
      modifies this`comparisonUserId
      ensures comparisonUserId == None
    {
      comparisonUserId := None;
    }

    /** `handleEditName`: enter editing mode with the current name, when a user is selected. */
    method EditName(users: seq<User>)
      modifies this`editingName, this`isEditing, this`error
      ensures SelectedUser(users).None? ==> unchanged(this)
      ensures SelectedUser(users).Some? ==>
        editingName == SelectedUser(users).value.name && isEditing && error == None
    {
      var selectedUser := SelectedUser(users);
      if selectedUser.Some? {
        editingName := selectedUser.value.name;
        isEditing := true;
        error := None;
      }
    }

    /** `handleCancelEdit`: leave editing mode and restore the current name. */
    method CancelEdit(users: seq<User>)
      modifies this`editingName, this`isEditing, this`error
      ensures !isEditing && error == None
      ensures editingName == if SelectedUser(users).Some? then SelectedUser(users).value.name else old(editingName)
    {
      isEditing := false;
      error := None;
      var selectedUser := SelectedUser(users);
      if selectedUser.Some? {
        editingName := selectedUser.value.name;
      }
    }

    /**
     * `handleSaveName`: the renamed user handed to `onUpdateUser`, after which
     * editing ends, or the refusal shown instead.
     */
    method SaveName(users: seq<User>) returns (update: Option<User>)
      modifies this`isEditing, this`error
      ensures FindUser(users, selectedUserId).None? ==>
        update == None && isEditing == old(isEditing) && error == old(error)
      ensures FindUser(users, selectedUserId).Some? ==>
        match RenameCheck(users, FindUser(users, selectedUserId).value, editingName)
        case Success(u) => update == Some(u) && !isEditing && error == None
        case Failure(e) => update == None && error == Some(e) && isEditing == old(isEditing)
    {
      update := None;
      var selectedUser := SelectedUser(users);
      if selectedUser.None? {
        return;
      }
      match RenameCheck(users, selectedUser.value, editingName) {
        case Failure(e) =>
          error := Some(e);
        case Success(u) =>
          update := Some(u);
          isEditing := false;
          error := None;
      }
    }

    /**
     * `handleDeleteUser`: once confirmed, the selected user's id goes to
     * `onDeleteUser` and the selection is cleared; a declined confirmation, or
     * no selection, changes nothing.
     */
    method DeleteUser(users: seq<User>, confirmed: bool) returns (deletedId: Option<string>)
      modifies this
      ensures old(SelectedUser(users)).None? || !confirmed ==> deletedId == None && unchanged(this)
      ensures old(SelectedUser(users)).Some? && confirmed ==>
        && deletedId == Some(old(SelectedUser(users)).value.id)
        && selectedUserId == None && comparisonUserId == None && !isEditing && error == None
        && editingName == old(editingName)
    {
      deletedId := None;
      var selectedUser := SelectedUser(users);
      if selectedUser.Some? && confirmed {
        deletedId := Some(selectedUser.value.id);
        selectedUserId := None;
        comparisonUserId := None;
        isEditing := false;
        error := None;
      }
    }
  }
}
