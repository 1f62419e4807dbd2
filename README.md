# Gin rummy score-keeper: scoring engine, session and forms

This project models the logic of a two-player gin rummy score-keeper written
as a React application, and proves properties of it in Dafny 4.11.

- **Scoring engine** (module `Scoring`).
  - Each hand is classified from its two scores.
  - The hand list folds into cumulative scores and hands won.
  - The game ends once a cumulative score reaches `TARGET_SCORE = 100`.
  - A final score is the cumulative score plus `HAND_WIN_BONUS = 20` for each hand won.
  - The strictly higher final score wins; equal finals are a tie.
- **Session** (module `App`, class `App.Session`).
  - Fields: the roster, the current game's settings, its hands, its statistics, its final result and the view on screen.
  - Handlers: adding a hand, the game-over check, setting up a game, deleting a user, returning to the landing view.
  - The invariant `Valid` says:
    - the statistics are those of the hand list;
    - a game is active only on the game view, with both seats filled and no cumulative score at the target;
    - a recorded final result belongs to a finished game.
- **Hand entry form** (module `HandScoreForm`): the scoring player and the typed points become a score pair with at most one non-zero side.
- **Game settings page** (module `GameSettingsPage`): the two seat selections and the guard chain that turns them into a start request.
- **User management page** (module `UserManagement`): selecting, renaming and deleting users, and the overall win rate.
- **Head-to-head comparison** (module `UserComparison`): the loop that counts games, wins, ties and shutouts between two users over the stored games, the guarded win percentage, and the list of users offered for comparison.

Shared records are in `Types`. The JavaScript string primitives the code
relies on (`trim`, `toLowerCase`, `parseInt(s, 10)`) are in `Text`. `Option`
and `Result` are in `Wrappers`.

Calls to the user and game stores become parameters:
- `created1`/`created2` are the users `createUserAPI` returns;
- `deleted` says whether `deleteUserAPI` succeeded;
- `fetched` is the answer of `getPastGamesAPI`;
- `returned` is what `updateUserNameAPI` gives back.

In each case `None` or `false` stands for a request that failed. `window.confirm` becomes the `confirmed` flag. The `Date.now()`-based hand id becomes the `handId` parameter. Where a handler hands something to its caller or to the store (`onSubmit`, `onStartGame`, `onUpdateUser`, `onDeleteUser`, `saveCompletedGameAPI`), the method returns it.

Behaviour worth noting:
- A negative score is not rejected by `handleAddHand`. It reaches the winner rule and can yield a hand without a winner (`Scoring.HandWinnerOf`).
- The two fallback branches of the winner rule are kept. `Scoring.HandWinnerOf` proves them unreachable.
- Deleting a user who holds a seat abandons the game only when a game is active. Otherwise only the seat's id is cleared (`App.Session.DeleteUser`).

The rows below are stated with these definitions, which carry no contract of their own:
- `Scoring.IsGameOver` (App.tsx:149-152): the end condition, a cumulative score at or above the target.
- `Scoring.Step` and `Scoring.Stats` (App.tsx:123-137): one turn of the `reduce` and the fold itself, tied to the reference sums by `Scoring.StatsAreSums`.
- `Scoring.NewHand` (App.tsx:337-342): the hand record `handleAddHand` appends, with the winner of `Scoring.HandWinnerOf`.
- `UserComparison.Tally` and `UserComparison.HeadToHeadOf` (components/UserComparison.tsx:50-78): one turn of the `forEach` and the fold, described by `UserComparison.Contribution` and `UserComparison.TallyAdds`.
- `GameSettingsPage.NameTaken` (pages/GameSettingsPage.tsx:71, 90): a roster name equal up to case.
- `GameSettingsPage.AllGuardsPass` (pages/GameSettingsPage.tsx:55-110): all guards of the chain at once, matched by `GameSettingsPage.ValidateSettings`.
- `UserManagement.NameTakenByOther` (pages/UserManagementPage.tsx:67): a name another user has, up to case.
- `UserManagement.ManagementPage.SelectedUser` (pages/UserManagementPage.tsx:20-22): the selected user looked up with `Types.FindUser`.
- `App.OutcomeOf` (App.tsx:285-294): the last two checks of the setup, used by `App.PlanSetup` and `App.Session.StartGame`.

## Model

| member | source | states |
|---|---|---|
| Text.Trim | pages/GameSettingsPage.tsx:62-63 | neither end of the trimmed name is whitespace |
| Text.TrimCutsWhitespace | pages/GameSettingsPage.tsx:62-63 | the trimmed name is the slice of the input left once the leading and trailing whitespace is cut |
| Text.TrimEmptyIffAllWhitespace | pages/GameSettingsPage.tsx:62-63 | the trimmed name is empty exactly when the input is all whitespace |
| Text.ToLower | pages/GameSettingsPage.tsx:71 | same length; no capital letter is left; each ASCII capital becomes the small form of the same letter; every other character is kept |
| Text.ToLowerIdempotent | pages/GameSettingsPage.tsx:71 | lower-casing an already lower-cased string changes nothing |
| Text.SameIgnoringCaseIff | pages/GameSettingsPage.tsx:71 | two names compare equal after `toLowerCase` exactly when they have the same length and each pair of characters is equal or the capital and small form of one ASCII letter |
| Text.ParseIntDigits | components/HandScoreForm.tsx:16 | `parseInt` reads a run of digits as its decimal value, whatever non-digit text follows it |
| Text.ParseIntMinus | components/HandScoreForm.tsx:16 | a leading minus sign negates whatever the rest of the text reads as |
| Text.ParseIntNegative | components/HandScoreForm.tsx:16 | a minus sign before text that reads as a number gives the negated number |
| Text.ParseIntNoDigits | components/HandScoreForm.tsx:16 | a string without digits parses to NaN (`None`) |
| Types.FindUser | App.tsx:119 | `None` exactly when no user has the id; otherwise the first user with that id |
| Types.WithoutId | App.tsx:92 | the roster keeps exactly the users whose id differs, and never grows |
| Types.WithoutIdCounts | App.tsx:92 | each user whose id differs is kept as often as the roster has it; no user with the id is left |
| Types.WithoutIdConcat | App.tsx:92 | the filter keeps the roster's order: filtering two runs of users, one after the other, gives the two filtered runs in that order |
| Types.ReplaceUser | App.tsx:79 | same length; each user with the returned user's id is replaced by it, every other user is kept |
| Scoring.HandWinnerOf | App.tsx:324-335 | Player1 iff `p1 > 0 && p1 >= p2`; Player2 iff `p2 > 0 && p2 > p1`; Tie iff both are 0; no winner iff neither is positive and one is negative; non-negative scores always have a winner; distinct non-negative scores go to the higher side |
| Scoring.StatsAreSums | App.tsx:123-137 | the accumulated statistics equal the per-side sums of the hand scores and the counts of Player1 and Player2 winners; Tie and winner-less hands count for neither |
| Scoring.StatsAppend | App.tsx:123-137 | the statistics of `hands + [h]` are one fold step applied to the statistics of `hands` |
| Scoring.StatsConcat | App.tsx:123-137 | the statistics of two runs of hands, one after the other, are the sums of their statistics |
| Scoring.StatsOrderIndependent | App.tsx:123-137 | the statistics do not depend on the order of two runs of hands |
| Scoring.CalculateStats | App.tsx:123-137 | the loop returns the fold of the hand list: the score sums and the win counts |
| Scoring.FinalResultOf | App.tsx:156-186 | final score = cumulative + hands won × 20 for each side; a strictly higher final score wins with that seat's id and name; the winner id is absent exactly on equal finals, and then the winner name is "It's a Tie!"; the cumulative figures, hands won, ids, names and bonus are copied |
| Scoring.FinalScoresFromHands | App.tsx:156-157 | each final score is that side's hand points plus 20 for each hand it won |
| Scoring.ZeroHandCannotEndGame | App.tsx:329-330 | a 0–0 hand is a Tie that leaves the statistics and the end condition as they were |
| Scoring.AtMostOneSideReachesTarget | App.tsx:149-152 | with hands that score for one side only, both cumulative scores never reach the target at the same check |
| Scoring.DerivePlayerName | App.tsx:117-121 | "Player" without an id, the roster name of the first user with the id, "Player (Unknown)" when no user has it |
| App.PlanSetup | App.tsx:244-319 | a started game has two filled, different seats; the duplicate-name stop happens exactly when both seats create users under names equal up to case and the first creation succeeded; a failed creation stops the setup, with no user created when the first fails and only the first user when the second fails; past the creations the created users are the requested ones in seat order; each seat is the created user's id or the selected id |
| App.PlanSetupSeatNames | App.tsx:246-283 | past the creations a seat that created a user is named after that user (the first created when the store returns one id twice); a selected user is named from the roster unless a user just created has the same id; a seat with neither has no id and its default name |
| App.ResolveSeats | App.tsx:246-283 | the step-by-step seat resolution reaches the decision `PlanSetup` describes: the stop reason, the users created so far, and otherwise the ids and names of both seats |
| App.SettingsPageRequestsStart | pages/GameSettingsPage.tsx:89-109 | a request the settings page sends never trips the session's duplicate-name check, and two existing users it lets through start a game with exactly those seats |
| App.Session.constructor | App.tsx:41-55 | the initial state: landing view, empty roster, default settings, no game, empty hands, zero statistics, no final result |
| App.Session.UsersFetched | App.tsx:57-68 | the roster becomes the fetched list; the invariant is kept |
| App.Session.UserUpdated | App.tsx:75-86 | the returned user replaces every roster entry with its id; the invariant is kept |
| App.Session.AddUsers | App.tsx:278-279 | the created users are appended to the roster; the invariant is kept |
| App.Session.AddHand | App.tsx:321-344 | while a game is active, exactly one hand, classified by the winner rule, is appended and the earlier hands are unchanged; otherwise nothing changes |
| App.Session.ProcessGameOver | App.tsx:139-222 | on the game view with an active game and both seats set, the statistics become those of the hands; the game stays active iff the end condition does not hold; at the end the final result is recorded and the completed game handed to the store; otherwise nothing changes |
| App.Session.PlayHand | App.tsx:321-322 | a hand followed by the end check keeps the invariant; while active the hand is appended and the game stays active iff no cumulative score reached the target, a completed game being returned exactly when it ended; when the hand ends the game the final result of the statistics and the seats' roster names is recorded and the completed game (the seats, all the hands and that result) is returned; otherwise no result is recorded and nothing is returned; once the game is over nothing changes |
| App.Session.ReturnToLanding | App.tsx:225-242 | the game is abandoned and cleared, the view is the landing view, the seat ids are cleared, and the seat names are derived from the old ids |
| App.Session.DeleteUser | App.tsx:88-115 | a failed deletion changes nothing; otherwise the user leaves the roster; a seat held by them abandons an active game (names derived from the roster before the deletion) or clears just that seat; nothing else changes |
| App.Session.SetupComplete | App.tsx:244-319 | the outcome and the users created are those of `PlanSetup`; the duplicate-name, missing-player and same-player stops change neither settings, hands, statistics, final result nor activity; a started game has the planned settings, no hands, zero statistics and the game view |
| App.Session.StartGame | App.tsx:285-308 | a missing seat or two equal seats stop the setup with nothing changed; otherwise a fresh active game with those seats |
| GameSettingsPage.ValidateSettings | pages/GameSettingsPage.tsx:55-110 | the request is produced iff every guard passes, carrying trimmed names for users to create; a missing Player 1 and an empty or placeholder Player 1 name are rejected; "players must be different" only for two equal existing ids |
| GameSettingsPage.DistinctSelectionsPassDifferentCheck | pages/GameSettingsPage.tsx:39-41 | selections kept distinct by the select handler never meet the "players must be different" check |
| GameSettingsPage.ValidateSettingsSound | pages/GameSettingsPage.tsx:66-109 | a sent request names users to create under non-empty names no user has and that differ from each other, fills both seats and never seats one existing user twice |
| GameSettingsPage.SettingsForm.constructor | pages/GameSettingsPage.tsx:19-23 | no selections, empty names, no error |
| GameSettingsPage.SettingsForm.SelectPlayer | pages/GameSettingsPage.tsx:28-43 | the seat takes the value; its new-name field is cleared unless the create entry was chosen; the other seat is freed when it held the same existing user; the seats never hold the same existing user afterwards |
| GameSettingsPage.SettingsForm.ChangeNewName | pages/GameSettingsPage.tsx:45-48 | only that seat's name changes; the error is cleared |
| GameSettingsPage.SettingsForm.Submit | pages/GameSettingsPage.tsx:55-110 | the start request when every guard passes, else the error of the first failing guard |
| HandScoreForm.HandEntry | components/HandScoreForm.tsx:14-40 | no scoring player is refused; NaN or negative points are refused; a submitted pair is non-negative with at most one non-zero side: `(points, 0)` for Player 1, `(0, points)` for Player 2 |
| HandScoreForm.FormPairWinner | components/HandScoreForm.tsx:28-37 | every submitted pair has a hand winner: the chosen side when it scored, a tie for 0 points |
| HandScoreForm.TypedPointsSubmitted | components/HandScoreForm.tsx:16-37 | a run of digits typed into the input is submitted as its value for the chosen side |
| HandScoreForm.NegativePointsRefused | components/HandScoreForm.tsx:23-26 | a negative number is refused |
| HandScoreForm.HandScoreEntry.constructor | components/HandScoreForm.tsx:11-12 | empty points and no scoring player |
| HandScoreForm.HandScoreEntry.ChooseScorer | components/HandScoreForm.tsx:53-71 | the chosen scorer is recorded |
| HandScoreForm.HandScoreEntry.TypePoints | components/HandScoreForm.tsx:88 | the typed text is recorded |
| HandScoreForm.HandScoreEntry.Submit | components/HandScoreForm.tsx:14-40 | an accepted entry is sent and both fields are reset to empty; a refused one raises its alert and leaves the form as it was |
| UserComparison.Contribution | components/UserComparison.tsx:51-76 | a game counts as played iff its seats hold the two users in either order; a win goes to the user whose id is the winner id, the selected user first; a shutout needs that win and a loser's seat with cumulative (not final) score 0; a tie needs neither user to have won and the tie label |
| UserComparison.TallyAdds | components/UserComparison.tsx:50-78 | one loop turn adds exactly the game's contribution to the six counters |
| UserComparison.HeadToHeadConcat | components/UserComparison.tsx:50-78 | the counters over two lists of games, one after the other, are the sums of the counters over each |
| UserComparison.OtherGamesIgnored | components/UserComparison.tsx:51-57 | a game between other players, anywhere in the list, changes none of the counters |
| UserComparison.HeadToHeadOrderIndependent | components/UserComparison.tsx:50-78 | the counters do not depend on the order in which the games arrive |
| UserComparison.MatchingGames | components/UserComparison.tsx:56 | the games between the two users, and no others |
| UserComparison.MatchingCounts | components/UserComparison.tsx:56 | each game between the two users is kept as often as the list has it; no other game is kept |
| UserComparison.MatchingConcat | components/UserComparison.tsx:56 | the filter keeps the games' order: filtering two runs, one after the other, gives the two filtered runs in that order |
| UserComparison.HeadToHeadBounds | components/UserComparison.tsx:60-76 | selected wins + comparison wins + ties ≤ games played, shutouts ≤ wins on each side, every counter non-negative |
| UserComparison.GamesPlayedCount | components/UserComparison.tsx:56-57 | games played is the number of games between the two users |
| UserComparison.ComputeHeadToHead | components/UserComparison.tsx:43-86 | the loop over the stored games returns the counters of the fold, so games played counts the games between the two, the outcome counts do not exceed it, and shutouts do not exceed wins |
| UserComparison.HeadToHeadWinPercentage | components/UserComparison.tsx:118-122 | 'N/A' exactly when the denominator is 0, so there is no division by zero; otherwise wins out of that denominator |
| UserComparison.TablePercentages | components/UserComparison.tsx:212-213 | the table's percentages are 'N/A' exactly when every game between the two was a tie; otherwise each lies in [0, 1] and the two do not add up to more than 1 |
| UserComparison.ComparisonUser | components/UserComparison.tsx:30-33 | none without an id; with an id, the first roster user that has it (`Array.find`), found whenever some user has it |
| UserComparison.AvailableForComparison | components/UserComparison.tsx:124 | the candidates are exactly the roster users other than the selected one, each as often as on the roster and, through `Types.WithoutIdConcat`, in roster order (the whole roster without a selection) |
| UserComparison.ComparisonPanel.constructor | components/UserComparison.tsx:23-25 | no statistics, not loading, no error |
| UserComparison.ComparisonPanel.Refresh | components/UserComparison.tsx:35-101 | with both users present the statistics are the head-to-head fold of the fetched games, or an error when the fetch failed; without both users nothing is shown; loading ends |
| UserManagement.RenameCheck | pages/UserManagementPage.tsx:60-75 | an empty trimmed name is refused; a trimmed name another user has, up to case, is refused; an accepted rename changes the name alone, to the trimmed name |
| UserManagement.OwnNameAccepted | pages/UserManagementPage.tsx:67-70 | on a roster with unique names, keeping one's own name (in another case, with spaces around it) is no conflict |
| UserManagement.RenameKeepsNamesUnique | pages/UserManagementPage.tsx:67-72 | an accepted rename, applied to the roster, keeps its names unique up to case |
| UserManagement.OverallWinRate | pages/UserManagementPage.tsx:89-95 | 'N/A' exactly without a user, 'N/A (0 games)' exactly for a user without games; otherwise games won out of a positive number of games played |
| UserManagement.ManagementPage.constructor | pages/UserManagementPage.tsx:14-18 | no selection, no comparison, empty edit field, not editing, no error |
| UserManagement.ManagementPage.SelectUser | pages/UserManagementPage.tsx:24-33 | the user is selected; comparison, editing mode and error are cleared; the edit field holds the user's name when the user is on the roster |
| UserManagement.ManagementPage.ComparisonUserSelect | pages/UserManagementPage.tsx:35-38 | the empty option clears the comparison; any other value selects it |
| UserManagement.ManagementPage.ClearComparison | pages/UserManagementPage.tsx:40-42 | the comparison is cleared |
| UserManagement.ManagementPage.EditName | pages/UserManagementPage.tsx:44-50 | with a selected user: editing mode with the current name and no error; otherwise nothing changes |
| UserManagement.ManagementPage.CancelEdit | pages/UserManagementPage.tsx:52-58 | editing mode and error are cleared; the edit field is reset to the selected user's name |
| UserManagement.ManagementPage.SaveName | pages/UserManagementPage.tsx:60-75 | without a selected user nothing happens; an accepted rename is handed on and editing ends; a refused one sets its error and hands on nothing |
| UserManagement.ManagementPage.DeleteUser | pages/UserManagementPage.tsx:77-87 | a confirmed delete hands on the selected id and clears the selection, comparison, editing mode and error; a declined confirmation or no selection changes nothing |

## Left out

- Rendering and styling: all JSX, the scoreboard, the game-over modal, the landing, past-games and active-game pages and the player setup field. They hold no logic beyond what is modelled here.
- utils/chartUtils.ts and utils/formatters.ts: chart drawing through Chart.js and locale date formatting.
- The stores in utils/storage are not part of this model. Their calls become parameters and return values, as described above.
- The AI game summary and its placeholder texts.
- `isLoading`, `showGameOverModal` and the loading flags of the stores' requests: display state only.
- React effect scheduling and asynchronous ordering. `App.Session.PlayHand` runs the end check right after each appended hand, the order the application relies on. The stale closure of `handleDeleteUser` is kept: its abandon step derives names from the roster before the deletion.
- `window.alert` and the texts of error messages: each refusal is modelled by its kind (`SettingsError`, `EntryError`, `RenameError`, `SetupOutcome`).
- App.Session.SetupComplete: when a creation fails after another succeeded, the source re-fetches the roster. The model leaves the roster unchanged and returns the users that were created.
- App.Session.ProcessGameOver: the roster refresh after saving the game is left to `App.Session.UsersFetched`.
- UserComparison.HeadToHeadWinPercentage: floating-point division and `toFixed(1)` are not modelled; the percentage is kept as an exact ratio.
- UserManagement.OverallWinRate: same as the line above.
- Text.ToLower: only ASCII letters are folded, where JavaScript folds all of Unicode.
- Text.Trim: only the named whitespace code points are removed, not every Unicode space separator.
- Text.ParseIntDigits: integers are unbounded, so precision loss and overflow to `Infinity` of very long digit strings are not modelled. A typed "-0" is the integer 0 here, where JavaScript has −0, which the form also accepts.
- Number width: scores and counters are unbounded integers rather than JavaScript doubles.
- User statistics (`gamesPlayedIds`, `gamesWon`, `gamesLost`) are kept by the store and are only read here.
