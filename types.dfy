/**
 * The records the scorer passes around (types.ts), the selection record the
 * settings page hands to the session (App.tsx), and the roster lookups on
 * them that several components share (`users.find`, `users.filter`,
 * `users.map`).
 */
module Types {
  import opened Wrappers

  /** A roster entry; its counters are kept by the persistence layer. */
  datatype User = User(id: string, name: string, gamesPlayedIds: seq<string>, gamesWon: int, gamesLost: int)

  /** The two seats of the current game. */
  datatype GameSettings = GameSettings(
    player1Id: Option<string>,
    player2Id: Option<string>,
    player1Name: string,
    player2Name: string)

  datatype HandWinner = Player1 | Player2 | Tie

  datatype HandResult = HandResult(id: string, player1Score: int, player2Score: int, winner: Option<HandWinner>)

  datatype GameStats = GameStats(
    player1CumulativeScore: int,
    player2CumulativeScore: int,
    player1HandsWon: int,
    player2HandsWon: int)

  datatype FinalGameResult = FinalGameResult(
    player1FinalScore: int,
    player2FinalScore: int,
    winnerName: string,
    winnerId: Option<string>,
    player1Name: string,
    player2Name: string,
    player1Id: Option<string>,
    player2Id: Option<string>,
    player1Cumulative: int,
    player2Cumulative: int,
    player1HandsWon: int,
    player2HandsWon: int,
    handWinBonus: int)

  /** What the session hands to the game store: a stored game before the store
    * has given it an id, a date and a summary. */
  datatype CompletedGame = CompletedGame(settings: GameSettings, hands: seq<HandResult>, finalResult: FinalGameResult)

  datatype StoredGame = StoredGame(
    id: string,
    date: string,
    settings: GameSettings,
    hands: seq<HandResult>,
    finalResult: FinalGameResult,
    aiSummary: Option<string>)

  datatype HeadToHeadStats = HeadToHeadStats(
    gamesPlayed: int,
    selectedUserWins: int,
    comparisonUserWins: int,
    ties: int,
    selectedUserShutouts: int,
    comparisonUserShutouts: int)

  /** The selection value that stands for "create a new user" instead of a user id. */
  const CREATE_NEW_USER_ID: string := "CREATE_NEW_USER"

  /** `PlayerSelectionData`: an existing user's id, or CREATE_NEW_USER_ID with the new name. */
  datatype PlayerSelectionData = PlayerSelectionData(id: Option<string>, name: Option<string>)

  /** JavaScript truthiness of a `string | null`: present and not empty. */
  predicate Truthy(s: Option<string>) {
    s.Some? && s.value != ""
  }

  /** `users.find(u => u.id === id)`: the first user with that id. */
  function FindUser(users: seq<User>, id: Option<string>): (r: Option<User>)
    ensures r.None? <==> forall k :: 0 <= k < |users| ==> Some(users[k].id) != id
    ensures r.Some? ==> Some(r.value.id) == id
    ensures r.Some? ==> exists k :: (0 <= k < |users| && users[k] == r.value
                                     && forall j :: 0 <= j < k ==> Some(users[j].id) != id)
  {
    if users == [] then None
    else if Some(users[0].id) == id then Some(users[0])
    else
      var rest := FindUser(users[1..], id);
      assert rest.Some? ==> exists k :: (0 <= k < |users| && users[k] == rest.value
                                         && forall j :: 0 <= j < k ==> Some(users[j].id) != id) by {
        if rest.Some? {
          var k :| 0 <= k < |users[1..]| && users[1..][k] == rest.value
            && forall j :: 0 <= j < k ==> Some(users[1..][j].id) != id;
          assert users[k + 1] == rest.value;
        }
      }
      rest
  }

  /** `users.filter(u => u.id !== id)`: the roster without that id, in order. */
  function WithoutId(users: seq<User>, id: string): (r: seq<User>)
    ensures |r| <= |users|
    ensures forall u :: u in r <==> u in users && u.id != id
  {
    if users == [] then []
    else if users[0].id == id then WithoutId(users[1..], id)
    else [users[0]] + WithoutId(users[1..], id)
  }

  /** The filter keeps every user whose id differs as often as the roster has
    * them, and no user with the id. */
  lemma {:induction false} WithoutIdCounts(users: seq<User>, id: string)
    ensures forall u :: multiset(WithoutId(users, id))[u] == if u.id == id then 0 else multiset(users)[u]
  {
    if users != [] {
      assert users == [users[0]] + users[1..];
      WithoutIdCounts(users[1..], id);
    }
  }

  /** The filter works element by element, keeping the order of the roster:
    * filtering a concatenation concatenates the filtered parts. */
  lemma {:induction false} WithoutIdConcat(a: seq<User>, b: seq<User>, id: string)
    ensures WithoutId(a + b, id) == WithoutId(a, id) + WithoutId(b, id)
  {
    if a == [] {
      assert a + b == b;
    } else {
      var ab := a + b;
      assert ab[0] == a[0] && ab[1..] == a[1..] + b;
      WithoutIdConcat(a[1..], b, id);
      if a[0].id == id {
        assert WithoutId(ab, id) == WithoutId(a[1..] + b, id);
      } else {
        assert WithoutId(ab, id) == [a[0]] + WithoutId(a[1..] + b, id);
      }
    }
  }

  /** `users.map(u => u.id === updated.id ? updated : u)`. */
  function ReplaceUser(users: seq<User>, updated: User): (r: seq<User>)
    ensures |r| == |users|
    ensures forall k :: 0 <= k < |users| ==> r[k] == if users[k].id == updated.id then updated else users[k]
  {
    seq(|users|, k requires 0 <= k < |users| => if users[k].id == updated.id then updated else users[k])
  }
}
