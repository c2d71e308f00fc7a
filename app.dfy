/** The application shell: restoring a session when the page loads, logging in and out,
    switching pages, and turning the pages' game edits into backend requests. */
module AppShell {
  import opened Common
  import opened UserCodec
  import opened AuthSlice
  import opened UiSlice
  import opened GamesSlice
  import opened EditGameModal

  const DashboardView: string := "dashboard"

  /** The body of a create or update request. */
  datatype GamePayload = GamePayload(
    title: string,
    status: string,
    hoursPlayed: Option<int>,
    genre: Option<string>,
    reviewText: Option<string>,
    hltbEstimate: int,
    coverUrl: Option<string>,
    platform: Option<string>)

  /** The games-store requests the shell dispatches. A create request also carries the
      signed-in user's id (missing when nobody is signed in) and an empty tag list. */
  datatype Request =
    | FetchGames
    | AddGame(userId: Option<int>, payload: GamePayload)
    | UpdateGame(id: int, payload: GamePayload)
    | RemoveGame(id: int)

  /** What the create form hands over. */
  datatype NewGame = NewGame(
    title: string,
    status: string,
    hours: JsField,
    genre: Option<string>,
    review: Option<string>,
    hltb: JsField,
    cover: Option<string>,
    platform: Option<string>)

  /** `parseInt(x) || 0`: `NaN` and 0 both give 0. */
  function IntOrZero(v: JsField): (n: int)
    ensures ParseInt(v).Some? ==> n == ParseInt(v).value
    ensures ParseInt(v).None? ==> n == 0
  {
    ParseInt(v).GetOr(0)
  }

  function OptionalInt(v: Option<int>): JsField {
    if v.Some? then Int(v.value) else Absent
  }

  function CreatePayload(g: NewGame): (p: GamePayload)
    ensures p.title == g.title && p.status == Lower(g.status) && p.hoursPlayed == ParseInt(g.hours)
    ensures p.genre == g.genre && p.reviewText == g.review && p.coverUrl == g.cover && p.platform == g.platform
    ensures p.hltbEstimate == IntOrZero(g.hltb)
  {
    GamePayload(g.title, Lower(g.status), ParseInt(g.hours), g.genre, g.review, IntOrZero(g.hltb), g.cover, g.platform)
  }

  /** The update body for an edited game. The edited record has no platform field. */
  function UpdatePayload(g: EditedGame): (p: GamePayload)
    ensures p.title == g.title && p.status == Lower(g.status) && p.hoursPlayed == ParseInt(g.hours)
    ensures p.genre == g.genre && p.reviewText == Some(g.review) && p.coverUrl == g.cover && p.platform == None
    ensures p.hltbEstimate == g.hltb.GetOr(0)
  {
    GamePayload(g.title, Lower(g.status), ParseInt(g.hours), g.genre, Some(g.review),
                IntOrZero(OptionalInt(g.hltb)), g.cover, None)
  }

  lemma LowerOfLowerCase(s: string)
    requires IsLowerCase(s)
    ensures Lower(s) == s
  {
  }

  /** Saving the edit form untouched sends the backend the game's own title, genre, hours,
      time-to-beat estimate and cover, and its status in backend spelling. */
  lemma UntouchedEditSendsStoredValues(g: Game, backendStatus: string)
    requires g.status == Capitalize(backendStatus)
    requires backendStatus != "" && IsLowerCase(backendStatus)
    requires forall i :: 0 <= i < |backendStatus| ==> backendStatus[i] != ' '
    ensures var p := UpdatePayload(Merge(g, InitForm(g)));
            && p.title == g.title && p.genre == g.genre && p.hoursPlayed == g.hours
            && p.hltbEstimate == g.hltb.GetOr(0) && p.coverUrl == g.cover
            && p.status == backendStatus
  {
    InitStatusOfStoreStatus(backendStatus);
    LowerOfLowerCase(backendStatus);
    SaveUntouched(g);
  }

  /** The user stored for page reloads, when there is one and it reads back. */
  function RestoredUser(entries: map<string, string>): (u: Option<User>)
    ensures UserKey !in entries ==> u == None
  {
    if UserKey in entries && entries[UserKey] != "" then Parse(entries[UserKey]) else None
  }

  class Shell {
    const storage: LocalStorage
    const auth: AuthState
    const ui: UiState
    /** Requests dispatched to the games store, in order. */
    var requests: seq<Request>

    predicate Valid()
      reads this, auth, storage, auth.storage
    {
      auth.storage == storage && auth.Synced()
    }

    /** The page loads with the browser's storage. */
    constructor (s: LocalStorage)
      ensures storage == s && fresh(auth) && fresh(ui) && Valid()
      ensures requests == [] && ui.view == LoginView
      ensures auth.user == None && auth.token == StoredToken(s.entries)
    {
      storage := s;
      auth := new AuthState(s);
      ui := new UiState();
      requests := [];
    }

    /** `initData`: with a stored token the session is restored (the token, the stored
        user when it reads back, the dashboard); the games are fetched in any case. */
    method InitData()
      requires Valid()
      modifies this, auth, storage, ui
      ensures Valid() && requests == old(requests) + [FetchGames]
      ensures storage.entries == old(storage.entries)
      ensures auth.status == old(auth.status) && auth.error == old(auth.error)
      ensures StoredToken(old(storage.entries)).Some? ==>
        && auth.token == StoredToken(old(storage.entries)) && ui.view == DashboardView
        && auth.user == (if RestoredUser(old(storage.entries)).Some? then RestoredUser(old(storage.entries)) else old(auth.user))
      ensures StoredToken(old(storage.entries)).None? ==>
        auth.token == old(auth.token) && auth.user == old(auth.user) && ui.view == old(ui.view)
    {
      var storedToken := storage.GetItem(TokenKey);
      var storedUser := storage.GetItem(UserKey);
      if Truthy(storedToken) {
        auth.SetToken(storedToken);
        assert storage.entries == old(storage.entries);
        if Truthy(storedUser) {
          var parsed := Parse(storedUser.value);
          if parsed.Some? {
            auth.SetUser(parsed);
          }
        }
        ui.SetView(DashboardView);
      }
      requests := requests + [FetchGames];
    }

    /** `handleLogin`: the user's token (if any) and the user are kept in the store and in
        browser storage, the games are fetched and the dashboard shows. */
    method HandleLogin(u: User)
      requires Valid()
      modifies this, auth, storage, ui
      ensures Valid() && requests == old(requests) + [FetchGames] && ui.view == DashboardView
      ensures auth.user == Some(u)
      ensures Truthy(u.token) ==> auth.token == u.token
      ensures !Truthy(u.token) ==> auth.token == old(auth.token)
      ensures storage.entries ==
        (if Truthy(u.token) then old(storage.entries)[TokenKey := u.token.value] else old(storage.entries))[UserKey := Serialize(u)]
    {
      if Truthy(u.token) {
        auth.SetToken(u.token);
        storage.SetItem(TokenKey, u.token.value);
      }
      auth.SetUser(Some(u));
      storage.SetItem(UserKey, Serialize(u));
      requests := requests + [FetchGames];
      ui.SetView(DashboardView);
    }

    /** `handleLogout`: the session and both stored entries go, and the login page shows. */
    method HandleLogout()
      requires Valid()
      modifies this, auth, storage, ui
      ensures Valid() && requests == old(requests) && ui.view == LoginView
      ensures auth.user == None && auth.token == None
      ensures storage.entries == old(storage.entries) - {TokenKey, UserKey}
    {
      auth.Logout();
      storage.RemoveItem(TokenKey);
      storage.RemoveItem(UserKey);
      ui.SetView(LoginView);
    }

    /** `handleNavigate`. */
    method HandleNavigate(target: string)
      modifies ui
      ensures ui.view == target
    {
      ui.SetView(target);
    }

    /** `handleCreateGame`. */
    method HandleCreateGame(g: NewGame)
      modifies this
      ensures requests == old(requests) +
        [AddGame(if auth.user.Some? then Some(auth.user.value.id) else None, CreatePayload(g))]
    {
      var userId := if auth.user.Some? then Some(auth.user.value.id as int) else None;
      requests := requests + [AddGame(userId, CreatePayload(g))];
    }

    /** `handleUpdateGame`. */
    method HandleUpdateGame(g: EditedGame)
      modifies this
      ensures requests == old(requests) + [UpdateGame(g.id, UpdatePayload(g))]
    {
      requests := requests + [UpdateGame(g.id, UpdatePayload(g))];
    }

    /** `handleDeleteGame`. */
    method HandleDeleteGame(id: int)
      modifies this
      ensures requests == old(requests) + [RemoveGame(id)]
    {
      requests := requests + [RemoveGame(id)];
    }
  }

  /** A user who logged in with a token and then reloads the page is signed in again on
      the dashboard, as the same user. */
  method LoginThenReload(s: LocalStorage, u: User) returns (reloaded: Shell)
    requires Truthy(u.token)
    modifies s
    ensures reloaded.auth.user == Some(u) && reloaded.auth.token == u.token
    ensures reloaded.ui.view == DashboardView
  {
    var app := new Shell(s);
    app.HandleLogin(u);
    ParseSerialize(u);
    assert RestoredUser(s.entries) == Some(u);
    reloaded := new Shell(s);
    reloaded.InitData();
  }

  /** After logging out and reloading, nobody is signed in and the login page shows. */
  method LogoutThenReload(s: LocalStorage) returns (reloaded: Shell)
    modifies s
    ensures reloaded.auth.user == None && reloaded.auth.token == None
    ensures reloaded.ui.view == LoginView
  {
    var app := new Shell(s);
    app.HandleLogout();
    reloaded := new Shell(s);
    reloaded.InitData();
  }
}
