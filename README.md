# Gaming Backlog — a verified model of the client-side state logic

Gaming Backlog is a React/Redux application for keeping track of the games a player owns,
plays and has finished. This project models, in Dafny, the parts of its client that hold
state or compute over the game list:

- the **tier-list editor** (`tier_list_editor.dfy`): the map from containers (tier rows and
  the unranked pool) to ordered games, built when a tier list loads, changed by the drag
  start / drag over / drag end handlers, serialised on save, and filtered for the pool
  panel; the handlers are methods of the class `TierBoard`;
- the **games store** (`games_slice.dfy`): normalisation of backend records (cover address,
  capitalised status, status colour, tag names) and the fetch / add / update / remove
  reducer cases, as the class `GamesStore`;
- the **statistics page** (`statistics.dfy`): totals, status and genre counts, rounded
  percentages, the top five genres, score buckets, the average score and the top ten
  games, with the score pass written as the loop it is in the source;
- the **dashboard** (`dashboard.dfy`): the column sort toggle, the comparator and the
  stable sort, the review / edit / delete-confirmation dialog state, the score colour and
  the mock-data generator;
- the **random picker** (`random_picker.dfy`): the 80-card strip with the winner at
  index 65, the spin guard, the target offset, and the two timer callbacks as explicit
  pending events;
- the **game selection dialog** (`game_selection.dfy`): unique sorted genres, the genre
  filter and the selected-genre state;
- the **edit dialog** (`edit_game_modal.dfy`): form initialisation, field changes and the
  merge of the form into the game;
- the **session** (`auth_slice.dfy`, `ui_slice.dfy`, `app.dfy`): the auth store with the
  browser's `localStorage` as a `map<string, string>` field, the view store, and the
  application shell's handlers (session restore, login, logout, navigation and the create,
  update and delete request builders).

Shared pieces: `common.dfy` (an `Option` type, JavaScript truthiness, filtering, ASCII case
mapping, decimal rendering and `parseInt`), `sorting.dfy` (a stable insertion sort by a key,
standing for `Array.prototype.sort`, which is stable) and `user_codec.dfy` (the text form of
the stored user, standing for `JSON.stringify`/`JSON.parse`, with its round trip proved).

Randomness, timers and drag geometry are inputs: a `Math.random()` value is a `Draw`, a
real in [0, 1); the hovered item's rectangle test is a boolean `isBelow`; a pending
`setTimeout` callback is an element of a `pending` sequence that a separate method fires.
Network calls are recorded as request values (`AppShell.Request`, `deleteRequests`,
`updateRequests`) and their responses are method parameters.

## Model

| member | source | states |
|---|---|---|
| TierListEditor.IndexOfId | src/components/TierListEditor.jsx:262-263 | `findIndex` by drag id: -1 exactly when no game has the id, otherwise the first position holding it |
| TierListEditor.InsertAt | src/components/TierListEditor.jsx:286-290 | inserting through two `slice`s adds exactly one element, whatever the index (an index past the end appends) |
| TierListEditor.RowContainersContents | src/components/TierListEditor.jsx:186-198 | the row containers are keyed by exactly the row ids, and each holds its row's games in stored order with drag id = game id |
| TierListEditor.InitContents | src/components/TierListEditor.jsx:186-210 | after loading, the keys are the row ids plus `unranked`; every entry's drag id is its game id; the pool is the library games not ranked in any row, in library order |
| TierListEditor.InitNoDuplicates | src/components/TierListEditor.jsx:186-210 | for consistent stored data (distinct rows, a game ranked at most once, distinct library ids) no game id sits in two containers or twice in one, and the pool exists |
| TierListEditor.HolderUnique | src/components/TierListEditor.jsx:247-250 | under the no-duplicates invariant the container holding an item is unique, so the first-match search of `findContainer` finds the only one |
| TierListEditor.IdCollisionMisresolves | src/components/TierListEditor.jsx:247-250 | as written, a game whose id equals a row id resolves to that row and not to the container holding it (see Findings) |
| TierListEditor.MoveAcrossProperties | src/components/TierListEditor.jsx:281-291 | a cross-container move removes the item from the source, puts it exactly once into the destination at the computed index, keeps the multiset of all items, and leaves every other container unchanged |
| TierListEditor.MoveAcrossNoDuplicates | src/components/TierListEditor.jsx:281-291 | a cross-container move keeps the invariant that no game is in two containers |
| TierListEditor.ArrayMoveProperties | src/components/TierListEditor.jsx:337-345 | `arrayMove` permutes the container, puts the moved item at the target (the end for target -1) and keeps ids distinct |
| TierListEditor.ReturnToPoolProperties | src/components/TierListEditor.jsx:321-331 | a drop outside any target moves the item from its row to the end of the pool and changes no other container |
| TierListEditor.DragOverKeepsInvariant | src/components/TierListEditor.jsx:239-293 | every drag-over step (no target, unresolved container, same container, cross move with any of the three insert-index cases) keeps the container keys and the no-duplicates invariant; this is the corrected step, which differs from the source for a game hovering its own row (see Findings) |
| TierListEditor.FindAsWritten | src/components/TierListEditor.jsx:247-250 | as written, a container found through `id in dragItems` comes back as given (a row's number, the pool's string) and one found by searching comes back as a string key, always inside the board |
| TierListEditor.DragOverOwnRowDuplicates | src/components/TierListEditor.jsx:252-291 | as written, hovering the empty area of a game's own row appends a second copy of the game, breaking the no-duplicates invariant, where the corrected step changes nothing (see Findings) |
| TierListEditor.RowZeroRefusesGames | src/components/TierListEditor.jsx:252-257 | as written, a row with id 0 is falsy: hovering it changes nothing and dropping on it returns the game to the pool, where the corrected step moves the game into the row (see Findings) |
| TierListEditor.DragOverAgrees | src/components/TierListEditor.jsx:239-293 | away from a game's own row and from a row numbered 0, the drag-over step as written and the corrected step give the same board |
| TierListEditor.DragEndAgrees | src/components/TierListEditor.jsx:295-350 | away from a game's own row and from a row numbered 0, the drop as written and the corrected drop give the same board |
| TierListEditor.HoverMovesIntoTarget | src/components/TierListEditor.jsx:281-291 | hovering a container other than the game's own moves the game into it and out of the one it came from |
| TierListEditor.DragEndKeepsInvariant | src/components/TierListEditor.jsx:295-350 | every drag-end step keeps the container keys and the no-duplicates invariant |
| TierListEditor.DropInSameContainer | src/components/TierListEditor.jsx:337-347 | a drop inside the item's own container permutes that container only and leaves the rest of the map as it was; for a drop on a row's own container this is the corrected step (see Findings) |
| TierListEditor.DragEndWithinContainer | src/components/TierListEditor.jsx:337-347 | a same-container drop applies `arrayMove(activeIndex, overIndex)` when the indices differ and changes nothing when they are equal; the source does this for a row's own container only under the corrected key comparison (see Findings) |
| TierListEditor.DropOutsideFromPool | src/components/TierListEditor.jsx:308-334 | dropping a pool item outside any target leaves the map unchanged |
| TierListEditor.TierBoard.constructor | src/components/TierListEditor.jsx:119-126 | the loaded board holds the initial map, no active item, drop animation on, and satisfies the invariant |
| TierListEditor.TierBoard.FindContainer | src/components/TierListEditor.jsx:247-250 | the loop over container keys returns the container the id names (a container key, else the holder of the item), with one key type for rows (see Findings) |
| TierListEditor.TierBoard.DragStart | src/components/TierListEditor.jsx:224-237 | the `for…in` scan sets the active item to the game with that drag id when some container holds it, to null otherwise, and turns drop animation on |
| TierListEditor.TierBoard.DragOver | src/components/TierListEditor.jsx:239-293 | the map becomes the corrected drag-over successor (see Findings) and the invariant is kept |
| TierListEditor.TierBoard.DragEnd | src/components/TierListEditor.jsx:295-350 | the map becomes the corrected drag-end successor (see Findings), the active item is cleared, and drop animation stays on only for a drop on a resolved target |
| TierListEditor.SavePayload | src/components/TierListEditor.jsx:359-373 | the payload keeps the list's id, name and date and one row per stored row with its own fields; each row's items are its container's games with `sort_order` = position, an absent container giving no items; the pool is not serialised |
| TierListEditor.SaveContiguous | src/components/TierListEditor.jsx:363-366 | the sort orders of a saved row are exactly 0 … n-1 |
| TierListEditor.FilteredUnranked | src/components/TierListEditor.jsx:405-409 | the pool panel shows the order-preserving subsequence of pool games whose title contains the query case-insensitively and that are finished unless all games are shown |
| TierListEditor.EmptySearchShowsPool | src/components/TierListEditor.jsx:405-409 | an empty query with "show all" on lists the whole pool |
| GamesSlice.Absolutize | src/store/slices/gamesSlice.js:42-45 | an empty or missing cover is left alone; an address starting with `http` or `data:` is kept; any other gets the API address in front, so the result always starts with `http` or `data:` |
| GamesSlice.AbsolutizeIdempotent | src/store/slices/gamesSlice.js:42-45 | resolving a cover twice gives what resolving it once gives |
| GamesSlice.Capitalize | src/store/slices/gamesSlice.js:52 | only the first character is upper-cased; the rest and the length are kept |
| GamesSlice.StatusColor | src/store/slices/gamesSlice.js:53 | violet exactly for `playing`, primary exactly for `finished`, slate exactly for everything else |
| GamesSlice.CapitalizeRoundTrip | src/store/slices/gamesSlice.js:52 | lower-casing the capitalised form of a lower-case status gives the status back |
| GamesSlice.TagNames | src/store/slices/gamesSlice.js:60 | the vibes are the tag names in order, or empty when the record has no tags |
| GamesSlice.ToClient | src/store/slices/gamesSlice.js:46-61 | the mapped game keeps the backend id and title, has `lastPlayed` = `Recently`, the resolved cover, the status capitalised and the colour of the backend status, and copies genre, hours, finishing date, score, release year, review and time estimate |
| GamesSlice.Refresh | src/store/slices/gamesSlice.js:105-119 | an updated item is the re-mapped response but keeps its own id, `lastPlayed` and vibes |
| GamesSlice.IndexOfGame | src/store/slices/gamesSlice.js:97 | `findIndex` by id: the first match, or -1 exactly when no item has the id |
| GamesSlice.ApplyUpdateProperties | src/store/slices/gamesSlice.js:95-121 | an update keeps the length, replaces only the first item with the id (refreshed) and changes nothing when the id is absent |
| GamesSlice.RemoveGame | src/store/slices/gamesSlice.js:127 | removal keeps, in order, exactly the items whose id differs, each as many times as it occurred |
| GamesSlice.RemoveAbsent | src/store/slices/gamesSlice.js:126-131 | removing an id no item has leaves the list as it was |
| GamesSlice.GamesStore.constructor | src/store/slices/gamesSlice.js:4-8 | no items, status idle, no error |
| GamesSlice.GamesStore.FetchPending | src/store/slices/gamesSlice.js:36-38 | status becomes loading; items and error are untouched |
| GamesSlice.GamesStore.FetchFulfilled | src/store/slices/gamesSlice.js:39-63 | status becomes succeeded; the items are the payload mapped one to one in order with tag names as vibes |
| GamesSlice.GamesStore.FetchRejected | src/store/slices/gamesSlice.js:64-67 | status becomes failed, the error is the message, the items stay |
| GamesSlice.GamesStore.AddFulfilled | src/store/slices/gamesSlice.js:69-93 | the mapped created game, with no vibes, is put in front of the unchanged old items |
| GamesSlice.GamesStore.UpdateFulfilled | src/store/slices/gamesSlice.js:95-121 | the search loop and the write at the found index give the specified update |
| GamesSlice.GamesStore.RemoveFulfilled | src/store/slices/gamesSlice.js:123-132 | the items become the removal of that id |
| GamesSlice.GamesStore.RemoveRejected | src/store/slices/gamesSlice.js:133-135 | nothing changes |
| Statistics.RoundPercent | src/components/StatisticsPage.jsx:26 | `Math.round(100·part/total)` as the integer nearest to it, halves rounded up; at most 100 when the part does not exceed the total |
| Statistics.TotalHours | src/components/StatisticsPage.jsx:15 | the sum of hours with missing values as 0: zero when none is known, non-negative when all are |
| Statistics.TallyFacts | src/components/StatisticsPage.jsx:18-22 | the count table has distinct keys, counts each key's occurrences exactly, its counts sum to the number of games, and every entry occurs |
| Statistics.StatusCountsProperties | src/components/StatisticsPage.jsx:18-26 | the status counts sum to the number of games and the completion rate lies in [0, 100] |
| Statistics.SortedGenresOrder | src/components/StatisticsPage.jsx:35-39 | the genre list has at most five entries, in non-increasing count order |
| Statistics.SortedGenresEntries | src/components/StatisticsPage.jsx:29-39 | every listed genre (`Unknown` for a missing one) carries its count of games and the rounded percentage of that count |
| Statistics.TopOfSorted | src/components/StatisticsPage.jsx:38-39 | the first n of a sorted list are n elements of the input in order, and no element left out ranks above a kept one |
| Statistics.BucketOf | src/components/StatisticsPage.jsx:52-56 | every score falls in exactly one of five buckets, bounded by 3, 5, 7 and 9 |
| Statistics.BucketsSum | src/components/StatisticsPage.jsx:46-58 | the buckets add up to the number of scored games |
| Statistics.AverageMissing | src/components/StatisticsPage.jsx:60 | the average is missing (`N/A`) exactly when no game has a score |
| Statistics.MaxOf | src/components/StatisticsPage.jsx:61 | the largest bucket is one of the buckets and no bucket exceeds it |
| Statistics.TopGames | src/components/StatisticsPage.jsx:64-70 | the top list has min(10, n) games drawn from the input, sorted descending by score (missing = 0) or release year, and no game left out ranks above one kept |
| Statistics.TopGamesStable | src/components/StatisticsPage.jsx:64-70 | games with equal keys keep their input order, and the top list is a prefix of the stable sort |
| Statistics.ScorePass | src/components/StatisticsPage.jsx:42-58 | the `forEach` loop over an array of five counters computes exactly the buckets, the score sum and the scored count |
| Statistics.ScoreFigures | src/components/StatisticsPage.jsx:42-60 | the buckets and the average come out as specified |
| Statistics.StatusFigures | src/components/StatisticsPage.jsx:17-26 | the status tally has distinct keys and sums to the number of games; the finished count is the number of games whose status is `Finished`; finished plus backlog (unplayed + playing) never exceed the number of games; the completion rate is at most 100 |
| Statistics.ComputeStats | src/components/StatisticsPage.jsx:11-85 | no statistics exactly for an empty list (so nothing divides by zero); otherwise every figure of the specification |
| Dashboard.NextSort | src/components/DashboardPage.jsx:164-170 | a click sorts by the clicked column, descending exactly when it was already sorted ascending by it |
| Dashboard.SortClicksAlternate | src/components/DashboardPage.jsx:164-170 | consecutive clicks on one column alternate the direction, and the third click gives the first click's configuration |
| Dashboard.Order | src/components/DashboardPage.jsx:200-206 | the key comparison never throws and returns 0 exactly for equal keys |
| Dashboard.MissingDateThrows | src/components/DashboardPage.jsx:195-198 | as written, comparing a finished game with a game whose finishing date is null throws (see Findings) |
| Dashboard.NullAgainstDigitGenre | src/components/DashboardPage.jsx:195-202 | as written, a game with no genre comes before one whose genre is the digit text "3" (`null < "3"` compares 0 with 3), and ties with one whose genre is not a number |
| Dashboard.SortKeyAgrees | src/components/DashboardPage.jsx:190-207 | in the numeric columns always, and in a text column where both values are present or both are missing, the corrected key orders two games exactly as the source's comparator does |
| Dashboard.SortedGames | src/components/DashboardPage.jsx:187-210 | the rows are a permutation of the games: the original order with no sort column, otherwise ordered by the lower-cased or numeric key in the chosen direction |
| Dashboard.SortedRespectsComparator | src/components/DashboardPage.jsx:190-207 | no two sorted rows stand in an order the source's comparator would reverse |
| Dashboard.SortedGamesStable | src/components/DashboardPage.jsx:206 | rows with equal keys keep their relative order from the store |
| Dashboard.SortIndicator | src/components/DashboardPage.jsx:212-221 | an arrow shows exactly on the sorted column, upward exactly when ascending |
| Dashboard.ScoreClass | src/components/DashboardPage.jsx:113-115 | green exactly from 8, yellow exactly in [5, 8), red exactly below 5 or without a score |
| Dashboard.DashboardState.constructor | src/components/DashboardPage.jsx:139-142 | nothing selected, not editing, unsorted, no pending deletion |
| Dashboard.DashboardState.RowClick | src/components/DashboardPage.jsx:144-147 | the clicked game opens read-only (review dialog showing) |
| Dashboard.DashboardState.CloseModal | src/components/DashboardPage.jsx:149-152 | both dialogs close |
| Dashboard.DashboardState.Edit | src/components/DashboardPage.jsx:154-156 | the editor replaces the review dialog on the same game |
| Dashboard.DashboardState.CloseEditor | src/components/DashboardPage.jsx:346 | the editor closes, the selected game stays |
| Dashboard.DashboardState.Save | src/components/DashboardPage.jsx:158-162 | the edited game is passed up once and both dialogs close |
| Dashboard.DashboardState.Sort | src/components/DashboardPage.jsx:164-170 | the sort configuration advances by one click |
| Dashboard.DashboardState.DeleteClick | src/components/DashboardPage.jsx:172-174 | the game waits for confirmation |
| Dashboard.DashboardState.ConfirmDelete | src/components/DashboardPage.jsx:176-181 | a pending game's id is passed up once and cleared; with none pending nothing happens |
| Dashboard.DashboardState.CancelDelete | src/components/DashboardPage.jsx:183-185 | the pending game is cleared and nothing is passed up |
| Dashboard.ConfirmTwiceDeletesOnce | src/components/DashboardPage.jsx:176-181 | confirming twice after one delete click deletes once |
| Dashboard.GenerateData | src/components/DashboardPage.jsx:9-48 | n games; game i has id i, the base title numbered i + 1, genre and cover of base game i mod 5, status and colour of status i mod 3, and a finishing date exactly when it is finished |
| Dashboard.GeneratedColorsMatchStore | src/components/DashboardPage.jsx:17-21 | every generated colour is the colour the store gives the lower-cased status |
| RandomPicker.Pick | src/components/RandomPickerPage.jsx:34 | `games[Math.floor(Math.random() * n)]` is one of the games |
| RandomPicker.Strip | src/components/RandomPickerPage.jsx:62-65 | the strip has 80 cards, the winner at index 65, every other card a draw from the games |
| RandomPicker.GenerateStrip | src/components/RandomPickerPage.jsx:29-48 | 80 cards with the forced winner at index 65, or a drawn game from the backlog when none is forced |
| RandomPicker.StripFromBacklog | src/components/RandomPickerPage.jsx:33-41 | every card of an unforced strip is a backlog game |
| RandomPicker.TargetOffset | src/components/RandomPickerPage.jsx:72-77 | the target `-(65·216) - 100 + jitter`, jitter in [-80, 80), lies in [-14220, -14060) |
| RandomPicker.PointerOnWinner | src/components/RandomPickerPage.jsx:72-77 | the strip stops with the pointer inside the winner's card, at least 20 px from either edge |
| RandomPicker.Picker.constructor | src/components/RandomPickerPage.jsx:6-9 | idle, no winner, offset 0, and a strip generated when the backlog is not empty |
| RandomPicker.Picker.SetGames | src/components/RandomPickerPage.jsx:23-27 | a new non-empty backlog regenerates the strip and resets the offset; an empty one changes neither |
| RandomPicker.Picker.HandleSpin | src/components/RandomPickerPage.jsx:50-87 | while spinning or with no games nothing changes; otherwise winner and offset reset, a new strip with a drawn winner at 65, and the start callback becomes pending |
| RandomPicker.Picker.FireStart | src/components/RandomPickerPage.jsx:69-80 | spinning starts at the target offset and the end callback for the same winner becomes pending |
| RandomPicker.Picker.FireEnd | src/components/RandomPickerPage.jsx:82-85 | spinning stops and the winner is the one the spin drew |
| RandomPicker.Picker.CloseWinner | src/components/RandomPickerPage.jsx:200-210 | closing the winner dialog clears the winner and changes nothing else |
| RandomPicker.Spin | src/components/RandomPickerPage.jsx:50-87 | a full spin ends idle with the winner equal to card 65 of the strip and one of the games |
| RandomPicker.ClickTwiceBeforeStart | src/components/RandomPickerPage.jsx:50-87 | two clicks before the first start callback fires leave the second strip on screen with the first click's winner announced |
| GameSelection.PresentGenres | src/components/GameSelectionModal.jsx:10 | the genres kept are exactly the non-empty genres of the games |
| GameSelection.Dedupe | src/components/GameSelectionModal.jsx:11 | the `Set` keeps the same elements, each once |
| GameSelection.UniqueGenres | src/components/GameSelectionModal.jsx:9-12 | the genre pills are exactly the non-empty genres present, strictly ascending, so without repeats |
| GameSelection.FilteredGames | src/components/GameSelectionModal.jsx:14-17 | `All` shows every game in order; another genre shows, in order, exactly the games of that genre, each as many times as it occurs in the backlog |
| GameSelection.PillShowsItsGames | src/components/GameSelectionModal.jsx:9-17 | choosing a listed genre shows at least one game |
| GameSelection.SelectionState.constructor | src/components/GameSelectionModal.jsx:7 | the selection starts at `All` |
| GameSelection.SelectionState.SelectAll | src/components/GameSelectionModal.jsx:119 | the `All` pill selects `All` |
| GameSelection.SelectionState.SelectGenre | src/components/GameSelectionModal.jsx:132 | a genre pill selects its genre |
| GameSelection.SelectionState.SelectedCount | src/components/GameSelectionModal.jsx:109 | the counter is at most the number of games and equals it under `All` |
| EditGameModal.ReplaceFirstSpace | src/components/EditGameModal.jsx:25 | only the first space becomes `-`; every other character is kept |
| EditGameModal.FormStatus | src/components/EditGameModal.jsx:25 | the form status is never empty: the lower-cased status with its first space replaced, or `completed` for an empty status |
| EditGameModal.InitForm | src/components/EditGameModal.jsx:17-29 | the form copies title, genre and hours, always shows score `9.5` and the fixed placeholder review, and holds the form status |
| EditGameModal.InitStatusOfStoreStatus | src/components/EditGameModal.jsx:25 | a store status (a capitalised one-word backend status) comes back to the backend spelling in the form |
| EditGameModal.SetFieldOnly | src/components/EditGameModal.jsx:31-39 | a change sets the one named field to the value and leaves every other field as it was |
| EditGameModal.Merge | src/components/EditGameModal.jsx:41-43 | the saved game has the form's values for the form fields and the game's own values for all others |
| EditGameModal.SaveUntouched | src/components/EditGameModal.jsx:17-43 | saving an untouched form keeps the game's id, title and genre, its hours read back as the same number, and replaces the score by `9.5` and the review by the placeholder |
| EditGameModal.EditForm.constructor | src/components/EditGameModal.jsx:7-14 | the form starts with the blank defaults |
| EditGameModal.EditForm.Load | src/components/EditGameModal.jsx:17-29 | the form becomes the initialisation of the game |
| EditGameModal.EditForm.HandleChange | src/components/EditGameModal.jsx:31-39 | the field named by `name` for a radio input, by `id` otherwise, takes the value |
| EditGameModal.EditForm.Save | src/components/EditGameModal.jsx:41-43 | the game passed up takes title, genre, hours, score, status and review from the form and every other field from the game being edited |
| AuthSlice.LocalStorage.GetItem | src/App.jsx:23-24 | `getItem` finds a value exactly for a stored key |
| AuthSlice.StoredToken | src/store/slices/authSlice.js:6 | `getItem('token') || null`: present exactly when a non-empty token is stored |
| AuthSlice.AuthState.constructor | src/store/slices/authSlice.js:4-9 | nobody signed in, idle, no error, the stored token if any |
| AuthSlice.AuthState.Logout | src/store/slices/authSlice.js:25-31 | user, token and error cleared, status idle, the stored token removed |
| AuthSlice.AuthState.SetUser | src/store/slices/authSlice.js:33-35 | only the user changes |
| AuthSlice.AuthState.SetToken | src/store/slices/authSlice.js:36-43 | the token is set; a non-empty one is stored, anything else removes the stored one |
| AuthSlice.AuthState.Pending | src/store/slices/authSlice.js:48-51 | status loading, error cleared, user and token kept (login and register alike) |
| AuthSlice.AuthState.Fulfilled | src/store/slices/authSlice.js:52-59 | status succeeded and the user is the payload; token and storage change only when the payload has a token |
| AuthSlice.AuthState.Rejected | src/store/slices/authSlice.js:60-63 | status failed with the message; user and token kept |
| AuthSlice.FailedRetryKeepsSession | src/store/slices/authSlice.js:48-80 | a failed request after a successful login keeps the user and the token |
| UiSlice.UiState.constructor | src/store/slices/uiSlice.js:3-5 | the first view is the login page |
| UiSlice.UiState.SetView | src/store/slices/uiSlice.js:11-13 | the view becomes the payload |
| UiSlice.PageOf | src/App.jsx:109-115 | the six known views show their page, any other view shows nothing |
| UserCodec.ParseSerialize | src/App.jsx:30 | reading back the stored text of a user gives the same user |
| UserCodec.ParseRejectsNonUser | src/App.jsx:29-33 | text that is empty or does not start with a digit does not parse, so no user is restored from it |
| Common.ParseIntOfRendered | src/App.jsx:93 | `parseInt` of a non-negative integer's decimal text gives the integer back |
| AppShell.IntOrZero | src/App.jsx:97 | `parseInt(x) \|\| 0`: the parsed integer, or 0 when nothing parses |
| AppShell.CreatePayload | src/App.jsx:72-84 | the create body carries the title, the lower-cased status, the parsed hours, the time-to-beat or 0, and the other form values unchanged |
| AppShell.UpdatePayload | src/App.jsx:90-100 | the update body carries the edited title, lower-cased status, parsed hours, time-to-beat or 0, review, genre and cover, and no platform |
| AppShell.UntouchedEditSendsStoredValues | src/App.jsx:89-101 | saving an untouched edit sends the game's own values and its status in backend spelling |
| AppShell.RestoredUser | src/App.jsx:24-33 | without a stored user nothing is restored |
| AppShell.Shell.constructor | src/App.jsx:15-19 | the shell starts on the login page with the stored token and no user |
| AppShell.Shell.InitData | src/App.jsx:22-39 | with a stored token: token restored, user restored when it parses, dashboard shown; without one the session and view stay; games are fetched either way |
| AppShell.Shell.HandleLogin | src/App.jsx:43-56 | the token is kept and stored only when the user has one, the user is always kept and stored, games are fetched and the dashboard shows |
| AppShell.Shell.HandleLogout | src/App.jsx:58-63 | the session is cleared, both stored keys are removed and the login page shows |
| AppShell.Shell.HandleNavigate | src/App.jsx:65 | the view becomes the target |
| AppShell.Shell.HandleCreateGame | src/App.jsx:67-87 | one create request with the user's id (missing when nobody is signed in) and the create body |
| AppShell.Shell.HandleUpdateGame | src/App.jsx:89-102 | one update request for the game's id with the update body |
| AppShell.Shell.HandleDeleteGame | src/App.jsx:104-106 | one delete request for the id |
| AppShell.LoginThenReload | src/App.jsx:22-56 | logging in with a token and reloading the page signs in the same user again on the dashboard |
| AppShell.LogoutThenReload | src/App.jsx:22-63 | logging out and reloading leaves nobody signed in on the login page |

## Left out

- Network, `async` thunks and `Promise.all`: every backend call is a recorded request value or a response passed in as a parameter; `src/services/api.js` and `src/services/tierlist.js` are not part of this model. The API address is a constant starting with `http`.
- Timers: the 100 ms and 6.5 s `setTimeout` delays are not modelled; the callbacks are pending events fired by separate methods in any order the caller chooses.
- Randomness and the clock: `Math.random()` values are `Draw` inputs; in the mock-data generator the finishing date, the hours, the score and the "hours ago" figure are inputs, and the five cover addresses are passed as data.
- Drag geometry and the drag library: collision detection is the `over` input, the rectangle test of the hovered item is the `isBelow` input, and `arrayMove` is modelled with the library's convention that target -1 means the end.
- Scroll restoration, `blur`, `html2canvas` image export, `react-window` virtualisation, CSS transitions and the conic-gradient degrees: presentation only.
- Floating point: scores are `Option<real>`, already parsed; `parseFloat`, `toFixed` and `toLocaleString` are not modelled, so the score is absent from the create and update bodies; rounding and averages are exact rational arithmetic.
- Case mapping and string order are ASCII and code-point based; Unicode case folding and UTF-16 code-unit order beyond the basic plane are not modelled.
- `JSON.stringify`/`JSON.parse` of the stored user are replaced by a length-prefixed text codec with the same round trip; the stored user is assumed to have the user record's shape.
- React batching: each handler runs on the state the previous one left, so the stale `dragItems` closure read by `handleDragEnd` and the short window in which a spin has started but `isSpinning` is still false appear only as the sequential behaviour `RandomPicker.ClickTwiceBeforeStart` states.
- TierListEditor.TierBoard.constructor: requires consistent stored data (distinct row ids, a game ranked at most once, distinct library ids), which the source assumes but does not check.
- TierListEditor.DropInSameContainer: requires the dragged item and the target to resolve to the same container under the corrected resolution; the as-written id collision is covered only by the Finding. For a drop on a row's own container it states the corrected move to the end, where the source does nothing (`TierListEditor.DragEndAgrees`).
- TierListEditor.DragOverKeepsInvariant: is about the corrected step; as written, hovering a game's own row duplicates the game (`TierListEditor.DragOverOwnRowDuplicates`).
- TierListEditor.DragEndWithinContainer: is about the corrected step; as written, a drop on a row's own container (number against key string) changes nothing.
- TierListEditor.TierBoard.FindContainer: returns one key type; the two JavaScript types of the result are modelled by `TierListEditor.FindAsWritten` only.
- TierListEditor.TierBoard.DragOver: takes the corrected step; the as-written step is `TierListEditor.DragOverAsWritten`, equal to it away from a game's own row and a row numbered 0 (`TierListEditor.DragOverAgrees`).
- TierListEditor.TierBoard.DragEnd: takes the corrected step; the as-written drop is `TierListEditor.DragEndAsWritten`, equal to it under the same conditions (`TierListEditor.DragEndAgrees`); drop animation is switched off only when the target does not resolve, so a row numbered 0 is not treated as outside.
- TierListEditor.DragOverAsWritten: requires that no game id in play equals a row id; that collision is the first finding.
- Statistics.SortedGenresOrder: ties between genres follow first appearance; JavaScript lists integer-like object keys (a genre named "2024") first and in ascending order, which the model does not reproduce.
- EditGameModal.EditForm.HandleChange: requires the event to name one of the six form fields, the only inputs the dialog renders; an unknown name would add a new key in the source.
- Dashboard.CompareAsWritten: `null` against a number compares as 0, and `null` against text made of decimal digits compares 0 with that number; against any other text it ties. Other numeric-looking text (signs, decimals, exponents, surrounding blanks) is not converted as JavaScript's `<` would. Mixed text and numbers in one column are not modelled because each column has one type.
- Dashboard.SortedGames: sorts by the corrected key; it orders two rows as the source's comparator does in the numeric columns, and in a text column where both values are present or both are missing (`Dashboard.SortKeyAgrees`).
- Dashboard.SortKeyAgrees: does not cover a missing text value compared with a present one. The source does not throw for that pair: it ties, or orders `null` as 0 against digit text (`Dashboard.NullAgainstDigitGenre`), while the corrected key puts the missing value first. The other order of the pair throws (`Dashboard.MissingDateThrows`). `Dashboard.SortedRespectsComparator` still holds for such pairs.
- The `platform` field of an edited game: the edit record has none, so the update body sends none.
- Statistics: the conic-gradient and bar heights computed from the figures are presentation.
- LoginPage, RegisterPage, AdminUsersPage, Header, GameReviewModal, PlatformIcon, TierListDashboard and the store wiring are not part of this model.

## Findings

| source | as written | input that shows it | evidently intended | confidence | as-written member | corrected member |
|---|---|---|---|---|---|---|
| src/components/TierListEditor.jsx:247-250, 300-303 | `findContainer` first tests `id in dragItems`, so a game whose id equals a row id resolves to that row | a row with id 1 and game 1 in the unranked pool: dragging game 1 finds container 1, the row | resolve item ids by the container holding the item and container ids by key, in separate name spaces | not executed; depends on row and game ids sharing a range in the backend | TierListEditor.IdCollisionMisresolves | TierListEditor.TierBoard.FindContainer |
| src/components/TierListEditor.jsx:247-257, 281-291, 337 | `findContainer` returns a row's number for the hovered row but the key string for the row holding the game, and `===` tells `5` from `"5"` | drag game a out of row 5 holding `[a, b]` and hover row 5's empty area: the two containers compare unequal, both computed keys name row 5, and the row becomes `[a, b, a]` | compare containers by key, so a game hovering its own row changes nothing | not executed; the row droppable stays registered while its sorting is disabled | TierListEditor.DragOverOwnRowDuplicates | TierListEditor.DragOverKeepsInvariant |
| src/components/TierListEditor.jsx:255, 309 | the tests `!overContainer` treat the row number 0 as no container | a row with id 0: hovering it does nothing, and dropping on it returns the game to the pool | test for a missing container, not a falsy one | not executed; depends on the backend issuing a row id 0 | TierListEditor.RowZeroRefusesGames | TierListEditor.HoverMovesIntoTarget |
| src/components/DashboardPage.jsx:195-198 | when the first value is text, the second is lower-cased too, which throws for `null` | sorting by "Date Completed" with a finished game and an unplayed game whose date is `null` | compare a missing value as the empty string | not executed; depends on which pairs the engine's sort compares | Dashboard.MissingDateThrows | Dashboard.SortedGames |
