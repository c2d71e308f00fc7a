/** The dashboard table: sorting by a clicked column, the row dialogs (review, edit,
    delete confirmation) and the mock data generator. */
module Dashboard {
  import opened Common
  import opened Sorting
  import opened GamesSlice
  import opened EditGameModal

  // ---------------------------------------------------------------------------
  // Sort configuration
  // ---------------------------------------------------------------------------

  /** The six sortable columns of the table header. */
  datatype Column = TitleCol | GenreCol | DateFinishedCol | StatusCol | HoursCol | ScoreCol

  datatype Direction = Asc | Desc

  datatype SortConfig = SortConfig(key: Option<Column>, direction: Direction)

  const UnsortedConfig: SortConfig := SortConfig(None, Asc)

  /** `handleSort`: a click sorts by the column, descending only when the table was
      already sorted ascending by that same column. */
  function NextSort(c: SortConfig, k: Column): (r: SortConfig)
    ensures r.key == Some(k)
    ensures r.direction == Desc <==> c == SortConfig(Some(k), Asc)
  {
    if c.key == Some(k) && c.direction == Asc then SortConfig(Some(k), Desc)
    else SortConfig(Some(k), Asc)
  }

  /** Repeated clicks on one column alternate the direction; the third click repeats the first. */
  lemma SortClicksAlternate(c: SortConfig, k: Column)
    ensures NextSort(NextSort(c, k), k).direction != NextSort(c, k).direction
    ensures NextSort(NextSort(NextSort(c, k), k), k) == NextSort(c, k)
  {
  }

  // ---------------------------------------------------------------------------
  // Cell values and the comparator
  // ---------------------------------------------------------------------------

  predicate IsTextColumn(k: Column) {
    k == TitleCol || k == GenreCol || k == DateFinishedCol || k == StatusCol
  }

  /** `game[key]` in a text column; `None` is `null`. */
  function TextValue(g: Game, k: Column): Option<string> {
    match k
    case TitleCol => Some(g.title)
    case GenreCol => g.genre
    case DateFinishedCol => g.dateFinished
    case StatusCol => Some(g.status)
    case _ => None
  }

  /** `game[key]` in a numeric column; `None` is `null`. */
  function NumValue(g: Game, k: Column): Option<real> {
    match k
    case HoursCol => if g.hours.Some? then Some(g.hours.value as real) else None
    case ScoreCol => g.score
    case _ => None
  }

  /** What the comparator returns: a negative, positive or zero number, or a thrown error. */
  datatype Comparison = Before | After | Tie | TypeError

  function Order(x: Key, y: Key, dir: Direction): (c: Comparison)
    ensures c != TypeError
    ensures c == Tie <==> x == y
  {
    KeyLessOrder(x, y, x);
    if KeyLess(x, y) then (if dir == Asc then Before else After)
    else if KeyLess(y, x) then (if dir == Asc then After else Before)
    else Tie
  }

  /** Text made of decimal digits only, which `<` and `>` turn into that number when the
      other operand is `null`. */
  predicate DigitText(s: string) {
    s != [] && forall i :: 0 <= i < |s| ==> IsDigit(s[i])
  }

  /** The comparator as written: text is lower-cased before `<` and `>`, which throws
      when the first value is text and the second is `null`; `null` against a number
      compares as 0, `null` against digit text compares 0 with that number, and `null`
      against other text compares neither smaller nor larger. */
  function CompareAsWritten(a: Game, b: Game, k: Column, dir: Direction): Comparison {
    if IsTextColumn(k) then
      match (TextValue(a, k), TextValue(b, k))
      case (Some(x), Some(y)) => Order(Str(Lower(x)), Str(Lower(y)), dir)
      case (Some(_), None) => TypeError
      case (None, Some(y)) => if DigitText(y) then Order(Num(0.0), Num(DigitsValue(y) as real), dir) else Tie
      case (None, None) => Tie
    else
      Order(Num(NumValue(a, k).GetOr(0.0)), Num(NumValue(b, k).GetOr(0.0)), dir)
  }

  /** A finished game against an unplayed one in the "Date Completed" column: the
      comparator calls `toLowerCase` on the unplayed game's `null` date. */
  lemma MissingDateThrows()
    ensures var finished := Game(1, "Hades", Some("Roguelike"), None, "Recently", "Finished", "bg-primary",
                                 Some(40), Some("2024-01-15"), Some(9.5), None, None, None, []);
            var unplayed := finished.(id := 2, status := "Unplayed", statusColor := "bg-slate-500",
                                      dateFinished := None);
            CompareAsWritten(finished, unplayed, DateFinishedCol, Asc) == TypeError
  {
  }

  /** A game without a genre against one whose genre is the text "3": `null < "3"` compares
      0 with 3, so the genre-less game comes first in ascending order; against a genre that
      is not a number the two tie. */
  lemma NullAgainstDigitGenre()
    ensures var a := Game(1, "Hades", None, None, "Recently", "Finished", "bg-primary",
                          Some(40), Some("2024-01-15"), Some(9.5), None, None, None, []);
            var b := a.(id := 2, genre := Some("3"));
            var c := a.(id := 3, genre := Some("RPG"));
            && CompareAsWritten(a, b, GenreCol, Asc) == Before
            && CompareAsWritten(a, c, GenreCol, Asc) == Tie
  {
    assert DigitsValue("3") == 3 by {
      assert "3"[..0] == [];
    }
  }

  /** The sort key of the corrected comparator: lower-cased text, a missing text as the
      empty string, a missing number as 0. */
  function SortKey(k: Column): Game -> Key {
    (g: Game) =>
      if IsTextColumn(k) then Str(Lower(TextValue(g, k).GetOr("")))
      else Num(NumValue(g, k).GetOr(0.0))
  }

  /** In the numeric columns always, and in a text column where both values are present
      or both are missing, the corrected key orders two games exactly as the comparator as
      written does. */
  lemma SortKeyAgrees(a: Game, b: Game, k: Column, dir: Direction)
    requires IsTextColumn(k) ==> TextValue(a, k).Some? == TextValue(b, k).Some?
    ensures CompareAsWritten(a, b, k, dir) == Order(SortKey(k)(a), SortKey(k)(b), dir)
  {
  }

  /** The rows in display order: a copy of the games when no column is chosen, otherwise
      a stable sort by the chosen column in the chosen direction. */
  function SortedGames(games: seq<Game>, c: SortConfig): (r: seq<Game>)
    ensures multiset(r) == multiset(games)
    ensures c.key.None? ==> r == games
    ensures c.key.Some? ==> Sorted(r, SortKey(c.key.value), c.direction == Desc)
  {
    if c.key.None? then games else SortBy(games, SortKey(c.key.value), c.direction == Desc)
  }

  /** No two rows of the sorted table are in an order the comparator would reverse. */
  lemma SortedRespectsComparator(games: seq<Game>, c: SortConfig, i: int, j: int)
    requires c.key.Some?
    requires 0 <= i < j < |SortedGames(games, c)|
    ensures var r := SortedGames(games, c);
            CompareAsWritten(r[i], r[j], c.key.value, c.direction) != After
  {
    var r := SortedGames(games, c);
    var k := c.key.value;
    var key := SortKey(k);
    assert InOrder(key(r[i]), key(r[j]), c.direction == Desc);
    if !IsTextColumn(k) || TextValue(r[i], k).Some? == TextValue(r[j], k).Some? {
      SortKeyAgrees(r[i], r[j], k, c.direction);
    }
  }

  /** Rows with equal keys keep the order they had in the store. */
  lemma SortedGamesStable(games: seq<Game>, c: SortConfig, v: Key)
    requires c.key.Some?
    ensures WithKey(SortedGames(games, c), SortKey(c.key.value), v) == WithKey(games, SortKey(c.key.value), v)
  {
    SortByStable(games, SortKey(c.key.value), c.direction == Desc, v);
  }

  /** Arrow shown next to the header of the sorted column. */
  function SortIndicator(c: SortConfig, k: Column): (r: Option<string>)
    ensures r.Some? <==> c.key == Some(k)
    ensures r.Some? ==> (r.value == "arrow_upward" <==> c.direction == Asc)
  {
    if c.key == Some(k) then Some(if c.direction == Asc then "arrow_upward" else "arrow_downward")
    else None
  }

  /** Colour of the score cell: `parseFloat(score)` of 8 or more is green, of 5 or more
      yellow, anything else (a missing score reads as `NaN`) red. */
  function ScoreClass(score: Option<real>): (r: string)
    ensures r == "text-emerald-500" <==> score.Some? && score.value >= 8.0
    ensures r == "text-yellow-500" <==> score.Some? && 5.0 <= score.value < 8.0
    ensures r == "text-red-500" <==> score.None? || score.value < 5.0
  {
    if score.Some? && score.value >= 8.0 then "text-emerald-500"
    else if score.Some? && score.value >= 5.0 then "text-yellow-500"
    else "text-red-500"
  }

  // ---------------------------------------------------------------------------
  // Page state
  // ---------------------------------------------------------------------------

  class DashboardState {
    var selectedGame: Option<Game>
    var isEditing: bool
    var sortConfig: SortConfig
    var gameToDelete: Option<Game>
    /** Ids passed to `onDeleteGame`, in call order. */
    var deleteRequests: seq<int>
    /** Games passed to `onUpdateGame`, in call order. */
    var updateRequests: seq<EditedGame>

    constructor ()
      ensures selectedGame == None && !isEditing && sortConfig == UnsortedConfig
      ensures gameToDelete == None && deleteRequests == [] && updateRequests == []
    {
      selectedGame := None;
      isEditing := false;
      sortConfig := UnsortedConfig;
      gameToDelete := None;
      deleteRequests := [];
      updateRequests := [];
    }

    /** The table rows for the store's games. */
    function Rows(games: seq<Game>): seq<Game>
      reads this
    {
      SortedGames(games, sortConfig)
    }

    /** The review dialog shows when a game is selected and the editor is closed. */
    predicate ReviewOpen()
      reads this
    {
      !isEditing && selectedGame.Some?
    }

    /** `handleRowClick`: open the review dialog on the game. */
    method RowClick(g: Game)
      modifies this
      ensures selectedGame == Some(g) && !isEditing && ReviewOpen()
      ensures sortConfig == old(sortConfig) && gameToDelete == old(gameToDelete)
      ensures deleteRequests == old(deleteRequests) && updateRequests == old(updateRequests)
    {
      selectedGame := Some(g);
      isEditing := false;
    }

    /** `handleCloseModal`. */
    method CloseModal()
      modifies this
      ensures selectedGame == None && !isEditing && !ReviewOpen()
      ensures sortConfig == old(sortConfig) && gameToDelete == old(gameToDelete)
      ensures deleteRequests == old(deleteRequests) && updateRequests == old(updateRequests)
    {
      selectedGame := None;
      isEditing := false;
    }

    /** `handleEdit`: the review dialog gives way to the editor on the same game. */
    method Edit()
      modifies this
      ensures isEditing && !ReviewOpen() && selectedGame == old(selectedGame)
      ensures sortConfig == old(sortConfig) && gameToDelete == old(gameToDelete)
      ensures deleteRequests == old(deleteRequests) && updateRequests == old(updateRequests)
    {
      isEditing := true;
    }

    /** The editor's own close button. */
    method CloseEditor()
      modifies this
      ensures !isEditing && selectedGame == old(selectedGame)
      ensures sortConfig == old(sortConfig) && gameToDelete == old(gameToDelete)
      ensures deleteRequests == old(deleteRequests) && updateRequests == old(updateRequests)
    {
      isEditing := false;
    }

    /** `handleSave`: pass the edited game up and close every dialog. */
    method Save(updated: EditedGame)
      modifies this
      ensures updateRequests == old(updateRequests) + [updated]
      ensures selectedGame == None && !isEditing
      ensures sortConfig == old(sortConfig) && gameToDelete == old(gameToDelete)
      ensures deleteRequests == old(deleteRequests)
    {
      updateRequests := updateRequests + [updated];
      selectedGame := None;
      isEditing := false;
    }

    /** `handleSort`. */
    method Sort(k: Column)
      modifies this
      ensures sortConfig == NextSort(old(sortConfig), k)
      ensures selectedGame == old(selectedGame) && isEditing == old(isEditing)
      ensures gameToDelete == old(gameToDelete)
      ensures deleteRequests == old(deleteRequests) && updateRequests == old(updateRequests)
    {
      sortConfig := NextSort(sortConfig, k);
    }

    /** `handleDeleteClick`: ask for confirmation. */
    method DeleteClick(g: Game)
      modifies this
      ensures gameToDelete == Some(g)
      ensures selectedGame == old(selectedGame) && isEditing == old(isEditing)
      ensures sortConfig == old(sortConfig)
      ensures deleteRequests == old(deleteRequests) && updateRequests == old(updateRequests)
    {
      gameToDelete := Some(g);
    }

    /** `confirmDelete`: a pending game's id is passed up once; without one nothing happens. */
    method ConfirmDelete()
      modifies this
      ensures gameToDelete == None
      ensures deleteRequests == old(deleteRequests) +
                (if old(gameToDelete).Some? then [old(gameToDelete).value.id] else [])
      ensures selectedGame == old(selectedGame) && isEditing == old(isEditing)
      ensures sortConfig == old(sortConfig) && updateRequests == old(updateRequests)
    {
      if gameToDelete.Some? {
        deleteRequests := deleteRequests + [gameToDelete.value.id];
        gameToDelete := None;
      }
    }

    /** `cancelDelete`. */
    method CancelDelete()
      modifies this
      ensures gameToDelete == None && deleteRequests == old(deleteRequests)
      ensures selectedGame == old(selectedGame) && isEditing == old(isEditing)
      ensures sortConfig == old(sortConfig) && updateRequests == old(updateRequests)
    {
      gameToDelete := None;
    }
  }

  /** Confirming twice deletes once. */
  method ConfirmTwiceDeletesOnce(d: DashboardState, g: Game)
    modifies d
    ensures d.deleteRequests == old(d.deleteRequests) + [g.id]
  {
    d.DeleteClick(g);
    d.ConfirmDelete();
    d.ConfirmDelete();
  }

  // ---------------------------------------------------------------------------
  // Mock data
  // ---------------------------------------------------------------------------

  /** The random and clock-dependent values one generated game draws: the ISO date of
      finishing (used only for finished games), the hours since last played, the hours
      played and the score. */
  datatype MockDraw = MockDraw(finishedOn: string, hoursAgo: nat, hours: nat, score: real)

  const BaseTitles: seq<string> := ["Elden Ring", "Baldur's Gate 3", "Cyberpunk 2077", "Hades", "Stardew Valley"]
  const BaseGenres: seq<string> := ["Action RPG", "CRPG", "Open World", "Roguelike", "Simulation"]
  const MockStatuses: seq<string> := ["Playing", "Finished", "Unplayed"]
  const MockColors: seq<string> := ["bg-violet-500", "bg-primary", "bg-slate-500"]

  function MockGame(i: nat, covers: seq<string>, d: MockDraw): Game
    requires |covers| == 5
  {
    var status := MockStatuses[i % 3];
    Game(i, BaseTitles[i % 5] + " " + NatToString(i + 1), Some(BaseGenres[i % 5]), Some(covers[i % 5]),
         NatToString(d.hoursAgo) + " hours ago", status, MockColors[i % 3], Some(d.hours),
         if status == "Finished" then Some(d.finishedOn) else None, Some(d.score), None, None, None, [])
  }

  /** `generateData(count)`: game `i` takes its title, genre and cover from the five
      base games in turn, numbered `i + 1`, and its status from the three statuses in
      turn; only finished games have a finishing date. The five cover addresses are data. */
  function GenerateData(count: nat, covers: seq<string>, draws: seq<MockDraw>): (r: seq<Game>)
    requires |covers| == 5 && |draws| == count
    ensures |r| == count
    ensures forall i :: 0 <= i < count ==>
      && r[i].id == i
      && r[i].title == BaseTitles[i % 5] + " " + NatToString(i + 1)
      && r[i].genre == Some(BaseGenres[i % 5]) && r[i].cover == Some(covers[i % 5])
      && r[i].status == MockStatuses[i % 3] && r[i].statusColor == MockColors[i % 3]
      && (r[i].dateFinished.Some? <==> i % 3 == 1)
      && r[i].lastPlayed == NatToString(draws[i].hoursAgo) + " hours ago"
  {
    seq(count, i requires 0 <= i < count => MockGame(i, covers, draws[i]))
  }

  /** Every generated game's badge colour is the one the store gives its status. */
  lemma GeneratedColorsMatchStore(count: nat, covers: seq<string>, draws: seq<MockDraw>, i: nat)
    requires |covers| == 5 && |draws| == count && i < count
    ensures var g := GenerateData(count, covers, draws)[i];
            g.statusColor == StatusColor(Lower(g.status))
  {
    var g := GenerateData(count, covers, draws)[i];
    if i % 3 == 0 {
      assert Lower("Playing") == "playing";
    } else if i % 3 == 1 {
      assert Lower("Finished") == "finished";
    } else {
      assert Lower("Unplayed") != "playing" && Lower("Unplayed") != "finished";
    }
  }
}
