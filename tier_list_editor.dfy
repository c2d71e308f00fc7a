/** The tier-list reorder engine of the tier-list editor page: a map from container
    (one per tier row, plus the unranked pool) to the ordered games it holds, built from
    the loaded tier list and library, changed by the drag handlers, and serialised back
    into rows of `{game_id, sort_order}` on save. */
module TierListEditor {
  import opened Common

  /** A game of the user's library, as the editor loads it. */
  datatype Game = Game(id: int, title: string, status: string)

  datatype TierItem = TierItem(game: Game, sortOrder: int)
  datatype TierRow = TierRow(id: int, tierLabel: string, color: string, sortOrder: int, items: seq<TierItem>)
  datatype TierList = TierList(id: int, name: string, createdAt: string, rows: seq<TierRow>)

  /** A game placed in a container, carrying the identity the drag library tracks. */
  datatype DragGame = DragGame(game: Game, dragId: int)

  /** A container: a tier row (by row id) or the reserved `'unranked'` pool. */
  datatype ContainerKey = RowKey(rowId: int) | UnrankedKey

  type Containers = map<ContainerKey, seq<DragGame>>

  /** What the drag library reports under the pointer: a container or a game item. */
  datatype DndId = ContainerId(key: ContainerKey) | ItemId(dragId: int)

  datatype SavedItem = SavedItem(gameId: int, sortOrder: nat)
  datatype SavedRow = SavedRow(id: int, tierLabel: string, color: string, sortOrder: int, items: seq<SavedItem>)
  datatype SavedTierList = SavedTierList(id: int, name: string, createdAt: string, rows: seq<SavedRow>)

  // ---------------------------------------------------------------------------
  // Identities of the games in a container
  // ---------------------------------------------------------------------------

  function Ids(s: seq<DragGame>): set<int> {
    set g | g in s :: g.dragId
  }

  ghost predicate DistinctIds(s: seq<DragGame>) {
    forall i, j :: 0 <= i < j < |s| ==> s[i].dragId != s[j].dragId
  }

  /** No game sits twice in one container, and no game sits in two containers. */
  ghost predicate NoDuplicates(m: Containers) {
    && (forall k :: k in m ==> DistinctIds(m[k]))
    && (forall k1, k2 :: k1 in m && k2 in m && k1 != k2 ==> Ids(m[k1]) !! Ids(m[k2]))
  }

  /** `findIndex(i => i.dragId === x)`. */
  function IndexOfId(s: seq<DragGame>, x: int): (i: int)
    ensures -1 <= i < |s|
    ensures i >= 0 ==> s[i].dragId == x && forall j :: 0 <= j < i ==> s[j].dragId != x
    ensures i == -1 <==> x !in Ids(s)
    decreases |s|
  {
    if s == [] then -1
    else if s[0].dragId == x then 0
    else
      var i := IndexOfId(s[1..], x);
      assert Ids(s) == {s[0].dragId} + Ids(s[1..]) by {
        assert s == [s[0]] + s[1..];
      }
      if i < 0 then -1 else i + 1
  }

  function NotId(x: int): DragGame -> bool {
    (g: DragGame) => g.dragId != x
  }

  /** `filter(i => i.dragId !== x)`. */
  function RemoveId(s: seq<DragGame>, x: int): seq<DragGame> {
    Filter(s, NotId(x))
  }

  /** `[...s.slice(0, idx), g, ...s.slice(idx, s.length)]`; `slice` clamps an index past the end. */
  function InsertAt(s: seq<DragGame>, idx: nat, g: DragGame): (r: seq<DragGame>)
    ensures |r| == |s| + 1
  {
    var at := if idx <= |s| then idx else |s|;
    s[..at] + [g] + s[at..]
  }

  // ---------------------------------------------------------------------------
  // Loading: the `init` effect
  // ---------------------------------------------------------------------------

  function Draggable(g: Game): DragGame {
    DragGame(g, g.id)
  }

  function RowGames(items: seq<TierItem>): seq<DragGame> {
    seq(|items|, i requires 0 <= i < |items| => Draggable(items[i].game))
  }

  function GamesOf(s: seq<DragGame>): seq<Game> {
    seq(|s|, i requires 0 <= i < |s| => s[i].game)
  }

  /** Ids of every game placed in some row. */
  function RankedIds(rows: seq<TierRow>): set<int> {
    set r, it | r in rows && it in r.items :: it.game.id
  }

  /** One container per row, assigned in row order. */
  function RowContainers(rows: seq<TierRow>): Containers
    decreases |rows|
  {
    if rows == [] then map[]
    else
      var last := rows[|rows| - 1];
      RowContainers(rows[..|rows| - 1])[RowKey(last.id) := RowGames(last.items)]
  }

  function NotRanked(ranked: set<int>): Game -> bool {
    (g: Game) => g.id !in ranked
  }

  /** The unranked pool: library games that no row holds, in library order. */
  function UnrankedPool(library: seq<Game>, ranked: set<int>): seq<DragGame> {
    var kept := Filter(library, NotRanked(ranked));
    seq(|kept|, i requires 0 <= i < |kept| => Draggable(kept[i]))
  }

  function Init(list: TierList, library: seq<Game>): Containers {
    RowContainers(list.rows)[UnrankedKey := UnrankedPool(library, RankedIds(list.rows))]
  }

  ghost predicate DistinctRowIds(rows: seq<TierRow>) {
    forall i, j :: 0 <= i < j < |rows| ==> rows[i].id != rows[j].id
  }

  /** The loaded data places each game at most once and the library has distinct ids. */
  ghost predicate Consistent(list: TierList, library: seq<Game>) {
    && DistinctRowIds(list.rows)
    && (forall i1, j1, i2, j2 ::
          0 <= i1 < |list.rows| && 0 <= j1 < |list.rows[i1].items| &&
          0 <= i2 < |list.rows| && 0 <= j2 < |list.rows[i2].items| &&
          (i1 != i2 || j1 != j2)
          ==> list.rows[i1].items[j1].game.id != list.rows[i2].items[j2].game.id)
    && DistinctGameIds(library)
  }

  lemma {:induction false} RowContainersContents(rows: seq<TierRow>)
    requires DistinctRowIds(rows)
    ensures RowContainers(rows).Keys == set r | r in rows :: RowKey(r.id)
    ensures forall i :: 0 <= i < |rows| ==> RowContainers(rows)[RowKey(rows[i].id)] == RowGames(rows[i].items)
    decreases |rows|
  {
    if rows != [] {
      var init := rows[..|rows| - 1];
      RowContainersContents(init);
      SplitLast(rows);
      assert forall r :: r in rows <==> r in init || r == rows[|rows| - 1];
    }
  }

  /** After loading, each row's container holds that row's games in stored order with
      `dragId` equal to the game id, and the pool holds exactly the library games that no
      row holds, in library order. */
  lemma InitContents(list: TierList, library: seq<Game>)
    requires DistinctRowIds(list.rows)
    ensures Init(list, library).Keys == (set r | r in list.rows :: RowKey(r.id)) + {UnrankedKey}
    ensures forall i :: 0 <= i < |list.rows| ==>
              GamesOf(Init(list, library)[RowKey(list.rows[i].id)]) == seq(|list.rows[i].items|, j requires 0 <= j < |list.rows[i].items| => list.rows[i].items[j].game)
    ensures forall k, i :: k in Init(list, library) && 0 <= i < |Init(list, library)[k]| ==>
              Init(list, library)[k][i].dragId == Init(list, library)[k][i].game.id
    ensures GamesOf(Init(list, library)[UnrankedKey]) == Filter(library, NotRanked(RankedIds(list.rows)))
  {
    RowContainersContents(list.rows);
    var m: Containers := Init(list, library);
    forall k: ContainerKey, i: int | k in m && 0 <= i < |m[k]| ensures m[k][i].dragId == m[k][i].game.id {
      if k.RowKey? {
        var r :| r in list.rows && RowKey(r.id) == k;
        var n :| 0 <= n < |list.rows| && list.rows[n] == r;
      }
    }
  }

  ghost predicate DistinctGameIds(s: seq<Game>) {
    forall i, j :: 0 <= i < j < |s| ==> s[i].id != s[j].id
  }

  lemma FilteredLibraryDistinct(library: seq<Game>, p: Game -> bool)
    requires DistinctGameIds(library)
    ensures DistinctGameIds(Filter(library, p))
    decreases |library|
  {
    if library != [] {
      FilteredLibraryDistinct(library[1..], p);
      var rest := Filter(library[1..], p);
      forall i | 0 <= i < |rest| ensures rest[i].id != library[0].id {
        assert rest[i] in library[1..];
      }
    }
  }

  /** The identities in a row's container are the ids of the row's games. */
  lemma RowGamesIds(rows: seq<TierRow>, n: nat, x: int)
    requires n < |rows| && x in Ids(RowGames(rows[n].items))
    ensures exists j :: 0 <= j < |rows[n].items| && rows[n].items[j].game.id == x
    ensures x in RankedIds(rows)
  {
    var r := RowGames(rows[n].items);
    var g: DragGame :| g in r && g.dragId == x;
    var j :| 0 <= j < |r| && r[j] == g;
    assert rows[n] in rows && rows[n].items[j] in rows[n].items;
  }

  lemma RowGamesDistinct(list: TierList, library: seq<Game>, n: nat)
    requires Consistent(list, library) && n < |list.rows|
    ensures DistinctIds(RowGames(list.rows[n].items))
  {
  }

  lemma RowsDisjoint(list: TierList, library: seq<Game>, n1: nat, n2: nat)
    requires Consistent(list, library) && n1 < |list.rows| && n2 < |list.rows| && n1 != n2
    ensures Ids(RowGames(list.rows[n1].items)) !! Ids(RowGames(list.rows[n2].items))
  {
    var rows := list.rows;
    forall x | x in Ids(RowGames(rows[n1].items)) ensures x !in Ids(RowGames(rows[n2].items)) {
      RowGamesIds(rows, n1, x);
      var j1 :| 0 <= j1 < |rows[n1].items| && rows[n1].items[j1].game.id == x;
      var r2 := RowGames(rows[n2].items);
      forall g | g in r2 ensures g.dragId != x {
        var j2 :| 0 <= j2 < |r2| && r2[j2] == g;
        assert g.dragId == rows[n2].items[j2].game.id;
      }
    }
  }

  lemma PoolFacts(library: seq<Game>, ranked: set<int>)
    requires DistinctGameIds(library)
    ensures DistinctIds(UnrankedPool(library, ranked))
    ensures Ids(UnrankedPool(library, ranked)) !! ranked
  {
    FilteredLibraryDistinct(library, NotRanked(ranked));
    var kept := Filter(library, NotRanked(ranked));
    var pool := UnrankedPool(library, ranked);
    assert |pool| == |kept|;
    forall i, j | 0 <= i < j < |pool| ensures pool[i].dragId != pool[j].dragId {
      assert pool[i].dragId == kept[i].id && pool[j].dragId == kept[j].id;
      assert kept[i].id != kept[j].id;
    }
    forall x | x in Ids(pool) ensures x !in ranked {
      var g: DragGame :| g in pool && g.dragId == x;
      var j :| 0 <= j < |pool| && pool[j] == g;
      assert NotRanked(ranked)(kept[j]);
    }
  }

  /** Loading consistent data gives a board where no game is in two places. */
  lemma InitNoDuplicates(list: TierList, library: seq<Game>)
    requires Consistent(list, library)
    ensures NoDuplicates(Init(list, library)) && UnrankedKey in Init(list, library)
  {
    var rows := list.rows;
    var ranked := RankedIds(rows);
    var pool := UnrankedPool(library, ranked);
    var m: Containers := Init(list, library);
    RowContainersContents(rows);
    PoolFacts(library, ranked);
    forall k | k in m ensures DistinctIds(m[k]) {
      if k.RowKey? {
        var n :| 0 <= n < |rows| && RowKey(rows[n].id) == k;
        RowGamesDistinct(list, library, n);
      }
    }
    forall k1, k2 | k1 in m && k2 in m && k1 != k2 ensures Ids(m[k1]) !! Ids(m[k2]) {
      if k1.RowKey? && k2.RowKey? {
        var n1 :| 0 <= n1 < |rows| && RowKey(rows[n1].id) == k1;
        var n2 :| 0 <= n2 < |rows| && RowKey(rows[n2].id) == k2;
        RowsDisjoint(list, library, n1, n2);
      } else {
        var k := if k1.RowKey? then k1 else k2;
        var n :| 0 <= n < |rows| && RowKey(rows[n].id) == k;
        forall x | x in Ids(m[k]) ensures x in ranked {
          RowGamesIds(rows, n, x);
        }
      }
    }
  }

  // ---------------------------------------------------------------------------
  // Resolving the container of a drag identity (`findContainer`)
  // ---------------------------------------------------------------------------

  /** The container holding a game with this identity, if any. */
  ghost function Holder(m: Containers, x: int): Option<ContainerKey> {
    if exists k :: k in m && x in Ids(m[k]) then Some(var k :| k in m && x in Ids(m[k]); k) else None
  }

  lemma HolderUnique(m: Containers, x: int, k: ContainerKey)
    requires NoDuplicates(m) && k in m && x in Ids(m[k])
    ensures Holder(m, x) == Some(k)
  {
    var h := Holder(m, x);
    assert h.Some? && h.value in m && x in Ids(m[h.value]);
  }

  /** `findContainer(id)`: a container resolves to itself, an item to the container holding it. */
  ghost function Resolve(m: Containers, t: DndId): Option<ContainerKey> {
    match t
    case ContainerId(k) => if k in m then Some(k) else None
    case ItemId(x) => Holder(m, x)
  }

  /** A pool game whose id equals a row id resolves, as written, to that row (the
      container check `id in dragItems` comes first) and not to the pool that holds it. */
  lemma IdCollisionMisresolves()
    ensures var g := Game(1, "Hades", "finished");
            var m := map[RowKey(1) := [], UnrankedKey := [DragGame(g, 1)]];
            FindAsWritten(m, ItemId(1)) == Some(Given(RowKey(1))) && Resolve(m, ItemId(1)) == Some(UnrankedKey)
  {
    var g := Game(1, "Hades", "finished");
    var m := map[RowKey(1) := [], UnrankedKey := [DragGame(g, 1)]];
    assert Ids(m[UnrankedKey]) == {1};
    assert Ids(m[RowKey(1)]) == {};
    HolderUnique(m, 1, UnrankedKey);
  }

  // ---------------------------------------------------------------------------
  // Transitions
  // ---------------------------------------------------------------------------

  /** Index at which `handleDragOver` inserts into the destination. */
  function InsertIndex(over: DndId, overIndex: int, len: nat, isBelow: bool): nat {
    match over
    case ContainerId(_) => len + 1
    case ItemId(_) => if overIndex >= 0 then overIndex + (if isBelow then 1 else 0) else len + 1
  }

  function OverIndex(s: seq<DragGame>, over: DndId): int {
    match over
    case ContainerId(_) => -1
    case ItemId(y) => IndexOfId(s, y)
  }

  /** Move the game `x` out of `from` and into `to` at `idx`. */
  function MoveAcross(m: Containers, from: ContainerKey, to: ContainerKey, x: int, idx: nat): Containers
    requires from in m && to in m && x in Ids(m[from])
  {
    var g := m[from][IndexOfId(m[from], x)];
    m[from := RemoveId(m[from], x)][to := InsertAt(m[to], idx, g)]
  }

  /** The new map after `handleDragOver`. */
  ghost function DragOverNext(m: Containers, activeId: int, over: Option<DndId>, isBelow: bool): Containers
    requires NoDuplicates(m)
  {
    if over.None? then m
    else
      var ac := Resolve(m, ItemId(activeId));
      var oc := Resolve(m, over.value);
      if ac.None? || oc.None? || ac.value == oc.value then m
      else
        var overIndex := OverIndex(m[oc.value], over.value);
        MoveAcross(m, ac.value, oc.value, activeId, InsertIndex(over.value, overIndex, |m[oc.value]|, isBelow))
  }

  /** `arrayMove(s, from, to)`: take out `s[from]` and put it back at `to`, where a
      negative `to` counts from the end of `s` (the drag library's convention). */
  function ArrayMove(s: seq<DragGame>, from: nat, to: int): (r: seq<DragGame>)
    requires from < |s| && -1 <= to < |s|
    ensures |r| == |s|
  {
    var rest := s[..from] + s[from + 1..];
    var at := if to < 0 then |s| + to else to;
    rest[..at] + [s[from]] + rest[at..]
  }

  /** A drop outside every target sends the game from its row to the end of the pool. */
  function ReturnToPool(m: Containers, from: ContainerKey, x: int): Containers
    requires from in m && UnrankedKey in m && x in Ids(m[from])
  {
    var g := m[from][IndexOfId(m[from], x)];
    m[from := RemoveId(m[from], x)][UnrankedKey := m[UnrankedKey] + [g]]
  }

  /** The new map after `handleDragEnd`. */
  ghost function DragEndNext(m: Containers, activeId: int, over: Option<DndId>): Containers
    requires NoDuplicates(m) && UnrankedKey in m
  {
    var ac := Resolve(m, ItemId(activeId));
    var oc := if over.None? then None else Resolve(m, over.value);
    if oc.None? then
      if ac.Some? && ac.value != UnrankedKey then ReturnToPool(m, ac.value, activeId) else m
    else if ac.Some? && ac.value == oc.value then
      var s := m[ac.value];
      var ai := IndexOfId(s, activeId);
      var oi := OverIndex(s, over.value);
      if ai != oi then m[ac.value := ArrayMove(s, ai, oi)] else m
    else m
  }

  // ---------------------------------------------------------------------------
  // The two key types of `findContainer`, as written
  // ---------------------------------------------------------------------------

  /** What `findContainer` returns, as a JavaScript value. A hovered id that is itself a
      key (`id in dragItems`) comes back as given: a row's droppable id is the row's number,
      the pool's is the string `'unranked'`. A container found by searching for the game
      comes back as a key of `Object.keys`, which is always a string. */
  datatype FoundKey = Given(key: ContainerKey) | Searched(key: ContainerKey)

  /** `a === b`: a row's number never equals a string, even the row's own key `"5"`. */
  predicate StrictEquals(a: FoundKey, b: FoundKey) {
    a.key == b.key && (a.key == UnrankedKey || a.Given? == b.Given?)
  }

  /** Truthiness of a found key: only the number 0 is falsy; every key string is non-empty. */
  predicate FoundTruthy(f: FoundKey) {
    !(f.Given? && f.key == RowKey(0))
  }

  /** Neither the dragged game nor a hovered game has an id that is also a row id, so
      `findContainer` finds both by searching (the other case is `IdCollisionMisresolves`). */
  predicate IdsApart(m: Containers, activeId: int, over: Option<DndId>) {
    && RowKey(activeId) !in m
    && (over.Some? && over.value.ItemId? ==> RowKey(over.value.dragId) !in m)
  }

  /** `findContainer(id)` with the type of what it returns. */
  ghost function FindAsWritten(m: Containers, t: DndId): (r: Option<FoundKey>)
    ensures r.Some? ==> r.value.key in m
    ensures r.Some? && r.value.Searched? ==> t.ItemId? && t.dragId in Ids(m[r.value.key])
  {
    match t
    case ContainerId(k) => if k in m then Some(Given(k)) else None
    case ItemId(x) =>
      if RowKey(x) in m then Some(Given(RowKey(x)))
      else if Holder(m, x).Some? then Some(Searched(Holder(m, x).value))
      else None
  }

  /** The new map after `handleDragOver` as written: the containers are compared with `===`
      and tested for truthiness, and the two computed keys of the new object name the same
      property when both containers are the same row, the later one winning. */
  ghost function DragOverAsWritten(m: Containers, activeId: int, over: Option<DndId>, isBelow: bool): Containers
    requires IdsApart(m, activeId, over)
  {
    if over.None? then m
    else
      var ac := FindAsWritten(m, ItemId(activeId));
      var oc := FindAsWritten(m, over.value);
      if ac.None? || oc.None? || !FoundTruthy(ac.value) || !FoundTruthy(oc.value) || StrictEquals(ac.value, oc.value) then m
      else
        var to := oc.value.key;
        MoveAcross(m, ac.value.key, to, activeId, InsertIndex(over.value, OverIndex(m[to], over.value), |m[to]|, isBelow))
  }

  /** The new map after `handleDragEnd` as written. */
  ghost function DragEndAsWritten(m: Containers, activeId: int, over: Option<DndId>): Containers
    requires UnrankedKey in m && IdsApart(m, activeId, over)
  {
    var ac := FindAsWritten(m, ItemId(activeId));
    var oc := if over.None? then None else FindAsWritten(m, over.value);
    if oc.None? || !FoundTruthy(oc.value) then
      if ac.Some? && FoundTruthy(ac.value) && !StrictEquals(ac.value, Given(UnrankedKey)) then
        ReturnToPool(m, ac.value.key, activeId)
      else m
    else if ac.Some? && FoundTruthy(ac.value) && StrictEquals(ac.value, oc.value) then
      var s := m[ac.value.key];
      var ai := IndexOfId(s, activeId);
      var oi := OverIndex(s, over.value);
      if ai != oi then m[ac.value.key := ArrayMove(s, ai, oi)] else m
    else m
  }

  const Hades := DragGame(Game(10, "Hades", "finished"), 10)
  const Celeste := DragGame(Game(11, "Celeste", "finished"), 11)

  /** Row 5 holding Hades and Celeste, and an empty pool. */
  const OwnRowBoard: Containers := map[RowKey(5) := [Hades, Celeste], UnrankedKey := []]

  /** An empty row 0, row 5 holding Hades, and an empty pool. */
  const RowZeroBoard: Containers := map[RowKey(0) := [], RowKey(5) := [Hades], UnrankedKey := []]

  lemma OwnRowBoardHolds()
    ensures NoDuplicates(OwnRowBoard) && Holder(OwnRowBoard, 10) == Some(RowKey(5))
  {
    var m := OwnRowBoard;
    assert Ids(m[RowKey(5)]) == {10, 11} by {
      assert Hades in m[RowKey(5)] && Celeste in m[RowKey(5)];
    }
    assert Ids(m[UnrankedKey]) == {};
    HolderUnique(m, 10, RowKey(5));
  }

  lemma RowZeroBoardHolds()
    ensures NoDuplicates(RowZeroBoard) && Holder(RowZeroBoard, 10) == Some(RowKey(5))
  {
    var m := RowZeroBoard;
    assert Ids(m[RowKey(5)]) == {10} by {
      assert Hades in m[RowKey(5)];
    }
    assert Ids(m[RowKey(0)]) == {} && Ids(m[UnrankedKey]) == {};
    HolderUnique(m, 10, RowKey(5));
  }

  /** As written, hovering the empty area of a game's own row puts a second copy of the game
      at the end of that row: its container is the key string `"5"`, the hovered row is the
      number 5, `===` tells them apart, and the write to the row overrides the removal. The
      corrected step leaves the board alone. */
  lemma DragOverOwnRowDuplicates()
    ensures var r := DragOverAsWritten(OwnRowBoard, 10, Some(ContainerId(RowKey(5))), false);
            && NoDuplicates(OwnRowBoard)
            && r == OwnRowBoard[RowKey(5) := [Hades, Celeste, Hades]]
            && !NoDuplicates(r)
            && DragOverNext(OwnRowBoard, 10, Some(ContainerId(RowKey(5))), false) == OwnRowBoard
  {
    var m := OwnRowBoard;
    OwnRowBoardHolds();
    assert FindAsWritten(m, ItemId(10)) == Some(Searched(RowKey(5)));
    assert IndexOfId(m[RowKey(5)], 10) == 0;
    assert InsertAt(m[RowKey(5)], 3, Hades) == [Hades, Celeste, Hades];
    var r: Containers := m[RowKey(5) := [Hades, Celeste, Hades]];
    assert MoveAcross(m, RowKey(5), RowKey(5), 10, 3) == r;
    assert r[RowKey(5)][0].dragId == r[RowKey(5)][2].dragId;
  }

  /** As written, the row whose id is 0 cannot receive a game: the number 0 is falsy, so
      hovering the row changes nothing and dropping on it takes the path for a drop outside
      every target, which sends the game back to the pool. The corrected step moves the game
      into the row. */
  lemma RowZeroRefusesGames()
    ensures var over := Some(ContainerId(RowKey(0)));
            && DragOverAsWritten(RowZeroBoard, 10, over, false) == RowZeroBoard
            && DragEndAsWritten(RowZeroBoard, 10, over) == RowZeroBoard[RowKey(5) := []][UnrankedKey := [Hades]]
            && DragOverNext(RowZeroBoard, 10, over, false) == RowZeroBoard[RowKey(5) := []][RowKey(0) := [Hades]]
  {
    var m := RowZeroBoard;
    RowZeroBoardHolds();
    assert FindAsWritten(m, ItemId(10)) == Some(Searched(RowKey(5)));
    assert RemoveId(m[RowKey(5)], 10) == [];
    assert IndexOfId(m[RowKey(5)], 10) == 0;
    assert m[UnrankedKey] + [Hades] == [Hades];
    assert InsertAt(m[RowKey(0)], 1, Hades) == [Hades];
  }

  /** Away from a game's own row and from a row numbered 0, the step as written and the
      corrected step give the same board. */
  lemma DragOverAgrees(m: Containers, activeId: int, over: Option<DndId>, isBelow: bool)
    requires NoDuplicates(m) && IdsApart(m, activeId, over) && RowKey(0) !in m
    requires over.Some? && over.value.ContainerId? && over.value.key.RowKey? && over.value.key in m ==>
               activeId !in Ids(m[over.value.key])
    ensures DragOverAsWritten(m, activeId, over, isBelow) == DragOverNext(m, activeId, over, isBelow)
  {
    if over.Some? {
      FoundIsResolved(m, ItemId(activeId));
      FoundIsResolved(m, over.value);
      var ac, oc := FindAsWritten(m, ItemId(activeId)), FindAsWritten(m, over.value);
      if ac.Some? && oc.Some? {
        assert StrictEquals(ac.value, oc.value) <==> ac.value.key == oc.value.key;
      }
    }
  }

  /** Likewise for the drop. */
  lemma DragEndAgrees(m: Containers, activeId: int, over: Option<DndId>)
    requires NoDuplicates(m) && UnrankedKey in m && IdsApart(m, activeId, over) && RowKey(0) !in m
    requires over.Some? && over.value.ContainerId? && over.value.key.RowKey? && over.value.key in m ==>
               activeId !in Ids(m[over.value.key])
    ensures DragEndAsWritten(m, activeId, over) == DragEndNext(m, activeId, over)
  {
    FoundIsResolved(m, ItemId(activeId));
    if over.Some? {
      FoundIsResolved(m, over.value);
      var ac, oc := FindAsWritten(m, ItemId(activeId)), FindAsWritten(m, over.value);
      if ac.Some? && oc.Some? {
        assert StrictEquals(ac.value, oc.value) <==> ac.value.key == oc.value.key;
      }
    }
  }

  /** Without a row id among the game ids, `findContainer` as written names the container
      `Resolve` finds: a game by searching, a container as given. */
  lemma FoundIsResolved(m: Containers, t: DndId)
    requires t.ItemId? ==> RowKey(t.dragId) !in m
    ensures FindAsWritten(m, t).Some? == Resolve(m, t).Some?
    ensures FindAsWritten(m, t).Some? ==>
              FindAsWritten(m, t).value.key == Resolve(m, t).value
              && FindAsWritten(m, t).value.Searched? == t.ItemId?
  {
  }

  // ---------------------------------------------------------------------------
  // Properties of the transitions
  // ---------------------------------------------------------------------------

  lemma IdsAppend(a: seq<DragGame>, b: seq<DragGame>)
    ensures Ids(a + b) == Ids(a) + Ids(b)
  {
    forall y | y in Ids(a + b) ensures y in Ids(a) + Ids(b) {
      var g: DragGame :| g in a + b && g.dragId == y;
    }
  }

  lemma DistinctTail(s: seq<DragGame>)
    requires s != [] && DistinctIds(s)
    ensures DistinctIds(s[1..])
  {
    forall a, b | 0 <= a < b < |s[1..]| ensures s[1..][a].dragId != s[1..][b].dragId {
      assert s[1..][a] == s[a + 1] && s[1..][b] == s[b + 1];
    }
  }

  /** Removing a game with a unique identity cuts exactly its one position out. */
  lemma {:induction false} RemoveIdSplit(s: seq<DragGame>, x: int)
    requires DistinctIds(s) && x in Ids(s)
    ensures var i := IndexOfId(s, x); RemoveId(s, x) == s[..i] + s[i + 1..]
    decreases |s|
  {
    var i := IndexOfId(s, x);
    if i == 0 {
      RemoveHeadOnly(s, x);
    } else {
      var t := s[1..];
      IndexOfIdTail(s, x);
      DistinctTail(s);
      RemoveIdSplit(t, x);
      RemoveIdCons(s, x);
      ConsCut(s, i);
    }
  }

  lemma IndexOfIdTail(s: seq<DragGame>, x: int)
    requires s != [] && s[0].dragId != x && x in Ids(s)
    ensures x in Ids(s[1..]) && IndexOfId(s, x) == IndexOfId(s[1..], x) + 1
  {
  }

  lemma RemoveIdCons(s: seq<DragGame>, x: int)
    requires s != [] && s[0].dragId != x
    ensures RemoveId(s, x) == [s[0]] + RemoveId(s[1..], x)
  {
  }

  lemma ConsCut(s: seq<DragGame>, i: int)
    requires 0 < i < |s|
    ensures [s[0]] + (s[1..][..i - 1] + s[1..][i..]) == s[..i] + s[i + 1..]
  {
    assert s[..i] == [s[0]] + s[1..][..i - 1];
    assert s[i + 1..] == s[1..][i..];
  }

  lemma RemoveHeadOnly(s: seq<DragGame>, x: int)
    requires DistinctIds(s) && s != [] && s[0].dragId == x
    ensures RemoveId(s, x) == s[1..]
  {
    var t := s[1..];
    forall j | 0 <= j < |t| ensures NotId(x)(t[j]) {
      assert t[j] == s[j + 1];
    }
    FilterAll(t, NotId(x));
  }

  lemma CutPermutes(s: seq<DragGame>, i: nat)
    requires i < |s|
    ensures multiset(s[..i] + s[i + 1..]) + multiset{s[i]} == multiset(s)
    ensures Ids(s[..i] + s[i + 1..]) + {s[i].dragId} == Ids(s)
  {
    assert s == s[..i] + [s[i]] + s[i + 1..];
    IdsAppend(s[..i], s[i + 1..]);
    IdsAppend(s[..i] + [s[i]], s[i + 1..]);
    IdsAppend(s[..i], [s[i]]);
  }

  lemma CutDistinct(s: seq<DragGame>, i: nat)
    requires i < |s| && DistinctIds(s)
    ensures DistinctIds(s[..i] + s[i + 1..])
    ensures s[i].dragId !in Ids(s[..i] + s[i + 1..])
  {
    var c := s[..i] + s[i + 1..];
    forall a, b | 0 <= a < b < |c| ensures c[a].dragId != c[b].dragId {
      var a' := if a < i then a else a + 1;
      var b' := if b < i then b else b + 1;
      assert c[a] == s[a'] && c[b] == s[b'];
    }
    forall g | g in c ensures g.dragId != s[i].dragId {
      var a :| 0 <= a < |c| && c[a] == g;
      var a' := if a < i then a else a + 1;
      assert c[a] == s[a'];
    }
  }

  lemma InsertAtContents(s: seq<DragGame>, idx: nat, g: DragGame)
    ensures multiset(InsertAt(s, idx, g)) == multiset(s) + multiset{g}
    ensures Ids(InsertAt(s, idx, g)) == Ids(s) + {g.dragId}
    ensures InsertAt(s, idx, g)[if idx <= |s| then idx else |s|] == g
  {
    var at := if idx <= |s| then idx else |s|;
    assert s == s[..at] + s[at..];
    IdsAppend(s[..at], s[at..]);
    IdsAppend(s[..at] + [g], s[at..]);
    IdsAppend(s[..at], [g]);
  }

  lemma InsertAtDistinct(s: seq<DragGame>, idx: nat, g: DragGame)
    requires DistinctIds(s) && g.dragId !in Ids(s)
    ensures DistinctIds(InsertAt(s, idx, g))
  {
    var at := if idx <= |s| then idx else |s|;
    var r := InsertAt(s, idx, g);
    forall a, b | 0 <= a < b < |r| ensures r[a].dragId != r[b].dragId {
      if b < at {
        assert r[a] == s[a] && r[b] == s[b];
      } else if a > at {
        assert r[a] == s[a - 1] && r[b] == s[b - 1];
      } else if a < at && at < b {
        assert r[a] == s[a] && r[b] == s[b - 1];
      } else if a == at {
        assert r[b] == s[b - 1] && s[b - 1] in s;
      } else {
        assert r[a] == s[a] && s[a] in s;
      }
    }
  }

  /** A cross-container move takes the game out of its source and puts it exactly once
      into the destination at the computed index; the two containers together keep the
      same games, every other container is untouched, and no game ends up in two places. */
  lemma MoveAcrossProperties(m: Containers, from: ContainerKey, to: ContainerKey, x: int, idx: nat)
    requires NoDuplicates(m) && from in m && to in m && from != to && x in Ids(m[from])
    ensures var r := MoveAcross(m, from, to, x, idx);
      && r.Keys == m.Keys
      && (forall k :: k in m && k != from && k != to ==> r[k] == m[k])
      && multiset(r[from]) + multiset(r[to]) == multiset(m[from]) + multiset(m[to])
      && x !in Ids(r[from])
      && r[to][if idx <= |m[to]| then idx else |m[to]|].dragId == x
      && NoDuplicates(r)
  {
    var s := m[from];
    var i := IndexOfId(s, x);
    RemoveIdSplit(s, x);
    CutPermutes(s, i);
    CutDistinct(s, i);
    InsertAtContents(m[to], idx, s[i]);
    MoveAcrossNoDuplicates(m, from, to, x, idx);
  }

  lemma MoveAcrossNoDuplicates(m: Containers, from: ContainerKey, to: ContainerKey, x: int, idx: nat)
    requires NoDuplicates(m) && from in m && to in m && from != to && x in Ids(m[from])
    ensures NoDuplicates(MoveAcross(m, from, to, x, idx))
  {
    var g := m[from][IndexOfId(m[from], x)];
    var m1 := m[from := RemoveId(m[from], x)];
    TakeOutKeepsNoDuplicates(m, from, to, x);
    InsertAtContents(m[to], idx, g);
    InsertAtDistinct(m[to], idx, g);
    ReplaceKeepsNoDuplicates(m1, to, InsertAt(m[to], idx, g), {x});
  }

  /** Taking the game out of its source leaves no duplicates and no copy of it anywhere
      but in the destination's old content, which never held it. */
  lemma TakeOutKeepsNoDuplicates(m: Containers, from: ContainerKey, to: ContainerKey, x: int)
    requires NoDuplicates(m) && from in m && to in m && from != to && x in Ids(m[from])
    ensures var m1 := m[from := RemoveId(m[from], x)];
      && NoDuplicates(m1) && x !in Ids(m[to]) && m1[to] == m[to]
      && (forall k :: k in m1 && k != to ==> Ids(m1[k]) !! {x})
      && m[from][IndexOfId(m[from], x)].dragId == x
  {
    var s := m[from];
    var i := IndexOfId(s, x);
    var removed := RemoveId(s, x);
    var m1 := m[from := removed];
    RemoveIdSplit(s, x);
    CutPermutes(s, i);
    CutDistinct(s, i);
    ReplaceKeepsNoDuplicates(m, from, removed, {});
    assert Ids(m[from]) !! Ids(m[to]);
    forall k | k in m1 && k != to ensures Ids(m1[k]) !! {x} {
      if k != from {
        assert Ids(m[from]) !! Ids(m[k]);
      }
    }
  }

  /** Replacing one container keeps the board free of duplicates when the new content
      has distinct identities drawn from the old content and from games no other
      container holds. */
  lemma ReplaceKeepsNoDuplicates(m: Containers, k: ContainerKey, s: seq<DragGame>, extra: set<int>)
    requires NoDuplicates(m) && k in m && DistinctIds(s)
    requires Ids(s) <= Ids(m[k]) + extra
    requires forall k' :: k' in m && k' != k ==> Ids(m[k']) !! extra
    ensures NoDuplicates(m[k := s])
  {
    var r := m[k := s];
    forall k1, k2 | k1 in r && k2 in r && k1 != k2 ensures Ids(r[k1]) !! Ids(r[k2]) {
      assert Ids(m[k1]) !! Ids(m[k2]);
    }
  }

  lemma ArrayMoveIsInsert(s: seq<DragGame>, from: nat, to: int)
    requires from < |s| && -1 <= to < |s|
    ensures var at := if to < 0 then |s| - 1 else to;
      ArrayMove(s, from, to) == InsertAt(s[..from] + s[from + 1..], at, s[from])
  {
  }

  lemma ArrayMoveProperties(s: seq<DragGame>, from: nat, to: int)
    requires from < |s| && -1 <= to < |s|
    ensures multiset(ArrayMove(s, from, to)) == multiset(s)
    ensures ArrayMove(s, from, to)[if to < 0 then |s| - 1 else to] == s[from]
    ensures Ids(ArrayMove(s, from, to)) == Ids(s)
    ensures DistinctIds(s) ==> DistinctIds(ArrayMove(s, from, to))
  {
    var rest := s[..from] + s[from + 1..];
    var at := if to < 0 then |s| - 1 else to;
    ArrayMoveIsInsert(s, from, to);
    CutPermutes(s, from);
    InsertAtContents(rest, at, s[from]);
    if DistinctIds(s) {
      CutDistinct(s, from);
      InsertAtDistinct(rest, at, s[from]);
    }
  }

  /** A drop outside every target moves the game from its row to the end of the pool,
      leaving every other container alone and no game in two places. */
  lemma ReturnToPoolProperties(m: Containers, from: ContainerKey, x: int)
    requires NoDuplicates(m) && from in m && UnrankedKey in m && from != UnrankedKey && x in Ids(m[from])
    ensures var r := ReturnToPool(m, from, x);
      && r.Keys == m.Keys
      && (forall k :: k in m && k != from && k != UnrankedKey ==> r[k] == m[k])
      && x !in Ids(r[from])
      && |r[UnrankedKey]| == |m[UnrankedKey]| + 1
      && r[UnrankedKey][..|m[UnrankedKey]|] == m[UnrankedKey]
      && r[UnrankedKey][|m[UnrankedKey]|].dragId == x
      && multiset(r[from]) + multiset(r[UnrankedKey]) == multiset(m[from]) + multiset(m[UnrankedKey])
      && NoDuplicates(r)
  {
    MoveAcrossProperties(m, from, UnrankedKey, x, |m[UnrankedKey]|);
    var s := m[UnrankedKey];
    var g := m[from][IndexOfId(m[from], x)];
    assert InsertAt(s, |s|, g) == s + [g];
    assert ReturnToPool(m, from, x) == MoveAcross(m, from, UnrankedKey, x, |s|);
  }

  /** Every drag-over keeps the board free of duplicates and the pool in place. */
  lemma DragOverKeepsInvariant(m: Containers, activeId: int, over: Option<DndId>, isBelow: bool)
    requires NoDuplicates(m) && UnrankedKey in m
    ensures NoDuplicates(DragOverNext(m, activeId, over, isBelow))
    ensures DragOverNext(m, activeId, over, isBelow).Keys == m.Keys
  {
    if over.Some? {
      var ac := Resolve(m, ItemId(activeId));
      var oc := Resolve(m, over.value);
      if ac.Some? && oc.Some? && ac.value != oc.value {
        var overIndex := OverIndex(m[oc.value], over.value);
        MoveAcrossProperties(m, ac.value, oc.value, activeId, InsertIndex(over.value, overIndex, |m[oc.value]|, isBelow));
      }
    }
  }

  /** Hovering a target other than the game's own container moves the game into it: the
      game is in the hovered container afterwards and no longer in the one it came from. */
  lemma HoverMovesIntoTarget(m: Containers, activeId: int, over: Option<DndId>, isBelow: bool)
    requires NoDuplicates(m) && over.Some?
    requires Resolve(m, ItemId(activeId)).Some? && Resolve(m, over.value).Some?
    requires Resolve(m, ItemId(activeId)) != Resolve(m, over.value)
    ensures var r := DragOverNext(m, activeId, over, isBelow);
            && activeId in Ids(r[Resolve(m, over.value).value])
            && activeId !in Ids(r[Resolve(m, ItemId(activeId)).value])
  {
    var from, to := Resolve(m, ItemId(activeId)).value, Resolve(m, over.value).value;
    var idx := InsertIndex(over.value, OverIndex(m[to], over.value), |m[to]|, isBelow);
    MoveAcrossProperties(m, from, to, activeId, idx);
    var r := MoveAcross(m, from, to, activeId, idx);
    assert r[to][if idx <= |m[to]| then idx else |m[to]|] in r[to];
  }

  /** Every drop keeps the board free of duplicates, the pool in place and the games
      of the changed containers the same. */
  lemma DragEndKeepsInvariant(m: Containers, activeId: int, over: Option<DndId>)
    requires NoDuplicates(m) && UnrankedKey in m
    ensures NoDuplicates(DragEndNext(m, activeId, over))
    ensures DragEndNext(m, activeId, over).Keys == m.Keys
  {
    var ac := Resolve(m, ItemId(activeId));
    var oc := if over.None? then None else Resolve(m, over.value);
    if oc.None? {
      if ac.Some? && ac.value != UnrankedKey {
        ReturnToPoolProperties(m, ac.value, activeId);
      }
    } else if ac.Some? && ac.value == oc.value {
      var s := m[ac.value];
      var ai := IndexOfId(s, activeId);
      var oi := OverIndex(s, over.value);
      if ai != oi {
        ArrayMoveProperties(s, ai, oi);
        var r := m[ac.value := ArrayMove(s, ai, oi)];
        forall k1, k2 | k1 in r && k2 in r && k1 != k2 ensures Ids(r[k1]) !! Ids(r[k2]) {
          assert Ids(m[k1]) !! Ids(m[k2]);
        }
      }
    }
  }

  /** A drop inside the game's own container permutes only that container, landing the
      game where the hovered game was, or at the end when the container itself is hovered.
      As written the last case never arises: the pool registers no droppable of its own, and
      a row's own number is not `===` to its key string (`DragEndAgrees`,
      `DragOverOwnRowDuplicates`). */
  lemma DropInSameContainer(m: Containers, activeId: int, over: DndId)
    requires NoDuplicates(m) && UnrankedKey in m
    requires Resolve(m, ItemId(activeId)).Some? && Resolve(m, ItemId(activeId)) == Resolve(m, over)
    ensures var k := Resolve(m, over).value;
      var s := m[k];
      var ai := IndexOfId(s, activeId);
      var oi := OverIndex(s, over);
      var r := DragEndNext(m, activeId, Some(over));
      && ai >= 0
      && (forall k' :: k' in m && k' != k ==> r[k'] == m[k'])
      && multiset(r[k]) == multiset(s)
      && (ai == oi ==> r == m)
      && (ai != oi ==> r[k][if oi < 0 then |s| - 1 else oi].dragId == activeId)
  {
    var k := Resolve(m, over).value;
    var s := m[k];
    DragEndWithinContainer(m, activeId, over);
    var ai := IndexOfId(s, activeId);
    var oi := OverIndex(s, over);
    if ai != oi {
      ArrayMoveProperties(s, ai, oi);
    }
  }

  lemma DragEndWithinContainer(m: Containers, activeId: int, over: DndId)
    requires NoDuplicates(m) && UnrankedKey in m
    requires Resolve(m, ItemId(activeId)).Some? && Resolve(m, ItemId(activeId)) == Resolve(m, over)
    ensures var k := Resolve(m, over).value;
      && k in m && activeId in Ids(m[k])
      && var ai := IndexOfId(m[k], activeId);
         var oi := OverIndex(m[k], over);
         && 0 <= ai && -1 <= oi
         && DragEndNext(m, activeId, Some(over)) == if ai != oi then m[k := ArrayMove(m[k], ai, oi)] else m
  {
    var k := Resolve(m, over).value;
    assert Holder(m, activeId) == Some(k);
  }

  /** A drop outside every target leaves a pool game where it is. */
  lemma DropOutsideFromPool(m: Containers, activeId: int, over: Option<DndId>)
    requires NoDuplicates(m) && UnrankedKey in m && activeId in Ids(m[UnrankedKey])
    requires over.None? || Resolve(m, over.value).None?
    ensures DragEndNext(m, activeId, over) == m
  {
    HolderUnique(m, activeId, UnrankedKey);
  }

  // ---------------------------------------------------------------------------
  // The editor's drag state
  // ---------------------------------------------------------------------------

  class TierBoard {
    var tierList: TierList
    var items: Containers
    var activeDragItem: Option<DragGame>
    var dropAnimationEnabled: bool

    ghost predicate Valid()
      reads this
    {
      UnrankedKey in items && NoDuplicates(items)
    }

    /** The state once the tier list and the library have loaded. */
    constructor (list: TierList, library: seq<Game>)
      requires Consistent(list, library)
      ensures Valid()
      ensures tierList == list && items == Init(list, library)
      ensures activeDragItem == None && dropAnimationEnabled
    {
      InitNoDuplicates(list, library);
      tierList := list;
      items := Init(list, library);
      activeDragItem := None;
      dropAnimationEnabled := true;
    }

    /** `findContainer`: a scan over the containers. */
    method FindContainer(t: DndId) returns (r: Option<ContainerKey>)
      requires Valid()
      ensures r == Resolve(items, t)
    {
      match t
      case ContainerId(k) =>
        r := if k in items then Some(k) else None;
      case ItemId(x) =>
        r := None;
        var keys := items.Keys;
        while keys != {} && r.None?
          invariant keys <= items.Keys
          invariant r.None? ==> forall k :: k in items && k !in keys ==> x !in Ids(items[k])
          invariant r.Some? ==> r.value in items && x in Ids(items[r.value])
          decreases keys
        {
          var k :| k in keys;
          if IndexOfId(items[k], x) >= 0 {
            r := Some(k);
          }
          keys := keys - {k};
        }
        if r.Some? {
          HolderUnique(items, x, r.value);
        }
    }

    /** `handleDragStart`: remember the dragged game for the overlay. */
    method DragStart(activeId: int)
      requires Valid()
      modifies this`activeDragItem, this`dropAnimationEnabled
      ensures dropAnimationEnabled
      ensures match Holder(items, activeId)
              case None => activeDragItem == None
              case Some(k) => activeDragItem.Some? && activeDragItem.value in items[k] && activeDragItem.value.dragId == activeId
    {
      dropAnimationEnabled := true;
      var c := FindContainer(ItemId(activeId));
      if c.Some? {
        var i := IndexOfId(items[c.value], activeId);
        activeDragItem := Some(items[c.value][i]);
      } else {
        activeDragItem := None;
      }
    }

    /** `handleDragOver`: while hovering another container, move the game there at once. */
    method DragOver(activeId: int, over: Option<DndId>, isBelow: bool)
      requires Valid()
      modifies this`items
      ensures Valid()
      ensures items == DragOverNext(old(items), activeId, over, isBelow)
    {
      DragOverKeepsInvariant(items, activeId, over, isBelow);
      if over.None? {
        return;
      }
      var ac := FindContainer(ItemId(activeId));
      var oc := FindContainer(over.value);
      if ac.None? || oc.None? || ac.value == oc.value {
        return;
      }
      var activeItems := items[ac.value];
      var overItems := items[oc.value];
      var activeIndex := IndexOfId(activeItems, activeId);
      var overIndex := OverIndex(overItems, over.value);
      var newIndex := InsertIndex(over.value, overIndex, |overItems|, isBelow);
      items := items[ac.value := RemoveId(activeItems, activeId)]
                    [oc.value := InsertAt(overItems, newIndex, activeItems[activeIndex])];
    }

    /** `handleDragEnd`: a drop outside every target returns the game to the pool; a drop in
        the game's own container reorders it there. */
    method DragEnd(activeId: int, over: Option<DndId>)
      requires Valid()
      modifies this`items, this`activeDragItem, this`dropAnimationEnabled
      ensures Valid()
      ensures items == DragEndNext(old(items), activeId, over)
      ensures activeDragItem == None
      ensures dropAnimationEnabled == (old(dropAnimationEnabled) && over.Some? && Resolve(old(items), over.value).Some?)
    {
      DragEndKeepsInvariant(items, activeId, over);
      var ac := FindContainer(ItemId(activeId));
      var oc: Option<ContainerKey> := None;
      if over.Some? {
        oc := FindContainer(over.value);
      }
      var next := items;
      if oc.None? {
        dropAnimationEnabled := false;
        if ac.Some? && ac.value != UnrankedKey {
          var source := items[ac.value];
          var g := source[IndexOfId(source, activeId)];
          next := items[ac.value := RemoveId(source, activeId)][UnrankedKey := items[UnrankedKey] + [g]];
          assert next == ReturnToPool(items, ac.value, activeId);
        }
      } else if ac.Some? && ac.value == oc.value {
        var container := items[ac.value];
        var activeIndex := IndexOfId(container, activeId);
        var overIndex := OverIndex(container, over.value);
        if activeIndex != overIndex {
          next := items[ac.value := ArrayMove(container, activeIndex, overIndex)];
        }
      }
      items := next;
      activeDragItem := None;
    }
  }

  // ---------------------------------------------------------------------------
  // Saving and the pool filter
  // ---------------------------------------------------------------------------

  function SaveRow(row: TierRow, m: Containers): SavedRow {
    var placed := if RowKey(row.id) in m then m[RowKey(row.id)] else [];
    SavedRow(row.id, row.tierLabel, row.color, row.sortOrder,
             seq(|placed|, j requires 0 <= j < |placed| => SavedItem(placed[j].game.id, j)))
  }

  /** `handleSave`: every row of the loaded list with its items renumbered from the board. */
  function SavePayload(list: TierList, m: Containers): (p: SavedTierList)
    ensures p.id == list.id && p.name == list.name && p.createdAt == list.createdAt
    ensures |p.rows| == |list.rows|
    ensures forall i :: 0 <= i < |p.rows| ==>
              var row := list.rows[i];
              && p.rows[i].id == row.id && p.rows[i].tierLabel == row.tierLabel
              && p.rows[i].color == row.color && p.rows[i].sortOrder == row.sortOrder
              && (RowKey(row.id) !in m ==> p.rows[i].items == [])
              && (RowKey(row.id) in m ==>
                    |p.rows[i].items| == |m[RowKey(row.id)]|
                    && forall j :: 0 <= j < |p.rows[i].items| ==>
                         p.rows[i].items[j] == SavedItem(m[RowKey(row.id)][j].game.id, j))
  {
    SavedTierList(list.id, list.name, list.createdAt,
                  seq(|list.rows|, i requires 0 <= i < |list.rows| => SaveRow(list.rows[i], m)))
  }

  /** The saved sort orders of every row run 0, 1, ..., n-1, and the pool is never saved:
      every saved game id comes from a row container. */
  lemma SaveContiguous(list: TierList, m: Containers, i: nat)
    requires i < |list.rows|
    ensures var items := SavePayload(list, m).rows[i].items;
      forall j :: 0 <= j < |items| ==> items[j].sortOrder == j && RowKey(list.rows[i].id) in m
  {
  }

  predicate Keep(g: DragGame, query: string, showAllGames: bool) {
    && Includes(Lower(g.game.title), Lower(query))
    && (showAllGames || g.game.status == "finished" || g.game.status == "Finished")
  }

  function KeepFor(query: string, showAllGames: bool): DragGame -> bool {
    g => Keep(g, query, showAllGames)
  }

  /** `filteredUnranked`: the pool games whose title contains the search text, ignoring
      case, restricted to finished games unless every game is shown. */
  function FilteredUnranked(m: Containers, query: string, showAllGames: bool): (r: seq<DragGame>)
    ensures var pool := if UnrankedKey in m then m[UnrankedKey] else [];
      && SubsequenceOf(r, pool)
      && (forall i :: 0 <= i < |r| ==> Keep(r[i], query, showAllGames))
      && (forall i :: 0 <= i < |pool| && Keep(pool[i], query, showAllGames) ==> pool[i] in r)
      && (forall g :: multiset(r)[g] == if Keep(g, query, showAllGames) then multiset(pool)[g] else 0)
  {
    var pool := if UnrankedKey in m then m[UnrankedKey] else [];
    FilterCounts(pool, KeepFor(query, showAllGames));
    Filter(pool, KeepFor(query, showAllGames))
  }

  /** With an empty search and every game shown, the whole pool is listed. */
  lemma EmptySearchShowsPool(m: Containers)
    requires UnrankedKey in m
    ensures FilteredUnranked(m, "", true) == m[UnrankedKey]
  {
    var pool := m[UnrankedKey];
    forall i | 0 <= i < |pool| ensures KeepFor("", true)(pool[i]) {
      assert StartsWith(Lower(pool[i].game.title), Lower(""));
    }
    FilterAll(pool, KeepFor("", true));
  }
}
