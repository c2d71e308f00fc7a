/** The games store: the list of games the pages show, its loading status and error,
    and the reducers that apply the results of the fetch, add, update and remove requests.
    Backend records are normalised on the way in: the cover path is made absolute, the
    status is capitalised for display and given a badge colour. */
module GamesSlice {
  import opened Common

  /** Base address of the backend; relative cover paths are served from it. */
  const ApiUrl: string := "http://localhost:3000"

  datatype Tag = Tag(name: string)

  /** A game record as the backend sends it (snake_case fields in the wire format). */
  datatype BackendGame = BackendGame(
    id: int,
    title: string,
    genre: Option<string>,
    coverUrl: Option<string>,
    cover: Option<string>,
    status: string,
    hoursPlayed: Option<int>,
    dateFinished: Option<string>,
    score: Option<real>,
    releaseYear: Option<int>,
    reviewText: Option<string>,
    hltbEstimate: Option<int>,
    tags: Option<seq<Tag>>)

  /** A game as the pages read it from the store. */
  datatype Game = Game(
    id: int,
    title: string,
    genre: Option<string>,
    cover: Option<string>,
    lastPlayed: string,
    status: string,
    statusColor: string,
    hours: Option<int>,
    dateFinished: Option<string>,
    score: Option<real>,
    releaseYear: Option<int>,
    review: Option<string>,
    hltb: Option<int>,
    vibes: seq<string>)

  datatype LoadStatus = Idle | Loading | Succeeded | Failed

  // ---------------------------------------------------------------------------
  // Normalisation shared by the fetch, add and update cases
  // ---------------------------------------------------------------------------

  /** `cover_url || cover`. */
  function CoverSource(g: BackendGame): Option<string> {
    if Truthy(g.coverUrl) then g.coverUrl else g.cover
  }

  /** Prefix a relative cover path with the backend address; absolute `http...` and
      inline `data:` values, and missing or empty ones, are kept as they are. */
  function Absolutize(c: Option<string>): (r: Option<string>)
    ensures !Truthy(c) ==> r == c
    ensures Truthy(c) ==> r.Some? && (StartsWith(r.value, "http") || StartsWith(r.value, "data:"))
    ensures Truthy(c) && (StartsWith(c.value, "http") || StartsWith(c.value, "data:")) ==> r == c
    ensures Truthy(c) && !StartsWith(c.value, "http") && !StartsWith(c.value, "data:") ==>
              r == Some(ApiUrl + c.value)
  {
    if Truthy(c) && !StartsWith(c.value, "http") && !StartsWith(c.value, "data:") then
      assert (ApiUrl + c.value)[..4] == "http";
      Some(ApiUrl + c.value)
    else c
  }

  /** Resolving a resolved cover changes nothing, because the backend address itself
      starts with `http`. */
  lemma AbsolutizeIdempotent(c: Option<string>)
    ensures Absolutize(Absolutize(c)) == Absolutize(c)
  {
  }

  function ResolveCover(g: BackendGame): Option<string> {
    Absolutize(CoverSource(g))
  }

  /** `s.charAt(0).toUpperCase() + s.slice(1)`. */
  function Capitalize(s: string): (r: string)
    ensures |r| == |s|
    ensures s != [] ==> r[0] == UpperChar(s[0]) && r[1..] == s[1..]
  {
    if s == [] then [] else [UpperChar(s[0])] + s[1..]
  }

  /** The badge colour of a backend status. */
  function StatusColor(status: string): (c: string)
    ensures status == "playing" <==> c == "bg-violet-500"
    ensures status == "finished" <==> c == "bg-primary"
    ensures status != "playing" && status != "finished" <==> c == "bg-slate-500"
  {
    if status == "playing" then "bg-violet-500"
    else if status == "finished" then "bg-primary"
    else "bg-slate-500"
  }

  ghost predicate IsLowerCase(s: string) {
    forall i :: 0 <= i < |s| ==> LowerChar(s[i]) == s[i]
  }

  /** Lower-casing a capitalised lower-case status gives the status back: this is the
      round trip between the store (display form) and the update payload (wire form). */
  lemma CapitalizeRoundTrip(s: string)
    requires IsLowerCase(s)
    ensures Lower(Capitalize(s)) == s
  {
    if s != [] {
      var r := Capitalize(s);
      forall i | 0 <= i < |s| ensures Lower(r)[i] == s[i] {
        if i > 0 {
          assert r[i] == s[i];
        }
      }
    }
  }

  function TagNames(tags: Option<seq<Tag>>): (r: seq<string>)
    ensures tags.None? ==> r == []
    ensures tags.Some? ==> |r| == |tags.value| && forall i :: 0 <= i < |r| ==> r[i] == tags.value[i].name
  {
    match tags
    case None => []
    case Some(ts) => seq(|ts|, i requires 0 <= i < |ts| => ts[i].name)
  }

  /** The store record of a backend game, with the given vibes. */
  function ToClient(g: BackendGame, vibes: seq<string>): (r: Game)
    ensures r.id == g.id && r.title == g.title && r.lastPlayed == "Recently" && r.vibes == vibes
    ensures r.cover == ResolveCover(g)
    ensures r.status == Capitalize(g.status) && r.statusColor == StatusColor(g.status)
    ensures r.genre == g.genre && r.hours == g.hoursPlayed && r.dateFinished == g.dateFinished
    ensures r.score == g.score && r.releaseYear == g.releaseYear && r.review == g.reviewText
    ensures r.hltb == g.hltbEstimate
  {
    Game(g.id, g.title, g.genre, ResolveCover(g), "Recently", Capitalize(g.status), StatusColor(g.status),
         g.hoursPlayed, g.dateFinished, g.score, g.releaseYear, g.reviewText, g.hltbEstimate, vibes)
  }

  /** An updated backend record applied over a store record: identity, `lastPlayed` and
      vibes stay, every field the backend sends is replaced. */
  function Refresh(old_: Game, g: BackendGame): (r: Game)
    ensures r.id == old_.id && r.lastPlayed == old_.lastPlayed && r.vibes == old_.vibes
    ensures r == ToClient(g, old_.vibes).(id := old_.id, lastPlayed := old_.lastPlayed)
  {
    old_.(title := g.title, genre := g.genre, cover := ResolveCover(g),
          status := Capitalize(g.status), statusColor := StatusColor(g.status),
          hours := g.hoursPlayed, dateFinished := g.dateFinished, score := g.score,
          releaseYear := g.releaseYear, review := g.reviewText, hltb := g.hltbEstimate)
  }

  // ---------------------------------------------------------------------------
  // List operations the reducers perform
  // ---------------------------------------------------------------------------

  /** `findIndex(g => g.id === id)`. */
  function IndexOfGame(items: seq<Game>, id: int): (i: int)
    ensures -1 <= i < |items|
    ensures i >= 0 ==> items[i].id == id && forall j :: 0 <= j < i ==> items[j].id != id
    ensures i == -1 ==> forall j :: 0 <= j < |items| ==> items[j].id != id
    decreases |items|
  {
    if items == [] then -1
    else if items[0].id == id then 0
    else
      var i := IndexOfGame(items[1..], id);
      assert forall j :: 1 <= j < |items| ==> items[j] == items[1..][j - 1];
      if i < 0 then -1 else i + 1
  }

  /** The items after an update response: the first game with the response's id is refreshed. */
  function ApplyUpdate(items: seq<Game>, g: BackendGame): seq<Game> {
    var i := IndexOfGame(items, g.id);
    if i < 0 then items else items[i := Refresh(items[i], g)]
  }

  /** An update touches only the first game with that id, keeping its id, `lastPlayed`
      and vibes; when no game has that id nothing changes. */
  lemma ApplyUpdateProperties(items: seq<Game>, g: BackendGame)
    ensures |ApplyUpdate(items, g)| == |items|
    ensures (forall j :: 0 <= j < |items| ==> items[j].id != g.id) ==> ApplyUpdate(items, g) == items
    ensures forall j :: 0 <= j < |items| && j != IndexOfGame(items, g.id) ==> ApplyUpdate(items, g)[j] == items[j]
    ensures var i := IndexOfGame(items, g.id);
            i >= 0 ==> ApplyUpdate(items, g)[i] == Refresh(items[i], g) && ApplyUpdate(items, g)[i].id == g.id
  {
  }

  function NotGame(id: int): Game -> bool {
    (g: Game) => g.id != id
  }

  /** The items after a delete response: every game with that id goes, the rest keep their order. */
  function RemoveGame(items: seq<Game>, id: int): (r: seq<Game>)
    ensures forall j :: 0 <= j < |r| ==> r[j].id != id && r[j] in items
    ensures forall j :: 0 <= j < |items| && items[j].id != id ==> items[j] in r
    ensures SubsequenceOf(r, items)
    ensures forall g :: multiset(r)[g] == if g.id != id then multiset(items)[g] else 0
  {
    FilterCounts(items, NotGame(id));
    Filter(items, NotGame(id))
  }

  lemma RemoveAbsent(items: seq<Game>, id: int)
    requires forall j :: 0 <= j < |items| ==> items[j].id != id
    ensures RemoveGame(items, id) == items
  {
    FilterAll(items, NotGame(id));
  }

  // ---------------------------------------------------------------------------
  // The store
  // ---------------------------------------------------------------------------

  class GamesStore {
    var items: seq<Game>
    var status: LoadStatus
    var error: Option<string>

    constructor ()
      ensures items == [] && status == Idle && error == None
    {
      items := [];
      status := Idle;
      error := None;
    }

    /** `fetchGames.pending`. */
    method FetchPending()
      modifies this
      ensures status == Loading && items == old(items) && error == old(error)
    {
      status := Loading;
    }

    /** `fetchGames.fulfilled`: the list becomes the normalised payload, in payload order,
        each game carrying its tag names as vibes. */
    method FetchFulfilled(payload: seq<BackendGame>)
      modifies this
      ensures status == Succeeded && error == old(error)
      ensures |items| == |payload|
      ensures forall i :: 0 <= i < |payload| ==> items[i] == ToClient(payload[i], TagNames(payload[i].tags))
    {
      status := Succeeded;
      items := seq(|payload|, i requires 0 <= i < |payload| => ToClient(payload[i], TagNames(payload[i].tags)));
    }

    /** `fetchGames.rejected`. */
    method FetchRejected(message: string)
      modifies this
      ensures status == Failed && error == Some(message) && items == old(items)
    {
      status := Failed;
      error := Some(message);
    }

    /** `addNewGame.fulfilled`: the created game goes to the front, with no vibes. */
    method AddFulfilled(created: BackendGame)
      modifies this
      ensures items == [ToClient(created, [])] + old(items)
      ensures status == old(status) && error == old(error)
    {
      items := [ToClient(created, [])] + items;
    }

    /** `updateExistingGame.fulfilled`: a search for the game, then a write at its index. */
    method UpdateFulfilled(updated: BackendGame)
      modifies this
      ensures items == ApplyUpdate(old(items), updated)
      ensures status == old(status) && error == old(error)
    {
      var index := 0;
      while index < |items| && items[index].id != updated.id
        invariant 0 <= index <= |items|
        invariant forall j :: 0 <= j < index ==> items[j].id != updated.id
      {
        index := index + 1;
      }
      if index < |items| {
        assert IndexOfGame(items, updated.id) == index;
        items := items[index := Refresh(items[index], updated)];
      }
    }

    /** `removeGame.fulfilled`. */
    method RemoveFulfilled(id: int)
      modifies this
      ensures items == RemoveGame(old(items), id)
      ensures status == old(status) && error == old(error)
    {
      items := RemoveGame(items, id);
    }

    /** `removeGame.rejected` only logs. */
    method RemoveRejected()
      modifies this
      ensures items == old(items) && status == old(status) && error == old(error)
    {
    }
  }
}
