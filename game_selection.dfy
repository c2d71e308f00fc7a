/** The pool filter of the random picker: genre pills built from the backlog's genres,
    and the games of the chosen genre (or all of them). */
module GameSelection {
  import opened Common
  import opened Sorting
  import opened GamesSlice

  const AllGenres: string := "All"

  /** `games.map(g => g.genre).filter(Boolean)`: the non-empty genres, in backlog order. */
  function PresentGenres(games: seq<Game>): (r: seq<string>)
    ensures forall x :: x in r <==> exists i :: 0 <= i < |games| && games[i].genre == Some(x) && x != ""
    decreases |games|
  {
    if games == [] then []
    else
      var rest := PresentGenres(games[1..]);
      assert forall i :: 1 <= i < |games| ==> games[i] == games[1..][i - 1];
      if Truthy(games[0].genre) then [games[0].genre.value] + rest else rest
  }

  /** No value occurs twice. */
  ghost predicate NoRepeats(s: seq<string>) {
    forall x :: multiset(s)[x] <= 1
  }

  /** `[...new Set(s)]`: the first occurrence of every value, in order. */
  function Dedupe(s: seq<string>): (r: seq<string>)
    ensures NoRepeats(r)
    ensures forall x :: x in r <==> x in s
    decreases |s|
  {
    if s == [] then []
    else
      var init, last := s[..|s| - 1], s[|s| - 1];
      assert s == init + [last];
      var r := Dedupe(init);
      if last in r then r
      else
        assert multiset(r)[last] == 0;
        r + [last]
  }

  function StringKey(s: string): Key {
    Str(s)
  }

  /** The genre pills: every non-empty genre of the backlog once, in ascending code-unit order. */
  function UniqueGenres(games: seq<Game>): (r: seq<string>)
    ensures forall x :: x in r <==> exists i :: 0 <= i < |games| && games[i].genre == Some(x) && x != ""
    ensures forall i, j :: 0 <= i < j < |r| ==> LexLess(r[i], r[j])
  {
    var d := Dedupe(PresentGenres(games));
    var r := SortBy(d, StringKey, false);
    SameElements(r, d);
    StrictlyAscending(r);
    r
  }

  lemma SameElements(r: seq<string>, d: seq<string>)
    requires multiset(r) == multiset(d) && NoRepeats(d)
    ensures NoRepeats(r)
    ensures forall x :: x in r <==> x in d
  {
    forall x ensures x in r <==> x in d {
      assert x in r <==> x in multiset(r);
      assert x in d <==> x in multiset(d);
    }
  }

  /** Sorted without repeats is strictly ascending. */
  lemma StrictlyAscending(r: seq<string>)
    requires NoRepeats(r) && Sorted(r, StringKey, false)
    ensures forall i, j :: 0 <= i < j < |r| ==> LexLess(r[i], r[j])
  {
    forall i, j | 0 <= i < j < |r| ensures LexLess(r[i], r[j]) {
      DistinctAt(r, i, j);
      LexTrichotomy(r[i], r[j]);
      assert InOrder(StringKey(r[i]), StringKey(r[j]), false);
    }
  }

  /** In a sequence without repeats two positions hold different values. */
  lemma DistinctAt(r: seq<string>, i: int, j: int)
    requires NoRepeats(r) && 0 <= i < j < |r|
    ensures r[i] != r[j]
  {
    var x := r[j];
    assert r == r[..j] + r[j..];
    assert x in r[j..];
    assert multiset(r)[x] == multiset(r[..j])[x] + multiset(r[j..])[x];
    assert multiset(r[..j])[x] == 0;
    assert r[i] in r[..j];
  }

  function HasGenre(genre: string): Game -> bool {
    (g: Game) => g.genre == Some(genre)
  }

  /** The games in the pool: all of them for "All", otherwise those of exactly that genre,
      in backlog order. */
  function FilteredGames(games: seq<Game>, selected: string): (r: seq<Game>)
    ensures selected == AllGenres ==> r == games
    ensures selected != AllGenres ==> SubsequenceOf(r, games)
    ensures selected != AllGenres ==> forall i :: 0 <= i < |r| ==> r[i].genre == Some(selected)
    ensures selected != AllGenres ==>
              forall i :: 0 <= i < |games| && games[i].genre == Some(selected) ==> games[i] in r
    ensures selected != AllGenres ==>
              forall g :: multiset(r)[g] == if g.genre == Some(selected) then multiset(games)[g] else 0
  {
    if selected == AllGenres then games
    else
      FilterCounts(games, HasGenre(selected));
      Filter(games, HasGenre(selected))
  }

  /** Choosing a genre pill never shows a game of another genre, and shows at least one game. */
  lemma PillShowsItsGames(games: seq<Game>, genre: string)
    requires genre in UniqueGenres(games) && genre != AllGenres
    ensures 0 < |FilteredGames(games, genre)| <= |games|
  {
    var i :| 0 <= i < |games| && games[i].genre == Some(genre) && genre != "";
    assert games[i] in FilteredGames(games, genre);
  }

  class SelectionState {
    var selectedGenre: string

    constructor ()
      ensures selectedGenre == AllGenres
    {
      selectedGenre := AllGenres;
    }

    /** The "All" pill. */
    method SelectAll()
      modifies this
      ensures selectedGenre == AllGenres
    {
      selectedGenre := AllGenres;
    }

    /** A genre pill. */
    method SelectGenre(genre: string)
      modifies this
      ensures selectedGenre == genre
    {
      selectedGenre := genre;
    }

    /** The "N Selected" and "N games included" counters. */
    function SelectedCount(games: seq<Game>): (n: nat)
      reads this
      ensures n <= |games|
      ensures selectedGenre == AllGenres ==> n == |games|
    {
      |FilteredGames(games, selectedGenre)|
    }
  }
}
