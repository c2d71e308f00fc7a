/** The figures of the statistics page, derived from the store's game list: totals,
    counts per status and per genre, rounded percentages, the score histogram, the average
    score and the ten best games by score or by release year. */
module Statistics {
  import opened Common
  import opened Sorting
  import opened GamesSlice

  datatype TopSort = ByScore | ByYear

  /** One genre bar: its name, how many games have it, and its rounded share in percent. */
  datatype GenreShare = GenreShare(genre: string, count: nat, percentage: nat)

  type Counts = seq<(string, nat)>

  datatype Stats = Stats(
    totalGames: nat,
    totalHours: int,
    completedCount: nat,
    backlogCount: nat,
    completionRate: nat,
    statusCounts: Counts,
    sortedGenres: seq<GenreShare>,
    scoreBuckets: seq<nat>,
    maxBucketSize: nat,
    averageScore: Option<real>,
    topGames: seq<Game>)

  // ---------------------------------------------------------------------------
  // Rounding
  // ---------------------------------------------------------------------------

  /** `Math.round(part / total * 100)` on exact rationals: the nearest integer to the
      percentage, halves rounded up. */
  function RoundPercent(part: nat, total: nat): (r: nat)
    requires total > 0
    ensures 2 * total * r <= 200 * part + total < 2 * total * (r + 1)
    ensures part <= total ==> r <= 100
  {
    var r := (200 * part + total) / (2 * total);
    assert part <= total ==> 200 * part + total < 2 * total * 101;
    r
  }

  // ---------------------------------------------------------------------------
  // Totals
  // ---------------------------------------------------------------------------

  /** `games.reduce((acc, g) => acc + (g.hours || 0), 0)`. */
  function TotalHours(games: seq<Game>): (r: int)
    ensures (forall i :: 0 <= i < |games| ==> games[i].hours.GetOr(0) >= 0) ==> r >= 0
    ensures (forall i :: 0 <= i < |games| ==> games[i].hours.None?) ==> r == 0
    decreases |games|
  {
    if games == [] then 0
    else TotalHours(games[..|games| - 1]) + games[|games| - 1].hours.GetOr(0)
  }

  // ---------------------------------------------------------------------------
  // Counting by key, in first-appearance order (the object the page builds)
  // ---------------------------------------------------------------------------

  function IndexOfKey(t: Counts, k: string): (i: int)
    ensures -1 <= i < |t|
    ensures i >= 0 ==> t[i].0 == k
    ensures i < 0 ==> forall j :: 0 <= j < |t| ==> t[j].0 != k
    decreases |t|
  {
    if t == [] then -1
    else if t[0].0 == k then 0
    else
      var i := IndexOfKey(t[1..], k);
      assert forall j :: 1 <= j < |t| ==> t[j] == t[1..][j - 1];
      if i < 0 then -1 else i + 1
  }

  /** `acc[k] || 0`. */
  function Lookup(t: Counts, k: string): nat {
    var i := IndexOfKey(t, k);
    if i < 0 then 0 else t[i].1
  }

  /** `acc[k] = (acc[k] || 0) + 1`. */
  function Bump(t: Counts, k: string): Counts {
    var i := IndexOfKey(t, k);
    if i < 0 then t + [(k, 1)] else t[i := (k, t[i].1 + 1)]
  }

  function Tally(keys: seq<string>): Counts
    decreases |keys|
  {
    if keys == [] then [] else Bump(Tally(keys[..|keys| - 1]), keys[|keys| - 1])
  }

  function Occurrences(keys: seq<string>, k: string): nat
    decreases |keys|
  {
    if keys == [] then 0
    else Occurrences(keys[..|keys| - 1], k) + (if keys[|keys| - 1] == k then 1 else 0)
  }

  function SumCounts(t: Counts): nat
    decreases |t|
  {
    if t == [] then 0 else t[0].1 + SumCounts(t[1..])
  }

  ghost predicate DistinctKeys(t: Counts) {
    forall i, j :: 0 <= i < j < |t| ==> t[i].0 != t[j].0
  }

  lemma LookupAt(t: Counts, i: nat)
    requires DistinctKeys(t) && i < |t|
    ensures Lookup(t, t[i].0) == t[i].1
  {
  }

  lemma {:induction false} SumCountsAppend(t: Counts, e: (string, nat))
    ensures SumCounts(t + [e]) == SumCounts(t) + e.1
    decreases |t|
  {
    if t != [] {
      assert (t + [e])[1..] == t[1..] + [e];
      SumCountsAppend(t[1..], e);
    }
  }

  lemma {:induction false} SumCountsUpdate(t: Counts, i: nat, e: (string, nat))
    requires i < |t|
    ensures SumCounts(t[i := e]) + t[i].1 == SumCounts(t) + e.1
    decreases |t|
  {
    if i > 0 {
      assert t[i := e][1..] == t[1..][i - 1 := e];
      SumCountsUpdate(t[1..], i - 1, e);
    }
  }

  /** One more occurrence of `k`: its count goes up by one, a new key goes last, every
      other count stays. */
  lemma BumpFacts(t: Counts, k: string)
    requires DistinctKeys(t)
    ensures DistinctKeys(Bump(t, k))
    ensures Lookup(Bump(t, k), k) == Lookup(t, k) + 1
    ensures forall k' :: k' != k ==> Lookup(Bump(t, k), k') == Lookup(t, k')
    ensures SumCounts(Bump(t, k)) == SumCounts(t) + 1
    ensures forall j :: 0 <= j < |Bump(t, k)| ==> Bump(t, k)[j].0 == k || (exists j' :: 0 <= j' < |t| && t[j'].0 == Bump(t, k)[j].0)
    ensures (forall j :: 0 <= j < |t| ==> t[j].1 > 0) ==> forall j :: 0 <= j < |Bump(t, k)| ==> Bump(t, k)[j].1 > 0
  {
    var i := IndexOfKey(t, k);
    var b := Bump(t, k);
    if i < 0 {
      SumCountsAppend(t, (k, 1));
      LookupAt(b, |t|);
      forall k' | k' != k ensures Lookup(b, k') == Lookup(t, k') {
        var i' := IndexOfKey(t, k');
        if i' >= 0 {
          LookupAt(b, i');
        } else {
          assert forall j :: 0 <= j < |b| ==> b[j].0 != k';
        }
      }
    } else {
      SumCountsUpdate(t, i, (k, t[i].1 + 1));
      LookupAt(b, i);
      LookupAt(t, i);
      forall k' | k' != k ensures Lookup(b, k') == Lookup(t, k') {
        var i' := IndexOfKey(t, k');
        if i' >= 0 {
          LookupAt(b, i');
        } else {
          assert forall j :: 0 <= j < |b| ==> b[j].0 != k';
        }
      }
    }
  }

  /** The tally lists each key once, its count is the number of times the key occurs,
      every count is positive, and the counts add up to the number of keys. */
  lemma {:induction false} TallyFacts(keys: seq<string>)
    ensures DistinctKeys(Tally(keys))
    ensures forall k :: Lookup(Tally(keys), k) == Occurrences(keys, k)
    ensures SumCounts(Tally(keys)) == |keys|
    ensures forall j :: 0 <= j < |Tally(keys)| ==> Tally(keys)[j].0 in keys && Tally(keys)[j].1 > 0
    decreases |keys|
  {
    if keys != [] {
      var init, x := keys[..|keys| - 1], keys[|keys| - 1];
      TallyFacts(init);
      BumpFacts(Tally(init), x);
      var t := Tally(keys);
      forall j | 0 <= j < |t| ensures t[j].0 in keys && t[j].1 > 0 {
        if t[j].0 != x {
          var j' :| 0 <= j' < |Tally(init)| && Tally(init)[j'].0 == t[j].0;
          assert Tally(init)[j'].0 in init;
        }
      }
    }
  }

  // ---------------------------------------------------------------------------
  // Status and genre counts
  // ---------------------------------------------------------------------------

  /** `game.status || 'Unknown'`. */
  function StatusKey(g: Game): string {
    if g.status == "" then "Unknown" else g.status
  }

  /** `game.genre || 'Unknown'`. */
  function GenreKey(g: Game): string {
    if Truthy(g.genre) then g.genre.value else "Unknown"
  }

  function StatusKeys(games: seq<Game>): seq<string> {
    seq(|games|, i requires 0 <= i < |games| => StatusKey(games[i]))
  }

  function GenreKeys(games: seq<Game>): seq<string> {
    seq(|games|, i requires 0 <= i < |games| => GenreKey(games[i]))
  }

  function StatusCounts(games: seq<Game>): Counts {
    Tally(StatusKeys(games))
  }

  function GenreCounts(games: seq<Game>): Counts {
    Tally(GenreKeys(games))
  }

  /** The status counts add up to the number of games; the number of finished games,
      and so the completion rate, never exceed it. */
  lemma StatusCountsProperties(games: seq<Game>)
    ensures SumCounts(StatusCounts(games)) == |games|
    ensures DistinctKeys(StatusCounts(games))
    ensures Lookup(StatusCounts(games), "Finished") <= |games|
    ensures |games| > 0 ==> RoundPercent(Lookup(StatusCounts(games), "Finished"), |games|) <= 100
  {
    TallyFacts(StatusKeys(games));
    OccurrencesBound(StatusKeys(games), "Finished");
  }

  lemma {:induction false} OccurrencesBound(keys: seq<string>, k: string)
    ensures Occurrences(keys, k) <= |keys|
    decreases |keys|
  {
    if keys != [] {
      OccurrencesBound(keys[..|keys| - 1], k);
    }
  }

  /** Three different keys occur, together, at most once per position. */
  lemma {:induction false} OccurrencesOfThree(keys: seq<string>, a: string, b: string, c: string)
    requires a != b && b != c && a != c
    ensures Occurrences(keys, a) + Occurrences(keys, b) + Occurrences(keys, c) <= |keys|
    decreases |keys|
  {
    if keys != [] {
      OccurrencesOfThree(keys[..|keys| - 1], a, b, c);
    }
  }

  function Shares(counts: Counts, total: nat): (r: seq<GenreShare>)
    requires total > 0
    ensures |r| == |counts|
  {
    seq(|counts|, i requires 0 <= i < |counts| =>
      GenreShare(counts[i].0, counts[i].1, RoundPercent(counts[i].1, total)))
  }

  function ShareKey(s: GenreShare): Key {
    Num(s.count as real)
  }

  /** The five largest genres, largest first; ties keep first-appearance order. */
  function SortedGenres(games: seq<Game>): seq<GenreShare>
    requires |games| > 0
  {
    Take(SortBy(Shares(GenreCounts(games), |games|), ShareKey, true), 5)
  }

  /** At most five genres are shown, in non-increasing order of count, and no genre
      left out is larger than one shown. */
  lemma SortedGenresOrder(games: seq<Game>)
    requires |games| > 0
    ensures var r := SortedGenres(games);
      && |r| <= 5
      && (forall i, j :: 0 <= i < j < |r| ==> r[i].count >= r[j].count)
      && (forall i, g :: 0 <= i < |r| && g in multiset(Shares(GenreCounts(games), |games|)) - multiset(r) ==>
            r[i].count >= g.count)
  {
    var shares := Shares(GenreCounts(games), |games|);
    var r := SortedGenres(games);
    TopOfSorted(shares, ShareKey, true, 5);
    forall i, j | 0 <= i < j < |r| ensures r[i].count >= r[j].count {
      assert InOrder(ShareKey(r[i]), ShareKey(r[j]), true);
    }
    forall i, g | 0 <= i < |r| && g in multiset(shares) - multiset(r) ensures r[i].count >= g.count {
      assert InOrder(ShareKey(r[i]), ShareKey(g), true);
    }
  }

  /** Each shown genre carries its true number of games and its rounded share. */
  lemma SortedGenresEntries(games: seq<Game>)
    requires |games| > 0
    ensures var r := SortedGenres(games);
      forall i :: 0 <= i < |r| ==>
        && r[i].count == Occurrences(GenreKeys(games), r[i].genre)
        && r[i].count > 0
        && r[i].percentage == RoundPercent(r[i].count, |games|)
  {
    var counts := GenreCounts(games);
    var shares := Shares(counts, |games|);
    var r := SortedGenres(games);
    TallyFacts(GenreKeys(games));
    TopOfSorted(shares, ShareKey, true, 5);
    forall i | 0 <= i < |r| ensures r[i].count == Occurrences(GenreKeys(games), r[i].genre) && r[i].count > 0
                                  && r[i].percentage == RoundPercent(r[i].count, |games|) {
      assert r[i] in multiset(shares);
      ShareEntry(counts, |games|, r[i]);
    }
  }

  lemma ShareEntry(counts: Counts, total: nat, s: GenreShare)
    requires total > 0 && DistinctKeys(counts) && s in multiset(Shares(counts, total))
    requires forall j :: 0 <= j < |counts| ==> counts[j].1 > 0
    ensures s.count == Lookup(counts, s.genre) && s.count > 0 && s.percentage == RoundPercent(s.count, total)
  {
    var shares := Shares(counts, total);
    var n :| 0 <= n < |shares| && shares[n] == s;
    LookupAt(counts, n);
  }

  /** The first `n` of a sorted permutation: drawn from the input, in order, and ranking
      no lower than anything left out. */
  lemma TopOfSorted<T>(s: seq<T>, key: T -> Key, desc: bool, n: nat)
    ensures var r := Take(SortBy(s, key, desc), n);
      && |r| == (if n < |s| then n else |s|)
      && multiset(r) <= multiset(s)
      && Sorted(r, key, desc)
      && (forall i, x :: 0 <= i < |r| && x in multiset(s) - multiset(r) ==> InOrder(key(r[i]), key(x), desc))
  {
    var sorted := SortBy(s, key, desc);
    var r := Take(sorted, n);
    var rest := sorted[|r|..];
    assert sorted == r + rest;
    assert multiset(sorted) == multiset(r) + multiset(rest);
    forall i, x | 0 <= i < |r| && x in multiset(s) - multiset(r) ensures InOrder(key(r[i]), key(x), desc) {
      assert x in multiset(rest);
      var j :| 0 <= j < |rest| && rest[j] == x;
      assert sorted[|r| + j] == x && sorted[i] == r[i];
    }
  }

  // ---------------------------------------------------------------------------
  // Score histogram and average
  // ---------------------------------------------------------------------------

  /** Buckets for scores below 3, below 5, below 7, below 9, and the rest. */
  function BucketOf(score: real): (b: nat)
    ensures b < 5
    ensures b == 0 <==> score < 3.0
    ensures b == 4 <==> score >= 9.0
    ensures 0 < b < 4 ==> 2.0 * b as real + 1.0 <= score < 2.0 * b as real + 3.0
  {
    if score < 3.0 then 0
    else if score < 5.0 then 1
    else if score < 7.0 then 2
    else if score < 9.0 then 3
    else 4
  }

  function BucketCount(games: seq<Game>, b: nat): nat
    decreases |games|
  {
    if games == [] then 0
    else
      var g := games[|games| - 1];
      BucketCount(games[..|games| - 1], b) + (if g.score.Some? && BucketOf(g.score.value) == b then 1 else 0)
  }

  function ScoredCount(games: seq<Game>): nat
    decreases |games|
  {
    if games == [] then 0
    else ScoredCount(games[..|games| - 1]) + (if games[|games| - 1].score.Some? then 1 else 0)
  }

  function ScoreSum(games: seq<Game>): real
    decreases |games|
  {
    if games == [] then 0.0
    else ScoreSum(games[..|games| - 1]) + games[|games| - 1].score.GetOr(0.0)
  }

  function Buckets(games: seq<Game>): seq<nat> {
    [BucketCount(games, 0), BucketCount(games, 1), BucketCount(games, 2), BucketCount(games, 3), BucketCount(games, 4)]
  }

  /** Every score lands in exactly one bucket, so the buckets add up to the number of scored games. */
  lemma {:induction false} BucketsSum(games: seq<Game>)
    ensures Sum(Buckets(games)) == ScoredCount(games)
    decreases |games|
  {
    SumOfBuckets(games);
    if games != [] {
      BucketsSum(games[..|games| - 1]);
      SumOfBuckets(games[..|games| - 1]);
    }
  }

  lemma SumOfBuckets(games: seq<Game>)
    ensures Sum(Buckets(games)) == BucketCount(games, 0) + BucketCount(games, 1) + BucketCount(games, 2)
                                   + BucketCount(games, 3) + BucketCount(games, 4)
  {
    var b := Buckets(games);
    assert [b[4]][1..] == [];
    assert Sum([b[4]]) == b[4];
    assert b[3..][1..] == [b[4]];
    assert Sum(b[3..]) == b[3] + b[4];
    assert b[2..][1..] == b[3..];
    assert Sum(b[2..]) == b[2] + b[3] + b[4];
    assert b[1..][1..] == b[2..];
    assert Sum(b[1..]) == b[1] + b[2] + b[3] + b[4];
  }

  /** No score at all is exactly the case with nothing counted. */
  lemma {:induction false} NoScores(games: seq<Game>)
    ensures ScoredCount(games) == 0 <==> forall i :: 0 <= i < |games| ==> games[i].score.None?
    decreases |games|
  {
    if games != [] {
      var init := games[..|games| - 1];
      NoScores(init);
      assert forall i :: 0 <= i < |init| ==> init[i] == games[i];
    }
  }

  function Average(games: seq<Game>): Option<real> {
    var n := ScoredCount(games);
    if n > 0 then Some(ScoreSum(games) / n as real) else None
  }

  /** The average is missing (`'N/A'`) exactly when no game has a score. */
  lemma AverageMissing(games: seq<Game>)
    ensures Average(games).None? <==> forall i :: 0 <= i < |games| ==> games[i].score.None?
  {
    NoScores(games);
  }

  /** `Math.max(...buckets)`. */
  function MaxOf(s: seq<nat>): (m: nat)
    requires s != []
    ensures m in s && forall i :: 0 <= i < |s| ==> s[i] <= m
    decreases |s|
  {
    if |s| == 1 then s[0]
    else
      var m := MaxOf(s[1..]);
      assert forall i :: 1 <= i < |s| ==> s[i] == s[1..][i - 1];
      if s[0] >= m then s[0] else m
  }

  // ---------------------------------------------------------------------------
  // Top ten
  // ---------------------------------------------------------------------------

  /** The number a top-ten entry ranks by: its release year or its score, missing as 0. */
  function TopKey(mode: TopSort): Game -> Key {
    match mode
    case ByYear => (g: Game) => Num(g.releaseYear.GetOr(0) as real)
    case ByScore => (g: Game) => Num(g.score.GetOr(0.0))
  }

  /** The ten best games: a stable sort by the key, highest first, cut to ten. */
  function TopGames(games: seq<Game>, mode: TopSort): (r: seq<Game>)
    ensures |r| == if |games| < 10 then |games| else 10
    ensures multiset(r) <= multiset(games)
    ensures Sorted(r, TopKey(mode), true)
    ensures forall i, g :: 0 <= i < |r| && g in multiset(games) - multiset(r) ==> InOrder(TopKey(mode)(r[i]), TopKey(mode)(g), true)
  {
    TopOfSorted(games, TopKey(mode), true, 10);
    Take(SortBy(games, TopKey(mode), true), 10)
  }

  /** Games with equal keys keep their list order in the sorted list the top ten is cut from. */
  lemma TopGamesStable(games: seq<Game>, mode: TopSort, k: Key)
    ensures WithKey(SortBy(games, TopKey(mode), true), TopKey(mode), k) == WithKey(games, TopKey(mode), k)
    ensures TopGames(games, mode) == SortBy(games, TopKey(mode), true)[..|TopGames(games, mode)|]
  {
    SortByStable(games, TopKey(mode), true, k);
  }

  // ---------------------------------------------------------------------------
  // The whole computation
  // ---------------------------------------------------------------------------

  /** The figures for a non-empty list. */
  function StatsOf(games: seq<Game>, mode: TopSort): Stats
    requires |games| > 0
  {
    var counts := StatusCounts(games);
    var completed := Lookup(counts, "Finished");
    var buckets := Buckets(games);
    Stats(|games|, TotalHours(games), completed,
          Lookup(counts, "Unplayed") + Lookup(counts, "Playing"),
          RoundPercent(completed, |games|), counts, SortedGenres(games), buckets,
          MaxOf(buckets), Average(games), TopGames(games, mode))
  }

  /** The score pass: one loop over the games updating the running total, the number of
      scored games and the bucket array. */
  method ScorePass(games: seq<Game>) returns (buckets: seq<nat>, totalScore: real, scoredGamesCount: nat)
    ensures buckets == Buckets(games)
    ensures totalScore == ScoreSum(games)
    ensures scoredGamesCount == ScoredCount(games)
  {
    var scoreBuckets := new nat[5](_ => 0);
    totalScore, scoredGamesCount := 0.0, 0;
    for i := 0 to |games|
      invariant scoreBuckets[..] == Buckets(games[..i])
      invariant totalScore == ScoreSum(games[..i])
      invariant scoredGamesCount == ScoredCount(games[..i])
    {
      assert games[..i + 1][..i] == games[..i];
      var score := games[i].score;
      if score.Some? {
        totalScore := totalScore + score.value;
        scoredGamesCount := scoredGamesCount + 1;
        var b := BucketOf(score.value);
        scoreBuckets[b] := scoreBuckets[b] + 1;
      }
    }
    assert games[..|games|] == games;
    buckets := scoreBuckets[..];
  }

  /** The score figures: the bucket array and the average over the scored games. */
  method ScoreFigures(games: seq<Game>) returns (buckets: seq<nat>, averageScore: Option<real>)
    ensures buckets == Buckets(games) && averageScore == Average(games)
  {
    var totalScore, scoredGamesCount;
    buckets, totalScore, scoredGamesCount := ScorePass(games);
    averageScore := if scoredGamesCount > 0 then Some(totalScore / scoredGamesCount as real) else None;
  }

  /** The status figures: the tally, the finished and backlog counts, the completion rate. */
  method StatusFigures(games: seq<Game>) returns (counts: Counts, completed: nat, backlog: nat, rate: nat)
    requires |games| > 0
    ensures counts == StatusCounts(games) && completed == Lookup(counts, "Finished")
    ensures backlog == Lookup(counts, "Unplayed") + Lookup(counts, "Playing")
    ensures rate == RoundPercent(completed, |games|)
    ensures DistinctKeys(counts) && SumCounts(counts) == |games|
    ensures completed == Occurrences(StatusKeys(games), "Finished")
    ensures completed + backlog <= |games| && rate <= 100
  {
    TallyFacts(StatusKeys(games));
    OccurrencesOfThree(StatusKeys(games), "Finished", "Unplayed", "Playing");
    counts := StatusCounts(games);
    completed := Lookup(counts, "Finished");
    backlog := Lookup(counts, "Unplayed") + Lookup(counts, "Playing");
    rate := RoundPercent(completed, |games|);
  }

  /** The `stats` memo: nothing for an empty list, otherwise every figure of the page. */
  method ComputeStats(games: seq<Game>, mode: TopSort) returns (r: Option<Stats>)
    ensures r.None? <==> |games| == 0
    ensures r.Some? ==> r.value == StatsOf(games, mode)
  {
    if |games| == 0 {
      return None;
    }
    var counts, completedCount, backlogCount, completionRate := StatusFigures(games);
    var buckets, averageScore := ScoreFigures(games);
    var stats := Stats(|games|, TotalHours(games), completedCount, backlogCount, completionRate, counts,
                       SortedGenres(games), buckets, MaxOf(buckets), averageScore, TopGames(games, mode));
    r := Some(stats);
  }
}
