/**
  The recommendation engine of recommendation.py: from the song catalog and the
  attempt history it computes each song's crowd difficulty, the user's
  difficulty target and completed songs, chooses between the personalised
  ("warm") path and the cold-start path, scores the candidate songs and returns
  the best `top_n` of them.

  The database queries are replaced by two input sequences: `catalog`, every
  row of the song information table, and `attempts`, every row of the attempts
  table. Feature standardisation, the user's taste profile and cosine
  similarity are replaced by the parameter `sim`: `sim(catalog, profile, song)`
  is the similarity between `song` and the profile built from the rows
  `profile` of `catalog`.
*/
module Recommender {
  import opened Wrappers
  import opened Models
  import opened Ranking
  import Stats

  /** The tunable parameters of `get_recommendations`. */
  datatype Config = Config(alpha: real, defaultDifficulty: real, topN: int)

  /** The defaults of `get_recommendations`: alpha 0.1, default difficulty 3.0, five results. */
  const Defaults := Config(0.1, 3.0, 5)

  type Similarity = (seq<Song>, seq<Song>, Song) -> real

  // ---------------------------------------------------------------------------
  // Attempt queries
  // ---------------------------------------------------------------------------

  /** The two attempt filters the engine queries with. */
  datatype Selection =
    | CompletedBy(userId: int) // one user's fully completed, rated attempts
    | RatedOn(songId: int)     // every user's rated attempts on one song, completed or not

  predicate Selects(sel: Selection, a: Attempt)
  {
    match sel
    case CompletedBy(u) => a.userId == u && a.completion == 1.0 && IsRated(a)
    case RatedOn(s) => a.songId == s && IsRated(a)
  }

  /** The attempts `sel` selects, in history order; each selected attempt is kept as often as it occurs. */
  function Select(attempts: seq<Attempt>, sel: Selection): (r: seq<Attempt>)
    ensures forall a :: multiset(r)[a] == if Selects(sel, a) then multiset(attempts)[a] else 0
  {
    if attempts == [] then []
    else
      var init, last := attempts[..|attempts| - 1], attempts[|attempts| - 1];
      assert attempts == init + [last];
      if Selects(sel, last) then Select(init, sel) + [last] else Select(init, sel)
  }

  /** A selection is empty exactly when no attempt of the history matches it. */
  lemma SelectEmptyIff(attempts: seq<Attempt>, sel: Selection)
    ensures Select(attempts, sel) == [] <==> forall i :: 0 <= i < |attempts| ==> !Selects(sel, attempts[i])
  {
    var r := Select(attempts, sel);
    if r != [] {
      assert multiset(r)[r[0]] > 0;
      assert r[0] in multiset(attempts);
    }
    forall i | 0 <= i < |attempts| && Selects(sel, attempts[i])
      ensures r != []
    {
      assert multiset(attempts)[attempts[i]] > 0;
    }
  }

  function Ratings(attempts: seq<Attempt>): seq<int>
  {
    seq(|attempts|, i requires 0 <= i < |attempts| => attempts[i].rating)
  }

  /** The ratings of selected attempts lie in [lo, NotRated - 1] when every rating of the history is at least lo. */
  lemma SelectedRatingsInRange(attempts: seq<Attempt>, sel: Selection, lo: int)
    requires forall i :: 0 <= i < |attempts| ==> lo <= attempts[i].rating
    ensures forall i :: 0 <= i < |Select(attempts, sel)| ==> lo <= Ratings(Select(attempts, sel))[i] <= NotRated - 1
  {
    var r := Select(attempts, sel);
    forall i | 0 <= i < |r|
      ensures lo <= Ratings(r)[i] <= NotRated - 1
    {
      assert multiset(r)[r[i]] > 0;
      assert r[i] in multiset(attempts);
    }
  }

  // ---------------------------------------------------------------------------
  // The user's history: completed songs and difficulty target
  // ---------------------------------------------------------------------------

  /** Ids of the songs the user completed with a rating. */
  function CompletedSongs(attempts: seq<Attempt>, userId: int): (done: set<int>)
    ensures forall id :: id in done <==>
      exists i :: 0 <= i < |attempts| && Selects(CompletedBy(userId), attempts[i]) && attempts[i].songId == id
  {
    var r := Select(attempts, CompletedBy(userId));
    assert forall a :: a in r <==> a in attempts && Selects(CompletedBy(userId), a) by {
      forall a ensures a in r <==> a in attempts && Selects(CompletedBy(userId), a) {
        assert a in r <==> multiset(r)[a] > 0;
        assert a in attempts <==> multiset(attempts)[a] > 0;
      }
    }
    set a | a in r :: a.songId
  }

  /** The mean rating of the user's completed, rated attempts, if there is any. */
  function DifficultyTarget(attempts: seq<Attempt>, userId: int): Option<real>
  {
    var done := Select(attempts, CompletedBy(userId));
    if done == [] then None else Some(Stats.Mean(Ratings(done)))
  }

  /**
    The target is defined exactly when the user has a completed, rated attempt;
    it is then the mean rating over those attempts, each attempt counted once
    (repeats of a song each count), and it lies in [lo, 5] when every rating is
    at least lo.
  */
  lemma DifficultyTargetIsMean(attempts: seq<Attempt>, userId: int, lo: int)
    requires forall i :: 0 <= i < |attempts| ==> lo <= attempts[i].rating
    ensures DifficultyTarget(attempts, userId).Some? <==>
      exists i :: 0 <= i < |attempts| && Selects(CompletedBy(userId), attempts[i])
    ensures DifficultyTarget(attempts, userId).Some? ==>
      DifficultyTarget(attempts, userId).value == Stats.Mean(Ratings(Select(attempts, CompletedBy(userId))))
      && lo as real <= DifficultyTarget(attempts, userId).value <= (NotRated - 1) as real
  {
    SelectEmptyIff(attempts, CompletedBy(userId));
    var done := Select(attempts, CompletedBy(userId));
    if done != [] {
      SelectedRatingsInRange(attempts, CompletedBy(userId), lo);
      Stats.MeanBounds(Ratings(done), lo, NotRated - 1);
    }
  }

  // ---------------------------------------------------------------------------
  // Crowd difficulty
  // ---------------------------------------------------------------------------

  /** Songs with at least one rated attempt by any user. */
  function RatedSongs(attempts: seq<Attempt>): set<int>
  {
    set a | a in attempts && IsRated(a) :: a.songId
  }

  lemma RatedSongHasRatings(attempts: seq<Attempt>, id: int)
    requires id in RatedSongs(attempts)
    ensures Select(attempts, RatedOn(id)) != []
  {
    var a :| a in attempts && IsRated(a) && a.songId == id;
    var i :| 0 <= i < |attempts| && attempts[i] == a;
    SelectEmptyIff(attempts, RatedOn(id));
  }

  /** The grouped average of ratings below the sentinel, per song, over every user's attempts. */
  function DifficultyBySong(attempts: seq<Attempt>): map<int, real>
  {
    map id | id in RatedSongs(attempts) ::
      RatedSongHasRatings(attempts, id); Stats.Mean(Ratings(Select(attempts, RatedOn(id))))
  }

  /** A song's difficulty: its grouped average when it has one, the configured default otherwise. */
  function Difficulty(bySong: map<int, real>, id: int, defaultDifficulty: real): real
  {
    if id in bySong then bySong[id] else defaultDifficulty
  }

  /**
    A song's difficulty is the mean rating over every rated attempt on it, by
    any user and whatever its completion; a song without one gets exactly the
    default.
  */
  lemma CrowdDifficulty(attempts: seq<Attempt>, id: int, defaultDifficulty: real)
    ensures var rated := Select(attempts, RatedOn(id));
      Difficulty(DifficultyBySong(attempts), id, defaultDifficulty)
      == if rated == [] then defaultDifficulty else Stats.Mean(Ratings(rated))
    ensures (forall i :: 0 <= i < |attempts| ==> !Selects(RatedOn(id), attempts[i])) ==>
      Difficulty(DifficultyBySong(attempts), id, defaultDifficulty) == defaultDifficulty
  {
    SelectEmptyIff(attempts, RatedOn(id));
    var rated := Select(attempts, RatedOn(id));
    if rated == [] {
      if id in RatedSongs(attempts) {
        RatedSongHasRatings(attempts, id);
      }
    } else {
      var a := rated[0];
      assert multiset(rated)[a] > 0;
      assert a in multiset(attempts);
      assert id in RatedSongs(attempts);
    }
  }

  /** With every rating at least lo, a song with ratings has a difficulty in [lo, 5]. */
  lemma CrowdDifficultyInRange(attempts: seq<Attempt>, id: int, defaultDifficulty: real, lo: int)
    requires forall i :: 0 <= i < |attempts| ==> lo <= attempts[i].rating
    requires exists i :: 0 <= i < |attempts| && Selects(RatedOn(id), attempts[i])
    ensures lo as real <= Difficulty(DifficultyBySong(attempts), id, defaultDifficulty) <= (NotRated - 1) as real
  {
    CrowdDifficulty(attempts, id, defaultDifficulty);
    SelectEmptyIff(attempts, RatedOn(id));
    SelectedRatingsInRange(attempts, RatedOn(id), lo);
    Stats.MeanBounds(Ratings(Select(attempts, RatedOn(id))), lo, NotRated - 1);
  }

  // ---------------------------------------------------------------------------
  // Warm or cold start
  // ---------------------------------------------------------------------------

  /** The catalog rows whose id the user completed: the rows the taste profile is built from. */
  function ProfileSongs(catalog: seq<Song>, done: set<int>): (p: seq<Song>)
    ensures forall s :: multiset(p)[s] == if s.id in done then multiset(catalog)[s] else 0
    ensures forall s :: s in p <==> s in catalog && s.id in done
  {
    if catalog == [] then []
    else
      var init, last := catalog[..|catalog| - 1], catalog[|catalog| - 1];
      assert catalog == init + [last];
      if last.id in done then ProfileSongs(init, done) + [last] else ProfileSongs(init, done)
  }

  /** A taste profile exists when some catalog row's id is among the user's completed songs. */
  predicate HasProfile(catalog: seq<Song>, done: set<int>)
  {
    exists i :: 0 <= i < |catalog| && catalog[i].id in done
  }

  /** How candidates are chosen and scored. */
  datatype Plan =
    | Warm(done: set<int>, target: Option<real>, catalog: seq<Song>, profile: seq<Song>, sim: Similarity)
    | ColdStart

  function PlanFor(catalog: seq<Song>, attempts: seq<Attempt>, userId: int, sim: Similarity): Plan
  {
    var done := CompletedSongs(attempts, userId);
    if HasProfile(catalog, done)
    then Warm(done, DifficultyTarget(attempts, userId), catalog, ProfileSongs(catalog, done), sim)
    else ColdStart
  }

  /**
    The warm path is taken exactly when a catalog row's id is the song of one of
    the user's completed, rated attempts.
  */
  lemma WarmPathChoice(catalog: seq<Song>, attempts: seq<Attempt>, userId: int, sim: Similarity)
    ensures PlanFor(catalog, attempts, userId, sim).Warm? <==>
      exists i, j :: 0 <= i < |catalog| && 0 <= j < |attempts|
        && Selects(CompletedBy(userId), attempts[j]) && attempts[j].songId == catalog[i].id
  {
    var done := CompletedSongs(attempts, userId);
    if HasProfile(catalog, done) {
      var i :| 0 <= i < |catalog| && catalog[i].id in done;
      var j :| 0 <= j < |attempts| && Selects(CompletedBy(userId), attempts[j]) && attempts[j].songId == catalog[i].id;
    }
  }

  /**
    On the warm path the difficulty target is always defined, so the branch
    that scores by similarity alone is never taken.
  */
  lemma WarmPathHasTarget(catalog: seq<Song>, attempts: seq<Attempt>, userId: int)
    requires HasProfile(catalog, CompletedSongs(attempts, userId))
    ensures DifficultyTarget(attempts, userId).Some?
  {
    var i :| 0 <= i < |catalog| && catalog[i].id in CompletedSongs(attempts, userId);
    SelectEmptyIff(attempts, CompletedBy(userId));
  }

  // ---------------------------------------------------------------------------
  // Scores
  // ---------------------------------------------------------------------------

  function Abs(x: real): real
  {
    if x < 0.0 then -x else x
  }

  /**
    The warm-path final score: the similarity, lowered by alpha times the gap
    between the song's difficulty and the user's target. Without a target it is
    the similarity itself.
  */
  function WarmScore(similarity: real, difficulty: real, target: Option<real>, alpha: real): (score: real)
    ensures target.None? ==> score == similarity
    ensures 0.0 <= alpha ==> score <= similarity
    ensures target.Some? && 0.0 < alpha ==> (score == similarity <==> difficulty == target.value)
  {
    match target
    case Some(t) => similarity - alpha * Abs(difficulty - t)
    case None => similarity
  }

  /** A larger alpha lowers the score of a song off target and leaves a song on target unchanged. */
  lemma AlphaLowersScore(similarity: real, difficulty: real, target: real, alpha: real, alpha': real)
    requires alpha < alpha'
    ensures difficulty != target ==>
      WarmScore(similarity, difficulty, Some(target), alpha') < WarmScore(similarity, difficulty, Some(target), alpha)
    ensures difficulty == target ==>
      WarmScore(similarity, difficulty, Some(target), alpha') == WarmScore(similarity, difficulty, Some(target), alpha)
  {
  }

  /** The cold-start score: minus the distance from the default difficulty; zero exactly on it. */
  function ColdScore(difficulty: real, defaultDifficulty: real): (score: real)
    ensures score <= 0.0
    ensures score == 0.0 <==> difficulty == defaultDifficulty
    ensures difficulty <= defaultDifficulty ==> score == difficulty - defaultDifficulty
    ensures defaultDifficulty <= difficulty ==> score == defaultDifficulty - difficulty
  {
    -Abs(difficulty - defaultDifficulty)
  }

  // ---------------------------------------------------------------------------
  // Candidate table
  // ---------------------------------------------------------------------------

  /** A catalog row with its difficulty column. */
  datatype Row = Row(song: Song, difficulty: real)

  /** The catalog as a table with the difficulty column filled in, row for row. */
  function Tabulate(catalog: seq<Song>, bySong: map<int, real>, defaultDifficulty: real): seq<Row>
  {
    seq(|catalog|, i requires 0 <= i < |catalog| => Row(catalog[i], Difficulty(bySong, catalog[i].id, defaultDifficulty)))
  }

  /** On the warm path the user's completed songs are left out. */
  predicate Excluded(row: Row, plan: Plan)
  {
    plan.Warm? && row.song.id in plan.done
  }

  function Scored(row: Row, plan: Plan, cfg: Config): Recommendation
  {
    var score := match plan
      case Warm(_, target, catalog, profile, sim) => WarmScore(sim(catalog, profile, row.song), row.difficulty, target, cfg.alpha)
      case ColdStart => ColdScore(row.difficulty, cfg.defaultDifficulty);
    Recommendation(row.song.id, row.song.name, row.song.composer, row.difficulty, score)
  }

  /**
    The scored rows that are not excluded, in table order: every row that is
    not excluded is a candidate, and on the cold-start path, which excludes
    nothing, there are as many candidates as rows.
  */
  function Candidates(rows: seq<Row>, plan: Plan, cfg: Config): (cands: seq<Recommendation>)
    ensures |cands| <= |rows|
    ensures plan.ColdStart? ==> |cands| == |rows|
    ensures forall i :: 0 <= i < |rows| && !Excluded(rows[i], plan) ==> Scored(rows[i], plan, cfg) in cands
  {
    if rows == [] then []
    else
      var init, last := rows[..|rows| - 1], rows[|rows| - 1];
      assert forall i :: 0 <= i < |init| ==> init[i] == rows[i];
      if Excluded(last, plan) then Candidates(init, plan, cfg) else Candidates(init, plan, cfg) + [Scored(last, plan, cfg)]
  }

  /** Conversely, every candidate is the scored form of a row that is not excluded; `i` is that row. */
  lemma {:induction false} CandidateRow(rows: seq<Row>, plan: Plan, cfg: Config, c: Recommendation) returns (i: nat)
    requires c in Candidates(rows, plan, cfg)
    ensures i < |rows| && !Excluded(rows[i], plan) && c == Scored(rows[i], plan, cfg)
  {
    var init, last := rows[..|rows| - 1], rows[|rows| - 1];
    if !Excluded(last, plan) && c == Scored(last, plan, cfg) {
      i := |rows| - 1;
    } else {
      i := CandidateRow(init, plan, cfg, c);
    }
  }

  /**
    Each catalog row that is not excluded yields exactly one candidate: a value
    occurs among the candidates as often as there are non-excluded rows that
    score to it (`SourceRows`), so duplicated rows stay separate candidates.
  */
  lemma {:induction false} CandidateCount(rows: seq<Row>, plan: Plan, cfg: Config, c: Recommendation)
    ensures multiset(Candidates(rows, plan, cfg))[c] == |SourceRows(rows, plan, cfg, c)|
  {
    if rows == [] {
      assert SourceRows(rows, plan, cfg, c) == {};
    } else {
      var init, last := rows[..|rows| - 1], rows[|rows| - 1];
      CandidateCount(init, plan, cfg, c);
      SourceRowsSplit(rows, plan, cfg, c);
      if Yields(last, plan, cfg, c) {
        assert Candidates(rows, plan, cfg) == Candidates(init, plan, cfg) + [c];
      } else {
        assert multiset(Candidates(rows, plan, cfg))[c] == multiset(Candidates(init, plan, cfg))[c];
      }
    }
  }

  lemma SourceRowsSplit(rows: seq<Row>, plan: Plan, cfg: Config, c: Recommendation)
    requires rows != []
    ensures var init, last := rows[..|rows| - 1], rows[|rows| - 1];
      if Yields(last, plan, cfg, c)
      then |SourceRows(rows, plan, cfg, c)| == |SourceRows(init, plan, cfg, c)| + 1
      else SourceRows(rows, plan, cfg, c) == SourceRows(init, plan, cfg, c)
  {
    var init, last := rows[..|rows| - 1], rows[|rows| - 1];
    var rowsSet, initSet := SourceRows(rows, plan, cfg, c), SourceRows(init, plan, cfg, c);
    var lastSet: set<nat> := if Yields(last, plan, cfg, c) then {|rows| - 1} else {};
    forall i: nat
      ensures i in rowsSet <==> i in initSet + lastSet
    {
      if i < |init| {
        assert init[i] == rows[i];
      }
    }
    assert rowsSet == initSet + lastSet;
    assert |rows| - 1 !in initSet;
  }

  /** Row `row` survives the exclusion and scores to `c`. */
  predicate Yields(row: Row, plan: Plan, cfg: Config, c: Recommendation)
  {
    !Excluded(row, plan) && Scored(row, plan, cfg) == c
  }

  /** Indices of the non-excluded rows that score to `c`. */
  function SourceRows(rows: seq<Row>, plan: Plan, cfg: Config, c: Recommendation): set<nat>
  {
    set i: nat | i < |rows| && Yields(rows[i], plan, cfg, c)
  }

  /** The candidate table `get_recommendations` ranks. */
  function CandidatesFor(catalog: seq<Song>, attempts: seq<Attempt>, userId: int, cfg: Config, sim: Similarity): seq<Recommendation>
  {
    Candidates(Tabulate(catalog, DifficultyBySong(attempts), cfg.defaultDifficulty), PlanFor(catalog, attempts, userId, sim), cfg)
  }

  // ---------------------------------------------------------------------------
  // The pipeline
  // ---------------------------------------------------------------------------

  /**
    `get_recommendations`: an empty catalog gives an empty list; otherwise the
    result is the head of the candidate table sorted by descending final score.
  */
  method GetRecommendations(catalog: seq<Song>, attempts: seq<Attempt>, userId: int, cfg: Config, sim: Similarity)
    returns (result: seq<Recommendation>)
    ensures catalog == [] ==> result == []
    ensures IsTopN(result, CandidatesFor(catalog, attempts, userId, cfg, sim), cfg.topN)
  {
    if catalog == [] {
      return [];
    }
    var rows := BuildRows(catalog, DifficultyBySong(attempts), cfg.defaultDifficulty);
    var cands := ScoreRows(rows, PlanFor(catalog, attempts, userId, sim), cfg);
    result := RankAndCut(cands, cfg.topN);
  }

  /** The catalog rows with their difficulty column filled in, one row per catalog row, in order. */
  method BuildRows(catalog: seq<Song>, bySong: map<int, real>, defaultDifficulty: real) returns (rows: seq<Row>)
    ensures rows == Tabulate(catalog, bySong, defaultDifficulty)
  {
    rows := [];
    var i := 0;
    while i < |catalog|
      invariant 0 <= i <= |catalog|
      invariant rows == Tabulate(catalog[..i], bySong, defaultDifficulty)
    {
      rows := rows + [Row(catalog[i], Difficulty(bySong, catalog[i].id, defaultDifficulty))];
      i := i + 1;
    }
    assert catalog[..i] == catalog;
  }

  /** Scores every row the plan does not exclude, in table order. */
  method ScoreRows(rows: seq<Row>, plan: Plan, cfg: Config) returns (cands: seq<Recommendation>)
    ensures cands == Candidates(rows, plan, cfg)
  {
    cands := [];
    var i := 0;
    while i < |rows|
      invariant 0 <= i <= |rows|
      invariant cands == Candidates(rows[..i], plan, cfg)
    {
      assert rows[..i + 1][..i] == rows[..i];
      if !Excluded(rows[i], plan) {
        cands := cands + [Scored(rows[i], plan, cfg)];
      }
      i := i + 1;
    }
    assert rows[..i] == rows;
  }

  /** Sorts the candidates by final score and keeps `head(n)` of them. */
  method RankAndCut(cands: seq<Recommendation>, n: int) returns (result: seq<Recommendation>)
    ensures IsTopN(result, cands, n)
  {
    var table := new Recommendation[|cands|](k requires 0 <= k < |cands| => cands[k]);
    assert table[..] == cands;
    SortByScore(table);
    result := table[..HeadCount(n, table.Length)];
    HeadOfSortedIsTopN(table[..], cands, n);
  }


  // ---------------------------------------------------------------------------
  // What every result of the pipeline satisfies
  // ---------------------------------------------------------------------------

  /** `rec` carries the id, name and composer of `song` and that id's crowd difficulty. */
  predicate DescribesSong(rec: Recommendation, song: Song, bySong: map<int, real>, defaultDifficulty: real)
  {
    && rec.id == song.id && rec.name == song.name && rec.composer == song.composer
    && rec.difficulty == Difficulty(bySong, song.id, defaultDifficulty)
  }

  /**
    Every returned record comes from a catalog row that the path does not
    exclude: it is that row scored, and carries the row's id, name, composer
    and crowd difficulty. `i` is that row.
  */
  lemma ResultSource(catalog: seq<Song>, attempts: seq<Attempt>, userId: int, cfg: Config, sim: Similarity, result: seq<Recommendation>, k: nat)
    returns (i: nat)
    requires IsTopN(result, CandidatesFor(catalog, attempts, userId, cfg, sim), cfg.topN)
    requires k < |result|
    ensures i < |catalog|
    ensures DescribesSong(result[k], catalog[i], DifficultyBySong(attempts), cfg.defaultDifficulty)
    ensures var row := Row(catalog[i], result[k].difficulty);
      !Excluded(row, PlanFor(catalog, attempts, userId, sim)) && result[k] == Scored(row, PlanFor(catalog, attempts, userId, sim), cfg)
  {
    var plan := PlanFor(catalog, attempts, userId, sim);
    var bySong := DifficultyBySong(attempts);
    var rows := Tabulate(catalog, bySong, cfg.defaultDifficulty);
    TopNRowsAreCandidates(result, Candidates(rows, plan, cfg), cfg.topN);
    i := CandidateRow(rows, plan, cfg, result[k]);
    assert rows[i] == Row(catalog[i], Difficulty(bySong, catalog[i].id, cfg.defaultDifficulty));
  }

  /**
    On the warm path the target is defined, no returned song is one the user
    completed, and every returned record carries its id's crowd difficulty.
  */
  lemma WarmResults(catalog: seq<Song>, attempts: seq<Attempt>, userId: int, cfg: Config, sim: Similarity, result: seq<Recommendation>)
    requires IsTopN(result, CandidatesFor(catalog, attempts, userId, cfg, sim), cfg.topN)
    requires HasProfile(catalog, CompletedSongs(attempts, userId))
    ensures DifficultyTarget(attempts, userId).Some?
    ensures forall k :: 0 <= k < |result| ==> result[k].id !in CompletedSongs(attempts, userId)
    ensures forall k :: 0 <= k < |result| ==>
      result[k].difficulty == Difficulty(DifficultyBySong(attempts), result[k].id, cfg.defaultDifficulty)
  {
    WarmPathHasTarget(catalog, attempts, userId);
    forall k | 0 <= k < |result|
      ensures result[k].id !in CompletedSongs(attempts, userId)
      ensures result[k].difficulty == Difficulty(DifficultyBySong(attempts), result[k].id, cfg.defaultDifficulty)
    {
      var i := ResultSource(catalog, attempts, userId, cfg, sim, result, k);
    }
  }

  /**
    On the warm path, returned record `k` is catalog row `i` scored as its
    similarity to the profile minus alpha times the gap between its crowd
    difficulty and the user's target, and never above that similarity when
    alpha is not negative.
  */
  lemma WarmResultRow(catalog: seq<Song>, attempts: seq<Attempt>, userId: int, cfg: Config, sim: Similarity, result: seq<Recommendation>, k: nat)
    returns (i: nat)
    requires IsTopN(result, CandidatesFor(catalog, attempts, userId, cfg, sim), cfg.topN)
    requires HasProfile(catalog, CompletedSongs(attempts, userId))
    requires k < |result|
    ensures DifficultyTarget(attempts, userId).Some?
    ensures i < |catalog| && WarmScored(result[k], catalog, i, attempts, userId, cfg, sim)
  {
    WarmPathHasTarget(catalog, attempts, userId);
    var done := CompletedSongs(attempts, userId);
    var plan := PlanFor(catalog, attempts, userId, sim);
    assert plan == Warm(done, DifficultyTarget(attempts, userId), catalog, ProfileSongs(catalog, done), sim);
    i := ResultSource(catalog, attempts, userId, cfg, sim, result, k);
  }

  /**
    `rec` is catalog row `i` scored on the warm path: the row's song with its
    crowd difficulty, scored by `WarmScore` from its similarity to the profile,
    and never above that similarity when alpha is not negative.
  */
  ghost predicate WarmScored(rec: Recommendation, catalog: seq<Song>, i: nat, attempts: seq<Attempt>, userId: int, cfg: Config, sim: Similarity)
  {
    && i < |catalog|
    && var similarity := sim(catalog, ProfileSongs(catalog, CompletedSongs(attempts, userId)), catalog[i]);
    && DescribesSong(rec, catalog[i], DifficultyBySong(attempts), cfg.defaultDifficulty)
    && rec.score == WarmScore(similarity, rec.difficulty, DifficultyTarget(attempts, userId), cfg.alpha)
    && (0.0 <= cfg.alpha ==> rec.score <= similarity)
  }

  /**
    On the cold-start path every catalog row is a candidate, so the result has
    as many rows as `head` keeps of the whole catalog; every returned record
    carries its id's crowd difficulty and is scored by minus the distance of
    that difficulty from the default: never positive, and zero exactly when
    the difficulty is the default.
  */
  lemma ColdStartResults(catalog: seq<Song>, attempts: seq<Attempt>, userId: int, cfg: Config, sim: Similarity, result: seq<Recommendation>)
    requires IsTopN(result, CandidatesFor(catalog, attempts, userId, cfg, sim), cfg.topN)
    requires !HasProfile(catalog, CompletedSongs(attempts, userId))
    ensures |result| == HeadCount(cfg.topN, |catalog|)
    ensures forall k :: 0 <= k < |result| ==>
      && result[k].difficulty == Difficulty(DifficultyBySong(attempts), result[k].id, cfg.defaultDifficulty)
      && result[k].score == -Abs(result[k].difficulty - cfg.defaultDifficulty)
      && result[k].score <= 0.0
      && (result[k].score == 0.0 <==> result[k].difficulty == cfg.defaultDifficulty)
  {
    assert PlanFor(catalog, attempts, userId, sim) == ColdStart;
    forall k | 0 <= k < |result|
      ensures result[k].difficulty == Difficulty(DifficultyBySong(attempts), result[k].id, cfg.defaultDifficulty)
      ensures result[k].score == ColdScore(result[k].difficulty, cfg.defaultDifficulty)
    {
      var i := ResultSource(catalog, attempts, userId, cfg, sim, result, k);
    }
  }

  /**
    With no attempt anywhere, every song gets the default difficulty and the
    cold-start path gives every returned song the score zero: a flat tie.
  */
  lemma NoHistoryIsFlatTie(catalog: seq<Song>, userId: int, cfg: Config, sim: Similarity, result: seq<Recommendation>)
    requires IsTopN(result, CandidatesFor(catalog, [], userId, cfg, sim), cfg.topN)
    ensures |result| == HeadCount(cfg.topN, |catalog|)
    ensures forall k :: 0 <= k < |result| ==> result[k].difficulty == cfg.defaultDifficulty && result[k].score == 0.0
  {
    assert CompletedSongs([], userId) == {};
    assert DifficultyBySong([]) == map[];
    ColdStartResults(catalog, [], userId, cfg, sim, result);
  }

  /** With one candidate and a positive `top_n`, that candidate is the whole result. */
  lemma SingleCandidate(result: seq<Recommendation>, c: Recommendation, n: int)
    requires 0 < n && IsTopN(result, [c], n)
    ensures result == [c]
  {
    assert result[0] in multiset(result);
  }

  /**
    On the cold-start path the candidate table, and so the ranking, does not
    depend on the similarity at all: only the distance of each difficulty from
    the default decides it.
  */
  lemma ColdStartIgnoresSimilarity(catalog: seq<Song>, attempts: seq<Attempt>, userId: int, cfg: Config, sim: Similarity, sim': Similarity)
    requires !HasProfile(catalog, CompletedSongs(attempts, userId))
    ensures CandidatesFor(catalog, attempts, userId, cfg, sim) == CandidatesFor(catalog, attempts, userId, cfg, sim')
  {
    assert PlanFor(catalog, attempts, userId, sim) == ColdStart == PlanFor(catalog, attempts, userId, sim');
  }

  /** The two catalog rows and the single attempt of the scenario below. */
  const FirstSong := Song(1, "one", "c", 10, 0.5, 1, 5, 5, 0)
  const SecondSong := Song(2, "two", "c", 100, 5.0, 20, 50, 50, 10)

  lemma ScenarioMean(userId: int)
    ensures Select([Attempt(1, userId, 3, 1.0)], CompletedBy(userId)) == [Attempt(1, userId, 3, 1.0)]
    ensures Select([Attempt(1, userId, 3, 1.0)], RatedOn(1)) == [Attempt(1, userId, 3, 1.0)]
    ensures Stats.Mean(Ratings([Attempt(1, userId, 3, 1.0)])) == 3.0
  {
    var attempts := [Attempt(1, userId, 3, 1.0)];
    assert attempts[..0] == [];
    assert Ratings(attempts) == [3];
    assert [3][..0] == [];
    assert Stats.Sum([3]) == 3;
  }

  lemma ScenarioHistory(userId: int)
    ensures CompletedSongs([Attempt(1, userId, 3, 1.0)], userId) == {1}
    ensures DifficultyTarget([Attempt(1, userId, 3, 1.0)], userId) == Some(3.0)
    ensures Tabulate([FirstSong, SecondSong], DifficultyBySong([Attempt(1, userId, 3, 1.0)]), Defaults.defaultDifficulty)
      == [Row(FirstSong, 3.0), Row(SecondSong, 3.0)]
  {
    ScenarioMean(userId);
    ScenarioCrowd(userId);
  }

  lemma ScenarioCrowd(userId: int)
    ensures DifficultyBySong([Attempt(1, userId, 3, 1.0)]) == map[1 := 3.0]
  {
    ScenarioMean(userId);
    assert RatedSongs([Attempt(1, userId, 3, 1.0)]) == {1};
  }

  lemma ScenarioProfile()
    ensures ProfileSongs([FirstSong, SecondSong], {1}) == [FirstSong]
    ensures HasProfile([FirstSong, SecondSong], {1})
  {
    assert [FirstSong][..0] == [];
    assert ProfileSongs([FirstSong], {1}) == [FirstSong];
    assert [FirstSong, SecondSong][..1] == [FirstSong];
    assert SecondSong.id !in {1};
    assert [FirstSong, SecondSong][0].id in {1};
  }

  lemma ScenarioPlan(userId: int, sim: Similarity)
    ensures PlanFor([FirstSong, SecondSong], [Attempt(1, userId, 3, 1.0)], userId, sim)
      == Warm({1}, Some(3.0), [FirstSong, SecondSong], [FirstSong], sim)
  {
    ScenarioHistory(userId);
    ScenarioProfile();
  }

  lemma ScenarioScoring(sim: Similarity)
    ensures var plan := Warm({1}, Some(3.0), [FirstSong, SecondSong], [FirstSong], sim);
      Candidates([Row(FirstSong, 3.0), Row(SecondSong, 3.0)], plan, Defaults)
      == [Recommendation(2, "two", "c", 3.0, sim([FirstSong, SecondSong], [FirstSong], SecondSong) - Defaults.alpha * Abs(3.0 - 3.0))]
  {
    var plan := Warm({1}, Some(3.0), [FirstSong, SecondSong], [FirstSong], sim);
    var rows := [Row(FirstSong, 3.0), Row(SecondSong, 3.0)];
    var c := Recommendation(2, "two", "c", 3.0, sim([FirstSong, SecondSong], [FirstSong], SecondSong) - Defaults.alpha * Abs(3.0 - 3.0));
    assert !Excluded(rows[1], plan) && Scored(rows[1], plan, Defaults) == c by {
      assert WarmScore(sim([FirstSong, SecondSong], [FirstSong], SecondSong), 3.0, Some(3.0), Defaults.alpha) == c.score;
    }
    assert Candidates(rows[..1], plan, Defaults) == [] by {
      assert Excluded(rows[0], plan);
      assert rows[..1][..0] == [];
    }
    assert rows[..|rows| - 1] == rows[..1];
  }

  /**
    Two songs; the user completed song 1 once with rating 3 and nobody rated
    song 2. Song 1 is excluded, so song 2 is the only recommendation, with the
    default difficulty 3 and, since that equals the target 3, its bare
    similarity to the profile built from song 1 as its score.
  */
  lemma OneCompletedSongScenario(userId: int, sim: Similarity, result: seq<Recommendation>)
    requires IsTopN(result, CandidatesFor([FirstSong, SecondSong], [Attempt(1, userId, 3, 1.0)], userId, Defaults, sim), Defaults.topN)
    ensures result == [Recommendation(2, "two", "c", 3.0,
      sim([FirstSong, SecondSong], [FirstSong], SecondSong) - Defaults.alpha * Abs(3.0 - 3.0))]
  {
    ScenarioHistory(userId);
    ScenarioPlan(userId, sim);
    ScenarioScoring(sim);
    SingleCandidate(result, Recommendation(2, "two", "c", 3.0,
      sim([FirstSong, SecondSong], [FirstSong], SecondSong) - Defaults.alpha * Abs(3.0 - 3.0)), Defaults.topN);
  }
}
