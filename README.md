# Melodías a Ciegas recommender: a Dafny model

This project models `get_recommendations` in recommendation.py, the song recommender of Melodías a Ciegas. Given a user, the song catalog and the history of practice attempts, it returns at most `top_n` songs, each with its id, name, composer, difficulty and final score. The pipeline works like this:

- **Completed songs and difficulty target.** The user's qualifying attempts are those that were fully completed (`porcentaje_completado == 1`) and rated. A rating is a value below the sentinel 6, which means "not rated". The songs of these attempts are the user's completed songs. The mean of their ratings is the user's difficulty target.
- **Crowd difficulty.** A song's difficulty is the mean of every rated attempt on it, by any user, whatever its completion. A song with no rated attempt gets `default_difficulty`.
- **Path choice.** The warm path runs when some catalog row's id is a completed song. Otherwise the cold-start path runs.
- **Warm path.** The completed songs are dropped. Each remaining row scores `similarity − alpha·|difficulty − target|`.
- **Cold-start path.** Every row is a candidate and scores `−|difficulty − default_difficulty|`.
- **Ranking.** The candidates are sorted by descending score and the first `top_n` are returned.

Layout:

- `models.dfy` holds the two table records and the "not rated" sentinel.
- `stats.dfy` holds the exact sum and mean of integer ratings.
- `ranking.dfy` holds the returned record, the in-place sort of the candidate table, `head(n)`, and the top-N specification `IsTopN`.
- `recommendation.dfy` holds the selections, the target, the crowd difficulty, the path choice and the two score formulas. It also holds the candidate table, the pipeline method `GetRecommendations`, and the end-to-end lemmas about what it returns.
- `wrappers.dfy` holds `Option`.

The database queries become two input sequences: `catalog` holds every row of the song information table, and `attempts` every row of the attempts table. Feature standardisation, the user's taste profile and cosine similarity become the parameter `sim`. `sim(catalog, profile, song)` is the similarity between `song` and the profile built from the rows `profile`. Python `float` becomes `real`.

The pipeline method is proved to return a top-N selection of the candidate table:

- Its length follows pandas' `head`.
- It is sorted by descending score.
- Each record is a distinct candidate.
- No candidate that is left out scores above a kept record.

The lemmas then state the source's promises about that table and about anything that satisfies this specification.

## Model

| member | source | states |
|---|---|---|
| Recommender.Select | recommendation.py:34-41 | The query filter: each attempt the selection matches is kept as often as it occurs in the history, and every other attempt is dropped. |
| Recommender.SelectEmptyIff | recommendation.py:46-49 | The selection is empty if and only if no attempt in the history matches it. |
| Recommender.CompletedSongs | recommendation.py:34-46 | An id is a completed song if and only if the user has an attempt on it that is completed (`completion == 1`) and rated below 6. |
| Recommender.DifficultyTargetIsMean | recommendation.py:34-50 | The target is defined if and only if such an attempt exists. It is then the mean rating over those attempts, with repeats of a song each counting. With every rating at least `lo`, it lies in [lo, 5]. |
| Recommender.CrowdDifficulty | recommendation.py:68-77 | A song's difficulty is the mean of every rated attempt on it, by any user and whatever its completion. A song with no rated attempt gets exactly `default_difficulty`. |
| Recommender.CrowdDifficultyInRange | recommendation.py:68-74 | With every rating at least `lo`, a song that has a rated attempt has a difficulty in [lo, 5]. |
| Stats.MeanBounds | recommendation.py:50 | A mean of ratings lies between any lower and upper bound of those ratings. |
| Recommender.ProfileSongs | recommendation.py:92 | The profile rows are the catalog rows whose id is a completed song, each kept as often as it occurs in the catalog, so a duplicated row weighs twice in the profile mean (line 94). Every other row is dropped. |
| Recommender.WarmPathChoice | recommendation.py:90-97 | The warm path is taken if and only if some catalog row's id is the song of one of the user's completed, rated attempts. |
| Recommender.WarmPathHasTarget | recommendation.py:109-116 | On the warm path the target is always defined, so the similarity-only branch is unreachable. |
| Recommender.WarmScore | recommendation.py:112-116 | Without a target the score is the similarity. With `alpha ≥ 0` it never exceeds the similarity. With a target and `alpha > 0`, it equals the similarity exactly when the difficulty equals the target. |
| Recommender.AlphaLowersScore | recommendation.py:112-113 | Raising alpha strictly lowers the score of a song whose difficulty differs from the target, and leaves a song on target unchanged. |
| Recommender.ColdScore | recommendation.py:122 | The cold-start score is never positive. It is zero exactly when the difficulty equals the default, and otherwise it is minus the distance in either direction. |
| Recommender.Candidates | recommendation.py:103-122 | There are never more candidates than rows. Every row that is not excluded becomes a candidate. On cold start, which excludes nothing, there are exactly as many candidates as rows. |
| Recommender.CandidateCount | recommendation.py:103-122 | A value occurs among the candidates exactly as many times as there are non-excluded catalog rows that score to it, so each such row yields one candidate of its own. |
| Recommender.CandidateRow | recommendation.py:103-122 | Every candidate is the scored form of a catalog row that the path does not exclude. |
| Ranking.HeadCount | recommendation.py:118-123 | `head(n)` keeps at most `len` rows. For `n ≥ 0` it keeps `min(n, len)`. For `n < 0` it keeps every row but the last `-n`. |
| Ranking.InsertAt | recommendation.py:114-123 | One insertion step: the first `i + 1` rows end up in descending score order. The rows after them are unchanged, and the table is a permutation of the old one. |
| Ranking.SortByScore | recommendation.py:114-123 | Sorts the table in place by descending score, as a permutation of its rows. |
| Ranking.HeadOfSortedIsTopN | recommendation.py:114-123 | The head of a score-sorted permutation of the candidates is a top-N selection of them. |
| Ranking.TailBelowHead | recommendation.py:118-123 | In a sorted table, no row past the cut scores above a row before it. |
| Ranking.TopNRowsAreCandidates | recommendation.py:127-128 | Every returned record is a candidate. |
| Recommender.BuildRows | recommendation.py:17-30 | Builds the table one catalog row at a time, with each row's difficulty column filled from the crowd difficulty (line 77). The result is exactly `Tabulate` of the catalog. |
| Recommender.ScoreRows | recommendation.py:100-124 | Scores the table row by row and drops the excluded rows. The result is exactly the candidate table `Candidates`. |
| Recommender.RankAndCut | recommendation.py:114-123 | Copies the candidates into an array, sorts it in place and keeps `head(n)`. The result is a top-N selection of the candidates. |
| Recommender.GetRecommendations | recommendation.py:10-130 | An empty catalog yields an empty result. Otherwise the result is a top-N selection of the candidate table: sorted descending, with length `head(top_n)` of the candidates, each record a distinct candidate, and nothing left out scoring higher. |
| Recommender.ResultSource | recommendation.py:103-128 | Each returned record is a catalog row that the path does not exclude. It carries that row's id, name, composer and crowd difficulty, and that row's score. |
| Recommender.WarmResults | recommendation.py:97-111 | On the warm path the target is defined. No returned song is a completed song, and each record carries its id's crowd difficulty. |
| Recommender.WarmResultRow | recommendation.py:99-113 | On the warm path each returned record is a catalog row scored as its similarity to the profile minus alpha times the gap to the target. It never exceeds that similarity when `alpha ≥ 0`. |
| Recommender.ColdStartResults | recommendation.py:119-124 | On cold start the result has `head(top_n)` of the whole catalog. Each record carries its id's crowd difficulty and scores `−|difficulty − default|`. The score is never positive and is zero exactly on the default. |
| Recommender.ColdStartIgnoresSimilarity | recommendation.py:119-123 | On cold start the candidate table, and so the ranking, is the same whatever the similarity. |
| Recommender.NoHistoryIsFlatTie | recommendation.py:119-124 | With no attempts at all, every returned record has the default difficulty and score 0, and the result has `head(top_n)` of the catalog. |
| Recommender.OneCompletedSongScenario | recommendation.py:10-130 | Two songs, with one completed attempt on song 1 rated 3. The only recommendation is song 2, with the default difficulty 3 and its similarity to the profile of song 1 minus `0.1·|3 − 3|`. |

## Left out

- Database access is not modelled. The SQLAlchemy queries and `pd.read_sql` (recommendation.py:12, 34-41, 68-71) are replaced by the input sequences `catalog` and `attempts`. The FastAPI endpoint in main.py is not part of this model.
- Feature standardisation, the profile mean and cosine similarity (recommendation.py:80-87, 94, 99) are floating-point numerics with square roots. They become the uninterpreted parameter `sim`.
- Tie order is not fixed. `sort_values` is called with its default, non-stable algorithm, so the source fixes no order among equal scores. `IsTopN` therefore fixes only which scores are kept, and a catalog-order tie-break is not claimed. `SortByScore` happens to be stable, but nothing about the result depends on that.
- The preliminary sort by similarity (recommendation.py:106) only affects the order of ties, and it is dropped for the reason above.
- Recommender.CrowdDifficulty: the difficulty is the exact mean of the ratings. The SQL `AVG` result is a database decimal, possibly rounded to a few places, before the cast to `float`. Floating-point rounding throughout is not modelled, and `real` is used instead.
- The column-existence check (recommendation.py:61-64) is not modelled. It can never fail, because the dictionary keys are fixed at recommendation.py:19-29.
- The debug `print` (recommendation.py:43) has no behaviour to model.
- The rating filter is `< 6`, as in the code. The comments at recommendation.py:33 and 67 say "between 1 and 5", but nothing excludes ratings below 1. The range lemmas therefore take the lower bound `lo` as a hypothesis.
- Nullable columns are not modelled. A missing rating or completion value is excluded by SQL comparisons in the source, while here every attempt carries both. The other attempt columns (correct and wrong notes, percentages, date) are not read by the recommender.
- The song id is not unique (models.py:9). Duplicate catalog rows are kept as separate rows, as in the source (`CandidateCount`, `ProfileSongs`), and exclusion and profile building work by id membership.
- The DataFrame column assignments are modelled as sequences. The candidate table is built from `seq` values, and only the sort works in place, on an array.

