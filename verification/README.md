# Quizify front end: guess similarity and scoreboard reconciliation

This project models the two pieces of logic in the music-trivia front end
`cms24-delta-nextjs` that are more than UI and service wiring.

- **Guess similarity** (`lib/calculateSimilarity.ts`). `calculateSimilarityGuess(a, b)`
  computes the Levenshtein edit distance between two strings. Its inner
  `levenshtein` fills a (|a|+1) x (|b|+1) dynamic-programming table. The result
  is turned into the percentage `(maxLength - distance) / maxLength * 100`.
  In `similarity.dfy` (module `Similarity`):
  - `Distance` is the textbook recursive definition of the edit distance.
  - `Levenshtein` fills the table in place with the source's nested loops, on
    a two-dimensional array. It is proved to return `Distance`.
  - `SimilarityOf` and `CalculateSimilarityGuess` give the percentage, using
    exact rationals. The result is `NaN` when both strings are empty (0 / 0).
- **Scoreboard reconciliation** (`lib/signalR/gameConnection.ts`). The game hub
  pushes two kinds of score message. `ReceiveScores` carries a full snapshot
  that replaces the table. `ReceiveUpdatedScores` carries a delta map whose
  points are added to each player's previous total; a player not yet in the
  table starts from 0. In `scores.dfy` (module `GameScores`):
  - `Merge` is the reference definition of the merged table.
  - `MergeScores` is the handler's copy-then-loop update, proved equal to `Merge`.
  - The class `Scoreboard` holds the table that both handlers update.
  - `DeltasAccumulate` and `SnapshotThenDelta` are two client methods. The
    first shows that the delta `{alice: 3}` then the delta `{alice: 2}` on an
    empty table gives `{alice: 5}`. The second shows that the snapshot
    `{alice: 10, bob: 4}` then the delta `{bob: 1}` gives `{alice: 10, bob: 5}`.

`ReceiveUpdatedScores` takes a map of any number of players with any integer
points (gameConnection.ts:49-57), and that is what is modelled.

## Model

| member | source | states |
|---|---|---|
| `Similarity.Distance` | cms24-delta-nextjs/lib/calculateSimilarity.ts:5-20 | The edit distance lies between the difference of the two lengths and the larger length. In particular it equals the other string's length when one string is empty, which is what the border cells of lines 7-8 hold. |
| `Similarity.Recurrence` | cms24-delta-nextjs/lib/calculateSimilarity.ts:12-16 | The source's table step agrees with the textbook recurrence. It takes the diagonal alone when the last characters agree, and otherwise one plus the minimum of the three neighbours. |
| `Similarity.Identity` | cms24-delta-nextjs/lib/calculateSimilarity.ts:12-13 | A string is at distance 0 from itself. |
| `Similarity.ZeroIffEqual` | cms24-delta-nextjs/lib/calculateSimilarity.ts:10-20 | The distance is 0 if and only if the two strings are equal. |
| `Similarity.Symmetric` | cms24-delta-nextjs/lib/calculateSimilarity.ts:10-20 | The distance from a to b equals the distance from b to a. |
| `Similarity.Levenshtein` | cms24-delta-nextjs/lib/calculateSimilarity.ts:2-21 | After the border loops and the nested fill, the returned bottom-right cell is the edit distance of the two strings. |
| `Similarity.FillRow` | cms24-delta-nextjs/lib/calculateSimilarity.ts:11-17 | One run of the inner loop: afterwards every cell of row i holds the distance between s1[..i] and s2[..j], and no other row has changed. |
| `Similarity.SimilarityRange` | cms24-delta-nextjs/lib/calculateSimilarity.ts:23-25 | The percentage is NaN exactly when both strings are empty. Otherwise it lies in [0, 100] and is 100 exactly when the strings are equal. |
| `Similarity.CalculateSimilarityGuess` | cms24-delta-nextjs/lib/calculateSimilarity.ts:1-26 | Returns `SimilarityOf(a, b)`: the share of the longer length not spent on edits, times 100, or NaN for two empty strings. |
| `GameScores.Merge` | cms24-delta-nextjs/lib/signalR/gameConnection.ts:53-59 | The merged table's players are the union of the old table's and the delta's. A player in the delta gets their old points (0 if new) plus the delta's. A player only in the old table keeps their points. |
| `GameScores.MergeEmpty` | cms24-delta-nextjs/lib/signalR/gameConnection.ts:54-58 | Merging an empty delta gives back the old table. |
| `GameScores.MergeAccumulates` | cms24-delta-nextjs/lib/signalR/gameConnection.ts:53-59 | Applying delta d1 and then d2 equals applying the single delta `Merge(d1, d2)`. |
| `GameScores.MergeCommutes` | cms24-delta-nextjs/lib/signalR/gameConnection.ts:53-59 | Applying d1 then d2 gives the same table as d2 then d1. |
| `GameScores.MergeScores` | cms24-delta-nextjs/lib/signalR/gameConnection.ts:54-58 | The copy-then-loop update over the delta's entries returns exactly `Merge(prev, delta)`, whatever order the entries are visited in. The previous table is a value and is not changed. |
| `GameScores.Scoreboard.ReceiveScores` | cms24-delta-nextjs/lib/signalR/gameConnection.ts:43-46 | After a snapshot the table equals the snapshot, with no trace of earlier entries. |
| `GameScores.Scoreboard.ReceiveUpdatedScores` | cms24-delta-nextjs/lib/signalR/gameConnection.ts:49-60 | After a delta the table is `Merge` of the previous table and the delta. |

## Left out

- Strings are sequences of `char`. JavaScript indexes UTF-16 code units, and surrogate pairs are not modelled separately.
- The percentage is computed over exact rationals (`real`), not IEEE doubles. `NaN` is a constructor of its own, for the 0 / 0 case only.
- `Levenshtein` allocates one two-dimensional array. The source builds an array of row arrays; rows are never shared, so aliasing between rows is not modelled.
- `FillRow` is the inner `for` loop of lines 11-17, written as a method of its own so that each proof stays small. The source has it inline.
- `calculateSimilarityGuess` is not exported and has no caller in the repository, so nothing connects it to answer checking.
- Scores are unbounded integers. JavaScript numbers are doubles, so totals past 2^53 would round.
- `GameScores.Points` assumes a missing player reads as absent. In JavaScript, `newScores[player]` for a player named like an `Object.prototype` member (`constructor`, `toString`) reads the inherited member rather than `undefined`. That case is not modelled.
- The `Scoreboard.tsx` component removes the `ReceiveUpdatedScores` handler and registers its own, which replaces the table instead of merging. Only the handler of `gameConnection.ts` is modelled.
- The SignalR plumbing is not modelled because it is network I/O and event wiring. This covers the connection builder, the reconnect schedule `[0, 2000, 10000, 30000]`, `start`, `invoke`, `onclose`, `ReceivePlayers`, and the log-only `ReceivePlayerSubmission` and `OnTrackChanged` handlers. It also covers `GameEnded`, whose redirect URL is built but never used.
- Answer evaluation (normalising a guess, matching candidates, the per-round submission lock) does not appear in either modelled file and is not part of this model.
- Arrival order between snapshots and deltas is whatever order the handlers are called in. No versioning is modelled because the source has none.
