/**
 * The scoreboard kept by the game-hub connection
 * (lib/signalR/gameConnection.ts): a table from player name to points,
 * replaced wholesale by a `ReceiveScores` snapshot and merged with a
 * `ReceiveUpdatedScores` delta by adding each player's points to their
 * previous total.
 */
module GameScores {

  /** `Record<string, number>`: player name to points. */
  type ScoreTable = map<string, int>

  /** `table[player] || 0`: a player missing from the table has 0 points. */
  function Points(table: ScoreTable, player: string): int
  {
    if player in table then table[player] else 0
  }

  /**
   * The table the delta handler produces: every player of either table, each
   * with their previous points (0 when absent) plus their points in the
   * delta (0 when absent).
   */
  function Merge(prev: ScoreTable, delta: ScoreTable): (next: ScoreTable)
    ensures next.Keys == prev.Keys + delta.Keys
    ensures forall p :: p in delta ==> next[p] == Points(prev, p) + delta[p]
    ensures forall p :: p in prev && p !in delta ==> next[p] == prev[p]
  {
    map p | p in prev.Keys + delta.Keys :: Points(prev, p) + Points(delta, p)
  }

  /** Merging an empty delta leaves the table as it was. */
  lemma MergeEmpty(prev: ScoreTable)
    ensures Merge(prev, map[]) == prev
  {
  }

  /**
   * Successive deltas accumulate: applying d1 then d2 is applying the single
   * delta that adds both.
   */
  lemma MergeAccumulates(t: ScoreTable, d1: ScoreTable, d2: ScoreTable)
    ensures Merge(Merge(t, d1), d2) == Merge(t, Merge(d1, d2))
  {
  }

  /** The order in which two deltas arrive does not change the resulting table. */
  lemma MergeCommutes(t: ScoreTable, d1: ScoreTable, d2: ScoreTable)
    ensures Merge(Merge(t, d1), d2) == Merge(Merge(t, d2), d1)
  {
  }

  /**
   * The body of the `ReceiveUpdatedScores` state updater: starts from a copy
   * of the previous table and, for each entry of the delta in turn, sets
   * that player's points to their current points (0 when absent) plus the
   * entry's points. The previous table is a value and is not changed.
   */
  method MergeScores(prev: ScoreTable, delta: ScoreTable) returns (next: ScoreTable)
    ensures next == Merge(prev, delta)
  {
    next := prev;
    var pending := delta.Keys;
    while pending != {}
      invariant pending <= delta.Keys
      invariant next == Merge(prev, delta - pending)
      decreases pending
    {
      var player :| player in pending;
      ghost var done := delta - pending;
      next := next[player := Points(next, player) + delta[player]];
      pending := pending - {player};
      assert delta - pending == done[player := delta[player]];
    }
    assert delta - {} == delta;
  }

  /** The score state that both hub handlers update. */
  class Scoreboard {
    var scores: ScoreTable

    /** `useState<Record<string, number>>({})`: no scores yet. */
    constructor ()
      ensures scores == map[]
    {
      scores := map[];
    }

    /** `ReceiveScores`: the snapshot replaces the whole table. */
    method ReceiveScores(snapshot: ScoreTable)
      modifies this
      ensures scores == snapshot
    {
      scores := snapshot;
    }

    /** `ReceiveUpdatedScores`: the delta is merged into the current table. */
    method ReceiveUpdatedScores(delta: ScoreTable)
      modifies this
      ensures scores == Merge(old(scores), delta)
    {
      scores := MergeScores(scores, delta);
    }
  }

  /** A client of the scoreboard: successive deltas for one player add up. */
  method DeltasAccumulate()
  {
    var board := new Scoreboard();
    board.ReceiveUpdatedScores(map["alice" := 3]);
    assert board.scores == map["alice" := 3];
    board.ReceiveUpdatedScores(map["alice" := 2]);
    assert board.scores == map["alice" := 5];
  }

  /** A client of the scoreboard: a delta after a snapshot changes only its own player. */
  method SnapshotThenDelta()
  {
    var board := new Scoreboard();
    board.ReceiveUpdatedScores(map["carol" := 7]);
    board.ReceiveScores(map["alice" := 10, "bob" := 4]);
    board.ReceiveUpdatedScores(map["bob" := 1]);
    assert board.scores.Keys == {"alice", "bob"};
    assert board.scores == map["alice" := 10, "bob" := 5];
  }
}
