/**
 Records exchanged by the leaderboard pipeline: the two upstream shapes
 (functions/src/types.ts) and the persisted / client-facing entry shape
 (the document written by fetchLeaderboard and read back by getLeaderboard
 and by the browser page).

 The upstream numbers are JavaScript floats that the pipeline only copies and
 compares, so they are modelled as `int`.
 */
module Types {

  datatype Option<+T> = None | Some(value: T)

  /** Stage metadata as returned by the upstream `leaderboard` object endpoint. */
  datatype Leaderboard = Leaderboard(
    stagenameText: string,
    thresholdNumber: int,
    scoresListCustomScore: seq<string>)

  /** One score as returned by the upstream `score` object endpoint. */
  datatype Score = Score(
    id: string,
    displaynameText: string,
    hitfactorNumber: int,
    acerankOptionRank: string,
    timeinsecondsNumber: int)

  /** A score document under `leaderboards/{stageId}/scores/{id}`; also the
      element type of the retrieve response and of the page's lists. */
  datatype LeaderboardEntry = LeaderboardEntry(
    displayName: string,
    hitFactor: int,
    rank: string,
    timeInSeconds: int)
}
