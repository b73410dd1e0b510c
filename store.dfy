/**
 The two cloud functions of functions/src/index.ts over an in-memory model
 of the document store.

 The store holds, per stage id, the document `leaderboards/{stageId}` and its
 `scores` sub-collection. The upstream platform, the clock and the store's
 failures are not called: what they answer during one import is an
 `ImportEnv` value, and whether the read of a retrieve succeeds is a flag.

 `FetchLeaderboard` is proved against three functions of the old state and
 the environment (`ImportedStages`, `ImportResponse`, `ImportRequests`); the
 lemmas below them state what an import promises.
 */
module Store {
  import opened Types
  import opened Ordering

  /** The value written into `createdAt` (`new Date()` in the source). */
  type Timestamp = int

  /** The stage document `leaderboards/{stageId}`. */
  datatype StageDoc = StageDoc(stageName: string, threshold: int, createdAt: Timestamp)

  /** A stage document together with its `scores` sub-collection, keyed by score id. */
  datatype StageRecord = StageRecord(doc: StageDoc, scores: map<string, LeaderboardEntry>)

  datatype Body = Text(text: string) | Json(entries: seq<LeaderboardEntry>)

  datatype Response = Response(status: int, body: Body)

  /** One element of the `constraints` query parameter of the upstream score search. */
  datatype Constraint = Constraint(key: string, constraintType: string, value: seq<string>)

  /** The upstream calls a handler issues, in order. */
  datatype UpstreamRequest =
    | GetStage(stageId: string)
    | SearchScores(constraints: seq<Constraint>)

  /** The reply of the bulk score search. `SearchFailed` is a call that threw
      (network error, non-2xx status, or no `response` object);
      `NoResults` is a reply whose `response` has no `results` list. */
  datatype ScoresReply = SearchFailed | NoResults | Results(scores: seq<Score>)

  /** What the world outside the handler does during one import. A `None`
      stage reply is a call that threw (network error, non-2xx status, or no
      `response` object to read the score-id list from). */
  datatype ImportEnv = ImportEnv(
    stageReply: Option<Leaderboard>,
    scoresReply: ScoresReply,
    now: Timestamp,
    setSucceeds: bool,
    commitSucceeds: bool)

  /** How far an import got. */
  datatype ImportOutcome =
    | Rejected
    | StageFetchFailed
    | ScoresFetchFailed
    | StageWriteFailed
    | ResultsMissing
    | CommitFailed
    | Committed

  const MissingStageId := "Stage ID is required."
  const ImportSucceeded := "Leaderboard data successfully fetched and stored."
  const ImportFailed := "Failed to process leaderboard data."
  const RetrieveFailed := "Failed to retrieve leaderboard data."

  /** The handlers' `!stageId` test: absent or empty is refused, any other
      string (whitespace included) is accepted. */
  predicate StageIdGiven(stageId: Option<string>)
  {
    stageId.Some? && stageId.value != ""
  }

  function Outcome(stageId: Option<string>, env: ImportEnv): ImportOutcome
  {
    if !StageIdGiven(stageId) then Rejected
    else if env.stageReply.None? then StageFetchFailed
    else if env.scoresReply.SearchFailed? then ScoresFetchFailed
    else if !env.setSucceeds then StageWriteFailed
    else if env.scoresReply.NoResults? then ResultsMissing
    else if !env.commitSucceeds then CommitFailed
    else Committed
  }

  /** The field renaming applied to every upstream score before it is stored.
      It loses nothing: the document id and the document give back the
      upstream score. */
  function Normalize(s: Score): (e: LeaderboardEntry)
    ensures Restore(s.id, e) == s
  {
    LeaderboardEntry(s.displaynameText, s.hitfactorNumber, s.acerankOptionRank, s.timeinsecondsNumber)
  }

  /** The upstream score a stored document came from, given its document id. */
  function Restore(id: string, e: LeaderboardEntry): Score
  {
    Score(id, e.displayName, e.hitFactor, e.rank, e.timeInSeconds)
  }

  /** The constraint list sent with the bulk score search. */
  function ScoreConstraints(lb: Leaderboard): seq<Constraint>
  {
    [Constraint("_id", "in", lb.scoresListCustomScore)]
  }

  /** The stage document an import writes. */
  function MetadataOf(lb: Leaderboard, now: Timestamp): StageDoc
  {
    StageDoc(lb.stagenameText, lb.thresholdNumber, now)
  }

  /** The ids of a list of upstream scores. */
  function IdsOf(scores: seq<Score>): set<string>
  {
    set s | s in scores :: s.id
  }

  /** The documents one batch writes: every score under its id, a later
      score overriding an earlier one with the same id. */
  function BatchOf(scores: seq<Score>): (batch: map<string, LeaderboardEntry>)
    ensures batch.Keys == IdsOf(scores)
  {
    if scores == [] then map[]
    else
      var n := |scores| - 1;
      var init := BatchOf(scores[..n]);
      assert scores == scores[..n] + [scores[n]];
      init[scores[n].id := Normalize(scores[n])]
  }

  /** The scores sub-collection of a stage (empty when the stage was never imported). */
  function ScoresOf(stages: map<string, StageRecord>, stageId: string): map<string, LeaderboardEntry>
  {
    if stageId in stages then stages[stageId].scores else map[]
  }

  /** The store after an import. */
  function ImportedStages(stages: map<string, StageRecord>, stageId: Option<string>, env: ImportEnv): map<string, StageRecord>
  {
    match Outcome(stageId, env)
    case ResultsMissing =>
      stages[stageId.value := StageRecord(MetadataOf(env.stageReply.value, env.now), ScoresOf(stages, stageId.value))]
    case CommitFailed =>
      stages[stageId.value := StageRecord(MetadataOf(env.stageReply.value, env.now), ScoresOf(stages, stageId.value))]
    case Committed =>
      var scores := ScoresOf(stages, stageId.value) + BatchOf(env.scoresReply.scores);
      stages[stageId.value := StageRecord(MetadataOf(env.stageReply.value, env.now), scores)]
    case _ => stages
  }

  /** The HTTP response of an import. */
  function ImportResponse(stageId: Option<string>, env: ImportEnv): Response
  {
    match Outcome(stageId, env)
    case Rejected => Response(400, Text(MissingStageId))
    case Committed => Response(200, Text(ImportSucceeded))
    case _ => Response(500, Text(ImportFailed))
  }

  /** The upstream calls of an import. */
  function ImportRequests(stageId: Option<string>, env: ImportEnv): seq<UpstreamRequest>
  {
    if !StageIdGiven(stageId) then []
    else if env.stageReply.None? then [GetStage(stageId.value)]
    else [GetStage(stageId.value), SearchScores(ScoreConstraints(env.stageReply.value))]
  }

  /** The documents of `m` whose ids are in `keys`. */
  function Restrict(m: map<string, LeaderboardEntry>, keys: set<string>): map<string, LeaderboardEntry>
  {
    map k | k in keys && k in m :: m[k]
  }

  lemma RestrictEnds(m: map<string, LeaderboardEntry>)
    ensures Restrict(m, m.Keys) == m
    ensures Bag(Restrict(m, {})) == multiset{}
  {
    assert Restrict(m, {}) == map[];
  }

  /** Scanning one more document of `m` moves its value out of the bag of the rest. */
  lemma RestrictStep(m: map<string, LeaderboardEntry>, keys: set<string>, k: string)
    requires k in keys && keys <= m.Keys
    ensures Bag(Restrict(m, keys)) == multiset{m[k]} + Bag(Restrict(m, keys - {k}))
  {
    BagRemove(Restrict(m, keys), k);
    assert Restrict(m, keys) - {k} == Restrict(m, keys - {k});
  }

  /** A listing of a collection has exactly one entry per document. */
  lemma ListingLength(list: seq<LeaderboardEntry>, m: map<string, LeaderboardEntry>)
    requires IsOrderedListing(list, m)
    ensures |list| == |m|
  {
    BagSize(m);
  }

  /** The upstream score ids are pairwise different. */
  predicate DistinctIds(scores: seq<Score>)
  {
    forall i, j :: 0 <= i < j < |scores| ==> scores[i].id != scores[j].id
  }

  /** A score that no later score of the batch shares its id with is written as is. */
  lemma {:induction false} BatchLastWins(scores: seq<Score>, i: nat)
    requires i < |scores|
    requires forall j :: i < j < |scores| ==> scores[j].id != scores[i].id
    ensures scores[i].id in BatchOf(scores)
    ensures BatchOf(scores)[scores[i].id] == Normalize(scores[i])
  {
    var n := |scores| - 1;
    if i < n {
      BatchLastWins(scores[..n], i);
    }
  }

  /** With pairwise different ids the batch holds exactly the renamed scores. */
  lemma {:induction false} BatchBag(scores: seq<Score>)
    requires DistinctIds(scores)
    ensures Bag(BatchOf(scores)) == multiset(NormalizeAll(scores))
  {
    if scores != [] {
      var n := |scores| - 1;
      var init, last := scores[..n], scores[n];
      DistinctPrefix(scores);
      BatchBag(init);
      BagAddFresh(BatchOf(init), last.id, Normalize(last));
      assert BatchOf(scores) == BatchOf(init)[last.id := Normalize(last)];
      assert NormalizeAll(scores) == NormalizeAll(init) + [Normalize(last)];
    }
  }

  /** Dropping the last score keeps the ids pairwise different, and the last
      id is not among the others. */
  lemma DistinctPrefix(scores: seq<Score>)
    requires DistinctIds(scores) && scores != []
    ensures DistinctIds(scores[..|scores| - 1])
    ensures scores[|scores| - 1].id !in IdsOf(scores[..|scores| - 1])
  {
    var n := |scores| - 1;
    forall s | s in scores[..n] ensures s.id != scores[n].id {
      var i :| 0 <= i < n && scores[..n][i] == s;
      assert scores[i] == s;
    }
  }

  /** The renamed scores, in upstream order. */
  function NormalizeAll(scores: seq<Score>): (r: seq<LeaderboardEntry>)
    ensures |r| == |scores|
    ensures forall i :: 0 <= i < |scores| ==> r[i] == Normalize(scores[i])
  {
    if scores == [] then [] else NormalizeAll(scores[..|scores| - 1]) + [Normalize(scores[|scores| - 1])]
  }

  /** Only an absent or empty stage id is refused; it is refused before any
      upstream call and leaves the store as it was. */
  lemma ImportValidation(stages: map<string, StageRecord>, stageId: Option<string>, env: ImportEnv)
    ensures Outcome(stageId, env) == Rejected <==> stageId == None || stageId == Some("")
    ensures Outcome(stageId, env) == Rejected ==>
      && ImportRequests(stageId, env) == []
      && ImportedStages(stages, stageId, env) == stages
      && ImportResponse(stageId, env) == Response(400, Text(MissingStageId))
  {
  }

  /** An accepted import fetches the stage, then searches all its scores with
      one constraint listing the whole score-id list; never more than two calls. */
  lemma ImportFetches(stageId: Option<string>, env: ImportEnv)
    ensures |ImportRequests(stageId, env)| <= 2
    ensures StageIdGiven(stageId) ==> ImportRequests(stageId, env)[0] == GetStage(stageId.value)
    ensures StageIdGiven(stageId) && env.stageReply.Some? ==>
      ImportRequests(stageId, env) ==
        [GetStage(stageId.value), SearchScores([Constraint("_id", "in", env.stageReply.value.scoresListCustomScore)])]
    ensures |ImportRequests(stageId, env)| == 2 <==> StageIdGiven(stageId) && env.stageReply.Some?
  {
  }

  /** Once the stage document is written it is exactly the fetched metadata,
      whatever was stored before, and whether or not the batch commits. */
  lemma ImportReplacesStageDoc(stages: map<string, StageRecord>, stageId: Option<string>, env: ImportEnv)
    requires Outcome(stageId, env) in {ResultsMissing, CommitFailed, Committed}
    ensures stageId.value in ImportedStages(stages, stageId, env)
    ensures ImportedStages(stages, stageId, env)[stageId.value].doc ==
      StageDoc(env.stageReply.value.stagenameText, env.stageReply.value.thresholdNumber, env.now)
  {
  }

  /** After a committed import every fetched score is stored under its id with
      the renamed fields (the last one, when the reply repeats an id). */
  lemma ImportStoresEachScore(stages: map<string, StageRecord>, stageId: Option<string>, env: ImportEnv, i: nat)
    requires Outcome(stageId, env) == Committed
    requires i < |env.scoresReply.scores|
    requires forall j :: i < j < |env.scoresReply.scores| ==> env.scoresReply.scores[j].id != env.scoresReply.scores[i].id
    ensures var s := env.scoresReply.scores[i];
      var stored := ScoresOf(ImportedStages(stages, stageId, env), stageId.value);
      s.id in stored && stored[s.id] == Normalize(s)
  {
    BatchLastWins(env.scoresReply.scores, i);
  }

  /** A committed import overwrites by id and deletes nothing: the stored ids
      are the old ones plus the fetched ones, a stored score whose id was not
      fetched is unchanged, and the count grows by the number of new ids. */
  lemma ImportUpserts(stages: map<string, StageRecord>, stageId: Option<string>, env: ImportEnv)
    requires Outcome(stageId, env) == Committed
    ensures var before := ScoresOf(stages, stageId.value);
      var after := ScoresOf(ImportedStages(stages, stageId, env), stageId.value);
      && after.Keys == before.Keys + IdsOf(env.scoresReply.scores)
      && (forall k :: k in before && k !in IdsOf(env.scoresReply.scores) ==> after[k] == before[k])
      && |after| == |before| + |IdsOf(env.scoresReply.scores) - before.Keys|
  {
    CommittedScores(stages, stageId, env);
    UpsertCounts(ScoresOf(stages, stageId.value), BatchOf(env.scoresReply.scores));
  }

  /** Writing `batch` over `before` by id: the keys join, documents outside the
      batch stay, and the count grows by the batch ids not yet present. */
  lemma UpsertCounts(before: map<string, LeaderboardEntry>, batch: map<string, LeaderboardEntry>)
    ensures (before + batch).Keys == before.Keys + batch.Keys
    ensures forall k :: k in before && k !in batch ==> (before + batch)[k] == before[k]
    ensures |before + batch| == |before| + |batch.Keys - before.Keys|
  {
    var added := batch.Keys - before.Keys;
    assert (before + batch).Keys == before.Keys + added;
    assert before.Keys !! added;
  }

  /** When the batch fails (it is not committed, or it cannot be built because
      the reply had no `results`), no fetched score is stored and no stored
      score changes, but the stage document already carries the new metadata;
      the caller is told the whole import failed. */
  lemma FailedCommitKeepsScores(stages: map<string, StageRecord>, stageId: Option<string>, env: ImportEnv)
    requires Outcome(stageId, env) in {ResultsMissing, CommitFailed}
    ensures ScoresOf(ImportedStages(stages, stageId, env), stageId.value) == ScoresOf(stages, stageId.value)
    ensures ImportedStages(stages, stageId, env)[stageId.value].doc == MetadataOf(env.stageReply.value, env.now)
    ensures ImportResponse(stageId, env) == Response(500, Text(ImportFailed))
  {
  }

  /** Success is reported exactly when the batch committed; every thrown
      error is a 500, and any failure before the stage write changes nothing. */
  lemma ImportResponds(stages: map<string, StageRecord>, stageId: Option<string>, env: ImportEnv)
    ensures ImportResponse(stageId, env).status == 200 <==> Outcome(stageId, env) == Committed
    ensures ImportResponse(stageId, env).status == 500 <==> Outcome(stageId, env) !in {Rejected, Committed}
    ensures Outcome(stageId, env) in {StageFetchFailed, ScoresFetchFailed, StageWriteFailed} ==>
      ImportedStages(stages, stageId, env) == stages
  {
  }

  /** An import touches its own stage only. */
  lemma ImportIsolatesStages(stages: map<string, StageRecord>, stageId: Option<string>, env: ImportEnv, other: string)
    requires stageId != Some(other)
    ensures other in ImportedStages(stages, stageId, env) <==> other in stages
    ensures other in stages ==> ImportedStages(stages, stageId, env)[other] == stages[other]
  {
  }

  /** Importing the same upstream data again changes nothing but the import time. */
  lemma ReimportIdempotent(stages: map<string, StageRecord>, stageId: Option<string>, env: ImportEnv, later: Timestamp)
    requires Outcome(stageId, env) == Committed
    ensures var once := ImportedStages(stages, stageId, env);
      var twice := ImportedStages(once, stageId, env.(now := later));
      && twice.Keys == once.Keys
      && twice[stageId.value].scores == once[stageId.value].scores
      && twice[stageId.value].doc == once[stageId.value].doc.(createdAt := later)
  {
    var batch := BatchOf(env.scoresReply.scores);
    var before := ScoresOf(stages, stageId.value);
    assert before + batch + batch == before + batch;
  }

  /** Importing into a stage with no stored scores, the retrieve then lists
      exactly the fetched scores (when their ids differ). */
  lemma FreshImportListsFetched(stages: map<string, StageRecord>, stageId: Option<string>, env: ImportEnv, list: seq<LeaderboardEntry>)
    requires Outcome(stageId, env) == Committed
    requires ScoresOf(stages, stageId.value) == map[]
    requires DistinctIds(env.scoresReply.scores)
    requires IsOrderedListing(list, ScoresOf(ImportedStages(stages, stageId, env), stageId.value))
    ensures multiset(list) == multiset(NormalizeAll(env.scoresReply.scores))
  {
    var batch := BatchOf(env.scoresReply.scores);
    CommittedScores(stages, stageId, env);
    assert map[] + batch == batch;
    BatchBag(env.scoresReply.scores);
  }

  /** What a committed import leaves in the stage's scores. */
  lemma CommittedScores(stages: map<string, StageRecord>, stageId: Option<string>, env: ImportEnv)
    requires Outcome(stageId, env) == Committed
    ensures ScoresOf(ImportedStages(stages, stageId, env), stageId.value) ==
      ScoresOf(stages, stageId.value) + BatchOf(env.scoresReply.scores)
  {
  }

  /** The two-score scenario: a stage imported with a (hit factor 90) and b
      (hit factor 80) is retrieved as [a, b]. */
  lemma TwoScoreScenario(stages: map<string, StageRecord>, env: ImportEnv, a: Score, b: Score, list: seq<LeaderboardEntry>)
    requires "test-stage" !in stages
    requires env.stageReply.Some? && env.setSucceeds && env.commitSucceeds
    requires env.scoresReply == Results([a, b])
    requires a.id != b.id && a.hitfactorNumber == 90 && b.hitfactorNumber == 80
    requires IsOrderedListing(list, ScoresOf(ImportedStages(stages, Some("test-stage"), env), "test-stage"))
    ensures list == [Normalize(a), Normalize(b)]
  {
    assert DistinctIds([a, b]);
    FreshImportListsFetched(stages, Some("test-stage"), env, list);
    NormalizeTwo(a, b);
    TwoEntryListing(list, Normalize(a), Normalize(b));
  }

  lemma NormalizeTwo(a: Score, b: Score)
    ensures NormalizeAll([a, b]) == [Normalize(a), Normalize(b)]
  {
  }

  lemma TwoEntryListing(list: seq<LeaderboardEntry>, x: LeaderboardEntry, y: LeaderboardEntry)
    requires SortedByHitFactor(list) && multiset(list) == multiset([x, y])
    requires x.hitFactor > y.hitFactor
    ensures list == [x, y]
  {
    assert StrictlyDescending([x, y]);
    ListingUnique([x, y], list);
  }

  /** A stage with no stored scores, imported or not, is retrieved as the empty list. */
  lemma EmptyStageListsNothing(stages: map<string, StageRecord>, stageId: string, list: seq<LeaderboardEntry>)
    requires stageId !in stages || stages[stageId].scores == map[]
    requires IsOrderedListing(list, ScoresOf(stages, stageId))
    ensures list == []
  {
    EmptyListing(list);
  }

  /** The document store: every stage imported so far. */
  class Firestore {
    var stages: map<string, StageRecord>

    constructor ()
      ensures stages == map[]
    {
      stages := map[];
    }

    /** The `fetchLeaderboard` handler. */
    method FetchLeaderboard(stageId: Option<string>, env: ImportEnv)
      returns (res: Response, requests: seq<UpstreamRequest>)
      modifies this
      ensures stages == ImportedStages(old(stages), stageId, env)
      ensures res == ImportResponse(stageId, env)
      ensures requests == ImportRequests(stageId, env)
    {
      requests := [];
      if !StageIdGiven(stageId) {
        res := Response(400, Text(MissingStageId));
        return;
      }
      var id := stageId.value;

      requests := requests + [GetStage(id)];
      if env.stageReply.None? {
        res := Response(500, Text(ImportFailed));
        return;
      }
      var leaderboard := env.stageReply.value;

      var constraints := ScoreConstraints(leaderboard);
      requests := requests + [SearchScores(constraints)];
      if env.scoresReply.SearchFailed? {
        res := Response(500, Text(ImportFailed));
        return;
      }

      // Save leaderboard metadata; the scores sub-collection is kept.
      if !env.setSucceeds {
        res := Response(500, Text(ImportFailed));
        return;
      }
      var kept := ScoresOf(stages, id);
      stages := stages[id := StageRecord(MetadataOf(leaderboard, env.now), kept)];

      // `scores.forEach` throws when the reply carried no `results` list.
      if env.scoresReply.NoResults? {
        res := Response(500, Text(ImportFailed));
        return;
      }
      var scores := env.scoresReply.scores;

      // Batch save scores.
      var batch: map<string, LeaderboardEntry> := map[];
      for i := 0 to |scores|
        invariant batch == BatchOf(scores[..i])
      {
        assert scores[..i + 1][..i] == scores[..i];
        batch := batch[scores[i].id := Normalize(scores[i])];
      }
      assert scores[..|scores|] == scores;

      if !env.commitSucceeds {
        res := Response(500, Text(ImportFailed));
        return;
      }
      stages := stages[id := StageRecord(MetadataOf(leaderboard, env.now), kept + batch)];
      res := Response(200, Text(ImportSucceeded));
    }

    /** The ordered scan `scores.orderBy("hitFactor", "desc").get()`: the
        documents of the stage, hit factors non-increasing. */
    method OrderedScores(stageId: string) returns (snapshot: seq<LeaderboardEntry>)
      ensures IsOrderedListing(snapshot, ScoresOf(stages, stageId))
    {
      var docs := ScoresOf(stages, stageId);
      var pending := docs.Keys;
      snapshot := [];
      RestrictEnds(docs);
      while pending != {}
        invariant pending <= docs.Keys
        invariant SortedByHitFactor(snapshot)
        invariant multiset(snapshot) + Bag(Restrict(docs, pending)) == Bag(docs)
        decreases pending
      {
        var k :| k in pending;
        RestrictStep(docs, pending, k);
        snapshot := Insert(snapshot, docs[k]);
        pending := pending - {k};
      }
    }

    /** The `getLeaderboard` handler. It changes nothing in the store. */
    method GetLeaderboard(stageId: Option<string>, readSucceeds: bool) returns (res: Response)
      ensures !StageIdGiven(stageId) ==> res == Response(400, Text(MissingStageId))
      ensures StageIdGiven(stageId) && !readSucceeds ==> res == Response(500, Text(RetrieveFailed))
      ensures StageIdGiven(stageId) && readSucceeds ==>
        res.status == 200 && res.body.Json? && IsOrderedListing(res.body.entries, ScoresOf(stages, stageId.value))
    {
      if !StageIdGiven(stageId) {
        return Response(400, Text(MissingStageId));
      }
      if !readSucceeds {
        return Response(500, Text(RetrieveFailed));
      }
      var snapshot := OrderedScores(stageId.value);
      var scores: seq<LeaderboardEntry> := [];
      for i := 0 to |snapshot|
        invariant scores == snapshot[..i]
      {
        scores := scores + [snapshot[i]];
      }
      assert snapshot[..|snapshot|] == snapshot;
      res := Response(200, Json(scores));
    }
  }
}
