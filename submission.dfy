/**
 * The submission orchestrator: `create` stores a PENDING submission, and a
 * scoring run (`processScoring`) moves it to SCORED, or to FLAGGED when a
 * step of the run throws. The table is a map from submission id to row.
 */
module Submissions {
  import opened Wrappers
  import opened Scoring
  import opened ScoreStore

  datatype Status = Pending | Scored | Flagged

  /** A row of the `submissions` table, as far as scoring uses it. */
  datatype Submission = Submission(id: Uuid, umkmId: Uuid, submissionDate: nat, status: Status)

  /**
   * The request body's `data`: the reported metrics, and the `umkm_id` and
   * `status` columns, which a payload may name itself.
   */
  datatype Payload = Payload(metrics: SubmissionData, umkmIdField: Option<Uuid>, statusField: Option<string>)

  /**
   * Which steps of one scoring run throw: the scoring itself (an internal
   * error), saving the score, saving the SCORED status, and saving the
   * FLAGGED status in the error handler.
   */
  datatype Faults = Faults(scoringThrows: bool, scoreSaveThrows: bool, statusSaveThrows: bool, flagSaveThrows: bool)

  /** Some step before the SCORED status is stored throws. */
  predicate RunFails(f: Faults) {
    f.scoringThrows || f.scoreSaveThrows || f.statusSaveThrows
  }

  /** The status a scoring run leaves behind. */
  function StatusAfterRun(before: Status, f: Faults): (s: Status)
    ensures !RunFails(f) ==> s == Scored
    ensures RunFails(f) && !f.flagSaveThrows ==> s == Flagged
    ensures RunFails(f) && f.flagSaveThrows ==> s == before
    ensures before == Pending ==> (s == Scored <==> !RunFails(f))
  {
    if !RunFails(f) then Scored
    else if !f.flagSaveThrows then Flagged
    else before
  }

  /** A score record exists for the run unless scoring or saving the score threw. */
  predicate RunSavesScore(f: Faults) {
    !f.scoringThrows && !f.scoreSaveThrows
  }

  /** Saving the score comes first, so a FLAGGED run may still leave a record. */
  lemma RecordMayOutliveFlag()
    ensures var f := Faults(false, false, true, false);
      RunSavesScore(f) && StatusAfterRun(Pending, f) == Flagged
  {
  }

  /**
   * The table's bookkeeping: each row is stored under its own id, ids are
   * below `nextId`, dates below `clock`, and a larger id means a later
   * date.
   */
  ghost predicate RowsValid(rows: map<Uuid, Submission>, nextId: Uuid, clock: nat) {
    && (forall id :: id in rows ==> rows[id].id == id && id < nextId && rows[id].submissionDate < clock)
    && (forall a, b :: a in rows && b in rows && a < b ==> rows[a].submissionDate < rows[b].submissionDate)
  }

  /** Changing a row's status keeps the bookkeeping. */
  lemma StatusUpdateKeepsRowsValid(rows: map<Uuid, Submission>, nextId: Uuid, clock: nat, id: Uuid, st: Status)
    requires RowsValid(rows, nextId, clock) && id in rows
    ensures RowsValid(rows[id := rows[id].(status := st)], nextId, clock)
  {
  }

  /** Inserting a new row and then changing it leaves every other row as it was. */
  lemma InsertThenUpdate(rows: map<Uuid, Submission>, id: Uuid, row: Submission, row': Submission)
    requires id !in rows
    ensures var r := rows[id := row][id := row'];
      && id in r && r[id] == row'
      && (forall k :: k in rows ==> k in r && r[k] == rows[k])
      && r.Keys == rows.Keys + {id}
  {
  }

  /** Rows of one applicant among ids below `n`, highest id first. */
  function RowsDownFrom(rows: map<Uuid, Submission>, n: nat, umkmId: Uuid): (r: seq<Submission>)
    ensures forall k :: 0 <= k < |r| ==>
      r[k].id < n && r[k].id in rows && rows[r[k].id] == r[k] && r[k].umkmId == umkmId
    ensures forall id :: id in rows && id < n && rows[id].umkmId == umkmId && rows[id].id == id ==> rows[id] in r
    ensures forall k, m :: 0 <= k < m < |r| ==> r[k].id > r[m].id
    decreases n
  {
    if n == 0 then []
    else
      var rest := RowsDownFrom(rows, n - 1, umkmId);
      if n - 1 in rows && rows[n - 1].umkmId == umkmId && rows[n - 1].id == n - 1
      then [rows[n - 1]] + rest
      else rest
  }

  /** On a well-kept table, `RowsDownFrom` from `nextId` is the applicant's rows, newest first. */
  lemma RowsDownFromNewestFirst(rows: map<Uuid, Submission>, nextId: Uuid, clock: nat, umkmId: Uuid)
    requires RowsValid(rows, nextId, clock)
    ensures var r := RowsDownFrom(rows, nextId, umkmId);
      && (forall s :: s in r <==> s in rows.Values && s.umkmId == umkmId)
      && (forall k, m :: 0 <= k < m < |r| ==> r[k].submissionDate > r[m].submissionDate)
  {
    var r := RowsDownFrom(rows, nextId, umkmId);
    forall s | s in rows.Values && s.umkmId == umkmId
      ensures s in r
    {
      var id :| id in rows && rows[id] == s;
    }
    forall s | s in r
      ensures s in rows.Values && s.umkmId == umkmId
    {
      var k :| 0 <= k < |r| && r[k] == s;
    }
    forall k, m | 0 <= k < m < |r|
      ensures r[k].submissionDate > r[m].submissionDate
    {
      assert rows[r[m].id] == r[m] && rows[r[k].id] == r[k];
    }
  }

  class SubmissionService {
    var submissions: map<Uuid, Submission>
    /** The next submission id to hand out. */
    var nextId: Uuid
    /** The creation time the next submission gets. */
    var clock: nat
    const scores: ScoreStore

    ghost predicate Valid()
      reads this, scores
    {
      && scores.Valid()
      && RowsValid(submissions, nextId, clock)
    }

    constructor (store: ScoreStore)
      requires store.Valid()
      ensures Valid() && submissions == map[] && scores == store
    {
      submissions, nextId, clock := map[], 0, 0;
      scores := store;
    }

    /**
     * `findAll`: the applicant's submissions, newest `submission_date`
     * first.
     */
    function FindAll(umkmId: Uuid): (r: seq<Submission>)
      reads this, scores
      requires Valid()
      ensures forall s :: s in r <==> s in submissions.Values && s.umkmId == umkmId
      ensures forall k, m :: 0 <= k < m < |r| ==> r[k].submissionDate > r[m].submissionDate
    {
      RowsDownFromNewestFirst(submissions, nextId, clock, umkmId);
      RowsDownFrom(submissions, nextId, umkmId)
    }

    /**
     * `create`: stores the payload as a new PENDING submission and returns
     * it. The status is written after the payload's own columns, so a
     * payload `status` is overwritten; `umkm_id` is written before them, so
     * a payload `umkm_id` wins.
     */
    method Create(umkmId: Uuid, payload: Payload) returns (saved: Submission)
      requires Valid()
      modifies this
      ensures Valid()
      ensures saved.id !in old(submissions)
      ensures saved.status == Pending
      ensures saved.umkmId == payload.umkmIdField.GetOr(umkmId)
      ensures forall id :: id in old(submissions) ==> old(submissions)[id].submissionDate < saved.submissionDate
      ensures submissions == old(submissions)[saved.id := saved]
      ensures unchanged(scores)
    {
      saved := Submission(nextId, payload.umkmIdField.GetOr(umkmId), clock, Pending);
      submissions := submissions[nextId := saved];
      nextId := nextId + 1;
      clock := clock + 1;
    }

    /** Saves a stored row with a new status. */
    method SetStatus(submissionId: Uuid, st: Status)
      requires Valid() && submissionId in submissions
      modifies this
      ensures Valid()
      ensures submissions == old(submissions)[submissionId := old(submissions)[submissionId].(status := st)]
      ensures nextId == old(nextId) && clock == old(clock)
    {
      StatusUpdateKeepsRowsValid(submissions, nextId, clock, submissionId, st);
      submissions := submissions[submissionId := submissions[submissionId].(status := st)];
    }

    /** The error handler: re-reads the row and saves it FLAGGED. */
    method FlagSubmission(submissionId: Uuid, faults: Faults)
      requires Valid()
      modifies this
      ensures Valid()
      ensures submissions.Keys == old(submissions).Keys
      ensures submissionId in submissions && !faults.flagSaveThrows ==>
        submissions == old(submissions)[submissionId := old(submissions)[submissionId].(status := Flagged)]
      ensures submissionId !in submissions || faults.flagSaveThrows ==> submissions == old(submissions)
      ensures nextId == old(nextId) && clock == old(clock)
    {
      if submissionId in submissions && !faults.flagSaveThrows {
        SetStatus(submissionId, Flagged);
      }
    }

    /**
     * `processScoring`: scores `data`, saves the score against the stored
     * row's applicant, then saves the row as SCORED; any step that throws
     * leads to the error handler, which marks the row FLAGGED. An unknown
     * id changes nothing. `saved` is the score record written, if any.
     */
    method ProcessScoring(submissionId: Uuid, data: SubmissionData, advisory: Option<AdvisoryResponse>, faults: Faults)
      returns (saved: Option<Score>)
      requires Valid()
      modifies this, scores
      ensures Valid()
      ensures nextId == old(nextId) && clock == old(clock)
      ensures submissionId !in old(submissions) ==>
        saved.None? && submissions == old(submissions) && scores.records == old(scores.records)
      ensures submissionId in old(submissions) ==>
        submissions == old(submissions)[submissionId :=
          old(submissions)[submissionId].(status := StatusAfterRun(old(submissions)[submissionId].status, faults))]
      ensures submissionId in old(submissions) && RunSavesScore(faults) ==>
        saved == Some(ToRecord(old(scores.nextId), submissionId, old(submissions)[submissionId].umkmId,
                               AdvisedResult(data, advisory), old(scores.clock)))
      ensures !(submissionId in old(submissions) && RunSavesScore(faults)) ==> saved.None?
      ensures scores.records == old(scores.records) + if saved.Some? then [saved.value] else []
    {
      saved := None;
      if submissionId !in submissions {
        return;
      }
      saved := ScoreAndSave(submissionId, submissions[submissionId].umkmId, data, advisory, faults);
      if RunFails(faults) {
        FlagSubmission(submissionId, faults);
      } else {
        SetStatus(submissionId, Scored);
      }
    }

    /**
     * The steps of a scoring run up to the status write: score the data and
     * save the score, unless one of those steps throws.
     */
    method ScoreAndSave(submissionId: Uuid, umkmId: Uuid, data: SubmissionData, advisory: Option<AdvisoryResponse>, faults: Faults)
      returns (saved: Option<Score>)
      requires scores.Valid()
      modifies scores
      ensures scores.Valid()
      ensures RunSavesScore(faults) ==>
        saved == Some(ToRecord(old(scores.nextId), submissionId, umkmId, AdvisedResult(data, advisory), old(scores.clock)))
      ensures !RunSavesScore(faults) ==> saved.None?
      ensures scores.records == old(scores.records) + if saved.Some? then [saved.value] else []
    {
      saved := None;
      if faults.scoringThrows {
        return;
      }
      var scoreResult := CalculateCircularReadinessScore(data, advisory);
      if faults.scoreSaveThrows {
        return;
      }
      var record := scores.SaveScore(submissionId, umkmId, scoreResult);
      saved := Some(record);
    }

    /**
     * `create` followed by the scoring run it triggers. The caller gets the
     * PENDING row whatever the run does; a failed advisory call alone still
     * ends SCORED, since it is absorbed inside scoring.
     */
    method CreateAndScore(umkmId: Uuid, payload: Payload, advisory: Option<AdvisoryResponse>, faults: Faults)
      returns (created: Submission)
      requires Valid()
      modifies this, scores
      ensures Valid()
      ensures created.status == Pending && created.id !in old(submissions)
      ensures created.id in submissions
      ensures submissions[created.id] == created.(status := StatusAfterRun(Pending, faults))
      ensures forall id :: id in old(submissions) ==> id in submissions && submissions[id] == old(submissions)[id]
      ensures submissions.Keys == old(submissions).Keys + {created.id}
    {
      created := Create(umkmId, payload);
      InsertThenUpdate(old(submissions), created.id, created, created.(status := StatusAfterRun(Pending, faults)));
      var _ := ProcessScoring(created.id, payload.metrics, advisory, faults);
    }
  }
}
