/** The worker's batches over the runs table: first judging, and the
    revalidation loop that re-judges what an older policy or another bundle
    decided. */
module Revalidation {
  import opened RoomTypes
  import opened Verdicts

  type RunId = nat

  /** The two stamps of a verdict row; None is NULL. */
  datatype VerdictRow = VerdictRow(policyVersion: Option<int>, bundleSha: Option<string>, validation: ValidationDoc)

  datatype RunRow = RunRow(
    stored: StoredRun, status: RunStatus, lastError: string, verdict: Option<VerdictRow>, overridden: bool)

  type Runs = map<RunId, RunRow>

  const DEFAULT_BATCH_SIZE := 20

  /** A verdict row exists exactly for judged runs. */
  ghost predicate Consistent(db: Runs) {
    forall id <- db :: db[id].status != Pending <==> db[id].verdict.Some?
  }

  predicate IsStale(row: RunRow, version: int, sha: string) {
    && row.verdict.Some? && !row.overridden
    && (row.verdict.value.policyVersion.None? || row.verdict.value.policyVersion.value < version
        || row.verdict.value.bundleSha != Some(sha))
  }

  function StaleIds(db: Runs, version: int, sha: string): (ids: set<RunId>) {
    set id | id in db && IsStale(db[id], version, sha)
  }

  function PendingIds(db: Runs): (ids: set<RunId>) {
    set id | id in db && db[id].status == Pending
  }

  /** A decision written to both tables. */
  function Written(row: RunRow, d: Decision): (r: RunRow) {
    row.(
      stored := row.stored.(run := row.stored.run.(attempts := d.attempts)),
      status := d.status, lastError := d.lastError,
      verdict := Some(VerdictRow(
        if d.policyVersion > 0 then Some(d.policyVersion) else None,
        if d.bundleSha != "" then Some(d.bundleSha) else None,
        d.validation)))
  }

  datatype Setup = Setup(world: World, decider: Decider, sha: string)

  /** What a batch is handed to decide each claimed run with. */
  type Deciding = StoredRun -> Decision

  function DecideWith(s: Setup): (decide: Deciding) {
    (run: StoredRun) => JudgeRun(s.world, s.decider, s.sha, run)
  }

  function Rejudging(s: Setup): (r: Setup) {
    s.(decider := ForRejudgement(s.decider))
  }

  function Judged(decide: Deciding, row: RunRow): (r: RunRow) {
    Written(row, decide(row.stored))
  }

  /** The table after the rows `ids` were each judged once. */
  function AfterBatch(decide: Deciding, db: Runs, ids: set<RunId>): (db': Runs) {
    map id | id in db :: if id in ids then Judged(decide, db[id]) else db[id]
  }

  // ---------------------------------------------------------------- what a batch does to staleness

  ghost predicate StampedBy(decide: Deciding, version: int, sha: string) {
    && COLUMN_NONE <= version && sha != ""
    && forall run: StoredRun :: StampsRun(decide(run), version, sha, run)
  }

  ghost predicate StampsRun(d: Decision, version: int, sha: string, run: StoredRun) {
    && d.bundleSha == sha && d.policyVersion == version && d.status != Pending
    && (d.attempts > run.run.attempts ==> d.status == Flagged)
  }

  /** Whatever the world answers, both stamps are written. */
  lemma JudgingStamps(s: Setup)
    requires s.decider.Storable() && s.sha != ""
    ensures StampedBy(DecideWith(s), s.decider.version, s.sha)
  {
    forall run: StoredRun
      ensures StampsRun(DecideWith(s)(run), s.decider.version, s.sha, run)
    {
      JudgeRunIsStamped(s.world, s.decider, s.sha, run);
    }
  }

  lemma JudgeRunIsStamped(w: World, p: Decider, sha: string, run: StoredRun)
    ensures StampsRun(JudgeRun(w, p, sha, run), p.version, sha, run)
  {
    var text := ResolveText(w, run);
    if text.0.None? {
      EveryDecisionIsStamped(p, sha, run.run, EMPTY_RESULT, text.1);
    } else if run.log.None? {
      EveryDecisionIsStamped(p, sha, run.run, EMPTY_RESULT, Some(Failed("replay: decompress log")));
    } else {
      var out := w.replay(run.run, text.0.value, run.log.value, CanariesArmedAt(run.createdAt, w.canaryEpoch));
      EveryDecisionIsStamped(p, sha, run.run, out.0, out.1);
    }
  }

  lemma RowAfterJudging(decide: Deciding, version: int, sha: string, row: RunRow)
    requires StampedBy(decide, version, sha)
    ensures var r := Judged(decide, row);
            && r.status != Pending && r.verdict.Some? && r.overridden == row.overridden
            && (IsStale(r, version, sha) <==> version == COLUMN_NONE && !row.overridden)
    ensures var r, d := Judged(decide, row), decide(row.stored);
            && r.status == d.status && r.lastError == d.lastError && r.stored.run.attempts == d.attempts
            && r.stored == row.stored.(run := row.stored.run.(attempts := d.attempts))
            && r.verdict.value.validation == d.validation && r.verdict.value.bundleSha == Some(sha)
            && r.verdict.value.policyVersion == if version == COLUMN_NONE then None else Some(version)
  {
    assert StampsRun(decide(row.stored), version, sha, row.stored);
  }

  /** A re-judged row leaves the stale set if and only if the judge has a version. */
  lemma BatchShrinksStale(decide: Deciding, version: int, sha: string, db: Runs, ids: set<RunId>)
    requires StampedBy(decide, version, sha) && ids <= StaleIds(db, version, sha)
    ensures StaleIds(AfterBatch(decide, db, ids), version, sha)
         == if version != COLUMN_NONE then StaleIds(db, version, sha) - ids else StaleIds(db, version, sha)
  {
    forall id <- db
      ensures id in ids ==> (IsStale(AfterBatch(decide, db, ids)[id], version, sha) <==> version == COLUMN_NONE)
    {
      RowAfterJudging(decide, version, sha, db[id]);
    }
  }

  /** Nothing is stale exactly when every judged run that nobody has overridden was judged
      under this policy version or a later one, and by this bundle. A run somebody has
      overridden is never judged again. */
  lemma NothingStaleMeans(decide: Deciding, version: int, sha: string, db: Runs, ids: set<RunId>)
    requires ids <= StaleIds(db, version, sha)
    ensures StaleIds(db, version, sha) == {} <==>
      forall id <- db :: db[id].verdict.Some? && !db[id].overridden ==>
        && db[id].verdict.value.policyVersion.Some? && db[id].verdict.value.policyVersion.value >= version
        && db[id].verdict.value.bundleSha == Some(sha)
    ensures forall id <- db :: db[id].overridden ==> AfterBatch(decide, db, ids)[id] == db[id]
  {
    if StaleIds(db, version, sha) == {} {
      forall id | id in db
        ensures !IsStale(db[id], version, sha)
      {
        assert id !in StaleIds(db, version, sha);
      }
    }
  }

  lemma BatchKeepsConsistent(decide: Deciding, version: int, sha: string, db: Runs, ids: set<RunId>)
    requires StampedBy(decide, version, sha) && Consistent(db)
    ensures Consistent(AfterBatch(decide, db, ids))
    ensures PendingIds(AfterBatch(decide, db, ids)) == PendingIds(db) - ids
  {
    forall id <- db {
      RowAfterJudging(decide, version, sha, db[id]);
    }
  }

  lemma TwoBatches(decide: Deciding, db: Runs, a: set<RunId>, b: set<RunId>)
    requires a !! b
    ensures AfterBatch(decide, AfterBatch(decide, db, a), b) == AfterBatch(decide, db, a + b)
  {}

  lemma Batched(decide: Deciding, db0: Runs, db1: Runs, db2: Runs, done: set<RunId>, ids: set<RunId>)
    requires done !! ids && db1 == AfterBatch(decide, db0, done) && db2 == AfterBatch(decide, db1, ids)
    ensures db2 == AfterBatch(decide, db0, done + ids)
  {
    TwoBatches(decide, db0, done, ids);
  }

  lemma OneMore(decide: Deciding, db: Runs, done: set<RunId>, id: RunId)
    requires id in db && id !in done
    ensures AfterBatch(decide, db, done)[id := Judged(decide, db[id])] == AfterBatch(decide, db, done + {id})
    ensures AfterBatch(decide, db, done)[id] == db[id]
  {}

  lemma MoreDone(all: set<RunId>, done: set<RunId>, ids: set<RunId>)
    requires done <= all && ids <= all - done
    ensures done !! ids && done + ids <= all && all - (done + ids) == all - done - ids
    ensures |done + ids| == |done| + |ids|
  {}

  lemma Rest(all: set<RunId>, done: set<RunId>)
    requires done <= all
    ensures all - (all - done) == done && |all| == |all - done| + |done|
  {
    assert all == (all - done) + done;
  }

  datatype Tally = Tally(accepted: nat, flagged: nat, rejected: nat, failed: nat) {
    function Total(): (n: nat) { accepted + flagged + rejected }
  }

  function Counted(t: Tally, before: int, d: Decision): (t': Tally) {
    var t1 := match d.status
      case Accepted => t.(accepted := t.accepted + 1)
      case Rejected => t.(rejected := t.rejected + 1)
      case _ => t.(flagged := t.flagged + 1);
    if d.lastError != "" && d.attempts > before then t1.(failed := t1.failed + 1) else t1
  }

  // ---------------------------------------------------------------- the worker

  class Worker {
    var db: Runs
    const setup: Setup
    const batchSize: nat

    ghost predicate Valid() reads this {
      setup.decider.Storable() && setup.sha != "" && batchSize > 0 && Consistent(db)
    }

    ghost function Stale(): (ids: set<RunId>) reads this {
      StaleIds(db, setup.decider.version, setup.sha)
    }

    constructor (runs: Runs, s: Setup, batch: int)
      requires s.decider.Storable() && s.sha != "" && Consistent(runs)
      ensures Valid() && db == runs && setup == s && batchSize == if batch <= 0 then DEFAULT_BATCH_SIZE else batch
    {
      db := runs;
      setup := s;
      batchSize := if batch <= 0 then DEFAULT_BATCH_SIZE else batch;
    }

    /** Any `limit` of the candidates, or all of them. */
    static method Claim(candidates: set<RunId>, limit: nat) returns (ids: set<RunId>)
      ensures ids <= candidates
      ensures |ids| == if |candidates| < limit then |candidates| else limit
    {
      ids := {};
      var rest := candidates;
      while rest != {} && |ids| < limit
        invariant ids <= candidates && rest == candidates - ids
        invariant |ids| + |rest| == |candidates|
        invariant |ids| <= limit
        decreases rest
      {
        var id :| id in rest;
        ids := ids + {id};
        rest := rest - {id};
      }
    }

    /** Decides one run and writes the decision. */
    method JudgeOne(id: RunId, decide: Deciding, t: Tally) returns (t': Tally)
      requires id in db && StampedBy(decide, setup.decider.version, setup.sha) && t.failed <= t.flagged
      modifies this
      ensures db == old(db)[id := Judged(decide, old(db)[id])]
      ensures t'.Total() == t.Total() + 1 && t'.failed <= t'.flagged
    {
      var run := db[id].stored;
      var d := decide(run);
      assert StampsRun(d, setup.decider.version, setup.sha, run);
      t' := Counted(t, run.run.attempts, d);
      db := db[id := Written(db[id], d)];
    }

    /** Judges the claimed rows one by one. A failed replay is also counted
        among the flagged. */
    method Process(ids: set<RunId>, decide: Deciding) returns (tally: Tally)
      requires ids <= db.Keys && StampedBy(decide, setup.decider.version, setup.sha)
      modifies this
      ensures db == AfterBatch(decide, old(db), ids)
      ensures tally.Total() == |ids| && tally.failed <= tally.flagged
    {
      tally := Tally(0, 0, 0, 0);
      var rest := ids;
      ghost var done: set<RunId> := {};
      assert AfterBatch(decide, db, {}) == db;
      while rest != {}
        invariant done !! rest && done + rest == ids
        invariant db == AfterBatch(decide, old(db), done)
        invariant tally.Total() + |rest| == |ids|
        invariant tally.failed <= tally.flagged
      {
        var id :| id in rest;
        OneMore(decide, old(db), done, id);
        tally := JudgeOne(id, decide, tally);
        done := done + {id};
        rest := rest - {id};
      }
      assert done == ids;
    }

    /** First judging: each claimed run leaves the queue for good. */
    method RunBatch() returns (claimed: nat)
      requires Valid()
      modifies this
      ensures Valid() && claimed == |old(PendingIds(db))| - |PendingIds(db)|
      ensures claimed == if |old(PendingIds(db))| < batchSize then |old(PendingIds(db))| else batchSize
      ensures PendingIds(db) <= old(PendingIds(db))
      ensures db == AfterBatch(DecideWith(setup), old(db), old(PendingIds(db)) - PendingIds(db))
    {
      var ids := Claim(PendingIds(db), batchSize);
      JudgingStamps(setup);
      var _ := Process(ids, DecideWith(setup));
      BatchKeepsConsistent(DecideWith(setup), setup.decider.version, setup.sha, old(db), ids);
      Rest(old(PendingIds(db)), ids);
      claimed := |ids|;
    }

    /** Re-judges up to a batch of stale runs. */
    method RevalidateBatch() returns (claimed: nat, ghost ids: set<RunId>)
      requires Valid()
      modifies this
      ensures Valid() && claimed == |ids| && ids <= old(Stale())
      ensures claimed == if |old(Stale())| < batchSize then |old(Stale())| else batchSize
      ensures db == AfterBatch(DecideWith(Rejudging(setup)), old(db), ids)
      ensures Stale() == if setup.decider.version != COLUMN_NONE then old(Stale()) - ids else old(Stale())
    {
      var claim := Claim(StaleIds(db, setup.decider.version, setup.sha), batchSize);
      JudgingStamps(Rejudging(setup));
      var _ := Process(claim, DecideWith(Rejudging(setup)));
      ids := claim;
      BatchShrinksStale(DecideWith(Rejudging(setup)), setup.decider.version, setup.sha, old(db), claim);
      BatchKeepsConsistent(DecideWith(Rejudging(setup)), setup.decider.version, setup.sha, old(db), claim);
      claimed := |claim|;
    }

    /** The revalidate command. Under a judge with a version each claimed run is
        re-judged once and leaves the stale set, the loop ends when nothing is
        stale or `limit` is reached, and nothing else changes. Under the judge
        without one nothing ever leaves the set: the loop ends at `limit` only. */
    method Revalidate(limit: int) returns (total: nat)
      requires Valid()
      modifies this
      ensures Valid()
      ensures total == 0 <==> limit <= 0 || old(Stale()) == {}
      ensures limit > 0 ==> total < limit + batchSize
      ensures setup.decider.version != COLUMN_NONE ==>
        && Stale() <= old(Stale()) && total == |old(Stale())| - |Stale()|
        && (limit <= total || Stale() == {})
        && db == AfterBatch(DecideWith(Rejudging(setup)), old(db), old(Stale()) - Stale())
      ensures setup.decider.version == COLUMN_NONE ==> Stale() == old(Stale()) && (limit <= total || Stale() == {})
    {
      total := 0;
      ghost var how := DecideWith(Rejudging(setup));
      ghost var all := Stale();
      ghost var done: set<RunId> := {};
      ghost var versioned := setup.decider.version != COLUMN_NONE;
      assert AfterBatch(how, db, {}) == db;
      while total < limit
        invariant Valid()
        invariant limit > 0 ==> total < limit + batchSize
        invariant total == 0 || (all != {} && limit > 0)
        invariant versioned ==> done <= all && Stale() == all - done && |done| == total
        invariant versioned ==> db == AfterBatch(how, old(db), done)
        invariant !versioned ==> Stale() == all
        decreases limit - total
      {
        ghost var was := db;
        var n, ids := RevalidateBatch();
        if versioned {
          MoreDone(all, done, ids);
          Batched(how, old(db), was, db, done, ids);
          done := done + ids;
        }
        if n == 0 {
          break;
        }
        total := total + n;
      }
      if versioned {
        Rest(all, done);
      }
    }
  }
}
