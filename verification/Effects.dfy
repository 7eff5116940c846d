/** What the transactions write and when they are refused, and over whole runs
    where every fact of a record comes from. */
module Effects {
  import opened Wrappers
  import opened Control
  import opened Transactions
  import opened Lease
  import opened History
  import opened Exact
  import opened Protocol
  import opened ProtocolProofs
  import opened Runs

  // --------------------------------------------------------------- refusals

  predicate Stands(db: Db, k: Key, states: set<QueueState>) {
    At(db, k).Some? && At(db, k).value in states
  }

  /** Queue guards are about the state of the operation. */
  lemma MatchIsState(db: Db, k: Key, states: set<QueueState>)
    requires Base(db)
    ensures Matches(db.queue, k, states) <==> Stands(db, k, states)
    ensures HasRow(db.queue, k) <==> At(db, k).Some?
  {
    if At(db, k).Some? {
      var n := RowAt(db, k);
      MatchesAt(db.queue, n, states);
    }
  }

  /** A queued operation cannot be torn down while the worker is reserved. */
  predicate Blocked(db: Db, k: Key) {
    Stands(db, k, {Queued}) && AnyIn(db.queue, RESERVED)
  }

  function When(refused: bool, error: Error): Option<Error> {
    if refused then Some(error) else None
  }

  /** What the caller of each transaction is told instead of success. */
  function Refusal(db: Db, t: Txn): Option<Error> {
    match t
    case TCreateJob(id, now) => When(id in db.jobs, Duplicate)
    case TCreateBuild(id, now) => When(id in db.builds, Duplicate)
    case TQueueJob(id, digest) =>
      When(!(id in db.jobs && db.jobs[id].status == Preparing && Stands(db, JobKey(id), {Queued, Admitting})), NotFound)
    case TSync(id, remote) => None
    case TCancelJob(id, now) => When(id !in db.jobs || db.jobs[id].status.Terminal(), NotFound)
    case TFailJob(id, now) =>
      if id !in db.jobs || db.jobs[id].status !in {Preparing, JobQueued} then Some(NotFound)
      else When(Blocked(db, JobKey(id)), Constraint)
    case TAcquire(now) => None
    case TRequeue(k) => When(At(db, k) != Some(Admitting), NotFound)
    case TActivate(k) => When(At(db, k) != Some(Admitting), NotFound)
    case TBeginCleanup(k) => if At(db, k).None? then Some(NotFound) else When(Blocked(db, k), Constraint)
    case TClaim => None
    case TComplete(k) => if At(db, k).None? then Some(NotFound) else When(Stands(db, k, OPEN), NotTerminal)
    case TEmergency(now) =>
      var n := Oldest(db.queue, EXECUTING);
      When(n < |db.queue| && RecordIsTerminal(db, db.queue[n].key), Missing)
    case TFinishBuild(id, status, exitCode, now) =>
      if !status.Terminal() then Some(NotTerminal) else When(id !in db.builds || db.builds[id].status.Terminal(), NotFound)
    case TRenew(k, now) => When(!Stands(db, k, OPEN), NotFound)
    case TSaveBaseline(k, resources) => None
  }

  lemma RecordsHaveRows(db: Db, id: string)
    requires Base(db)
    ensures id in db.jobs <==> HasRow(db.queue, JobKey(id))
    ensures id in db.builds <==> HasRow(db.queue, BuildKey(id))
  {
    if HasRow(db.queue, JobKey(id)) { var n := FindRow(db, JobKey(id)); assert RowRecorded(db, db.queue[n]); }
    if HasRow(db.queue, BuildKey(id)) { var n := FindRow(db, BuildKey(id)); assert RowRecorded(db, db.queue[n]); }
  }

  lemma CreateRefused(db: Db, t: Txn)
    requires Base(db) && (t.TCreateJob? || t.TCreateBuild?)
    ensures Run(db, t) == if Refusal(db, t).Some? then Err(Refusal(db, t).value) else Ok(Next(db, t))
  {
    RecordsHaveRows(db, t.id);
    OnlyQueuedCleanupTrips(db, t);
  }

  lemma JobRefused(db: Db, t: Txn)
    requires Base(db) && (t.TQueueJob? || t.TSync? || t.TCancelJob? || t.TFailJob?)
    ensures Run(db, t) == if Refusal(db, t).Some? then Err(Refusal(db, t).value) else Ok(Next(db, t))
  {
    MatchIsState(db, JobKey(t.id), {Queued, Admitting});
    MatchIsState(db, JobKey(t.id), {Queued});
    OnlyQueuedCleanupTrips(db, t);
  }

  lemma RowRefused(db: Db, t: Txn)
    requires Base(db) && (t.TRequeue? || t.TActivate? || t.TRenew?)
    ensures Run(db, t) == if Refusal(db, t).Some? then Err(Refusal(db, t).value) else Ok(Next(db, t))
  {
    MatchIsState(db, t.k, {Admitting});
    MatchIsState(db, t.k, OPEN);
    OnlyQueuedCleanupTrips(db, t);
    if t.TActivate? && At(db, t.k) == Some(Admitting) { var n := RowAt(db, t.k); }
  }

  lemma CleanupRefused(db: Db, t: Txn)
    requires Base(db) && (t.TBeginCleanup? || t.TComplete?)
    ensures Run(db, t) == if Refusal(db, t).Some? then Err(Refusal(db, t).value) else Ok(Next(db, t))
  {
    MatchIsState(db, t.k, {Queued});
    MatchIsState(db, t.k, OPEN);
    MatchIsState(db, t.k, TEARDOWN);
    OnlyQueuedCleanupTrips(db, t);
  }

  lemma OtherRefused(db: Db, t: Txn)
    requires Base(db) && (t.TAcquire? || t.TClaim? || t.TEmergency? || t.TFinishBuild? || t.TSaveBaseline?)
    ensures Run(db, t) == if Refusal(db, t).Some? then Err(Refusal(db, t).value) else Ok(Next(db, t))
  {
    OnlyQueuedCleanupTrips(db, t);
    if t.TEmergency? && Oldest(db.queue, EXECUTING) < |db.queue| {
      assert RowRecorded(db, db.queue[Oldest(db.queue, EXECUTING)]);
    }
  }

  /** Of every transaction: it is refused exactly in the stated states of its
      operation and record, with the stated error; and then nothing changes. */
  lemma RefusedExactly(db: Db, t: Txn)
    requires Base(db)
    ensures Run(db, t).Err? <==> Refusal(db, t).Some?
    ensures Run(db, t).Err? ==> Run(db, t).error == Refusal(db, t).value && Next(db, t) == db
  {
    if t.TCreateJob? || t.TCreateBuild? {
      CreateRefused(db, t);
    } else if t.TQueueJob? || t.TSync? || t.TCancelJob? || t.TFailJob? {
      JobRefused(db, t);
    } else if t.TRequeue? || t.TActivate? || t.TRenew? {
      RowRefused(db, t);
    } else if t.TBeginCleanup? || t.TComplete? {
      CleanupRefused(db, t);
    } else {
      OtherRefused(db, t);
    }
  }

  // ------------------------------------------------------- what is written

  /** A report is recorded as it came, and touches no other job. */
  lemma SyncRecords(db: Db, id: string, remote: Remote)
    requires Base(db) && id in db.jobs && !db.jobs[id].status.Terminal()
    ensures var jobs := Next(db, TSync(id, remote)).jobs;
            && jobs.Keys == db.jobs.Keys && (forall other :: other in jobs && other != id ==> jobs[other] == db.jobs[other])
            && jobs[id].status == remote.status && jobs[id].exitCode == remote.exitCode
            && jobs[id].finishedAt == remote.finishedAt && jobs[id].cancelRequested == remote.cancelRequested
            && jobs[id].digest == db.jobs[id].digest
  {
    RefusedExactly(db, TSync(id, remote));
  }

  /** A start commits the digest it was given and puts the job back into the queue. */
  lemma StartRecords(db: Db, id: string, digest: string)
    requires Base(db) && Refusal(db, TQueueJob(id, digest)).None?
    ensures var db' := Next(db, TQueueJob(id, digest));
            && id in db'.jobs && db'.jobs[id].status == JobQueued && db'.jobs[id].digest == Some(digest)
            && At(db', JobKey(id)) == Some(Queued)
  {
    var n := RowAt(db, JobKey(id));
    assert Run(db, TQueueJob(id, digest)).Ok? by { RefusedExactly(db, TQueueJob(id, digest)); }
    StartsRow(db, n, digest);
    AtUpdated(db.queue, n, PatchRow(db.queue[n], Patch(Some(Queued), Clear, false)));
  }

  lemma StartsRow(db: Db, n: nat, digest: string)
    requires UniqueKeys(db.queue) && n < |db.queue| && db.queue[n].state in {Queued, Admitting} && db.queue[n].key.kind == JobOp
    requires Run(db, TQueueJob(db.queue[n].key.id, digest)).Ok?
    ensures var id := db.queue[n].key.id; var db' := Next(db, TQueueJob(id, digest));
            && id in db'.jobs && db'.jobs[id].status == JobQueued && db'.jobs[id].digest == Some(digest)
            && db'.queue == db.queue[n := PatchRow(db.queue[n], Patch(Some(Queued), Clear, false))]
  {
    assert db.queue[n].key == JobKey(db.queue[n].key.id);
    UpdateOne(db.queue, n, {Queued, Admitting}, Patch(Some(Queued), Clear, false));
  }

  /** A cancellation always leaves its flag; it ends the job exactly when it is
      preparing, or queued and not executing. */
  lemma CancelRecords(db: Db, id: string, now: int)
    requires Base(db) && id in db.jobs && !db.jobs[id].status.Terminal()
    ensures var job, job' := db.jobs[id], Next(db, TCancelJob(id, now)).jobs[id];
            && id in Next(db, TCancelJob(id, now)).jobs
            && job'.cancelRequested && job'.digest == job.digest && job'.exitCode == job.exitCode
            && (if job.status == Preparing || (job.status == JobQueued && !Stands(db, JobKey(id), EXECUTING))
                then job'.status == Cancelled && job'.finishedAt == Some(now)
                else job'.status == job.status && job'.finishedAt == job.finishedAt)
  {
    RefusedExactly(db, TCancelJob(id, now));
    MatchIsState(db, JobKey(id), EXECUTING);
  }

  // ---------------------------------------------------- one writer of a verdict

  /** The capacity emergency stops the operation `k`. */
  predicate Executes(db: Db, k: Key) {
    var n := Oldest(db.queue, EXECUTING);
    n < |db.queue| && db.queue[n].key == k
  }

  /** Transaction `t` ends job `id` with the record `job`. */
  predicate Ends(db: Db, t: Txn, id: string, job: Job) {
    && id in db.jobs && !db.jobs[id].status.Terminal() && job.digest == db.jobs[id].digest
    && match t
       case TSync(other, remote) =>
         && other == id && job.status == remote.status && job.exitCode == remote.exitCode
         && job.finishedAt == remote.finishedAt && job.cancelRequested == remote.cancelRequested
       case TCancelJob(other, now) =>
         && other == id && job.status == Cancelled && job.finishedAt == Some(now)
         && job.exitCode == db.jobs[id].exitCode && job.cancelRequested
       case TFailJob(other, now) =>
         && other == id && job.status == Failed && job.finishedAt == Some(now)
         && job.exitCode == Some(1) && job.cancelRequested == db.jobs[id].cancelRequested
       case TEmergency(now) =>
         && Executes(db, JobKey(id)) && job.status == Failed && job.finishedAt == Some(now)
         && job.exitCode == Some(137) && job.cancelRequested
       case _ => false
  }

  lemma VerdictWriter(db: Db, t: Txn, id: string)
    requires id in Next(db, t).jobs && Next(db, t).jobs[id].status.Terminal()
    ensures (id in db.jobs && Next(db, t).jobs[id] == db.jobs[id]) || Ends(db, t, id, Next(db, t).jobs[id])
  {
  }

  /** Transaction `t` ends build `id` with the record `build`. */
  predicate EndsBuild(db: Db, t: Txn, id: string, build: Build) {
    && id in db.builds && !db.builds[id].status.Terminal()
    && match t
       case TFinishBuild(other, status, exitCode, now) =>
         other == id && build.status == status && build.exitCode == Some(exitCode) && build.finishedAt == Some(now)
       case TEmergency(now) =>
         && Executes(db, BuildKey(id))
         && build.status == BuildCancelled && build.exitCode == Some(130) && build.finishedAt == Some(now)
       case _ => false
  }

  lemma BuildVerdictWriter(db: Db, t: Txn, id: string)
    requires id in Next(db, t).builds && Next(db, t).builds[id].status.Terminal()
    ensures (id in db.builds && Next(db, t).builds[id] == db.builds[id]) || EndsBuild(db, t, id, Next(db, t).builds[id])
  {
    if !(t.TFinishBuild? || t.TEmergency?) { OthersEndNoBuild(db, t, id); }
  }

  lemma OthersEndNoBuild(db: Db, t: Txn, id: string)
    requires id in Next(db, t).builds && Next(db, t).builds[id].status.Terminal() && !t.TFinishBuild? && !t.TEmergency?
    ensures id in db.builds && Next(db, t).builds[id] == db.builds[id]
  {
  }

  /** Transaction `t` asks for the cancellation of job `id`, or reports it asked for. */
  predicate Flags(db: Db, t: Txn, id: string) {
    match t
    case TSync(other, remote) => other == id && remote.cancelRequested
    case TCancelJob(other, now) => other == id
    case TEmergency(now) => Executes(db, JobKey(id))
    case _ => false
  }

  lemma FlagWriter(db: Db, t: Txn, id: string)
    requires id in Next(db, t).jobs && Next(db, t).jobs[id].cancelRequested
    ensures (id in db.jobs && db.jobs[id].cancelRequested) || Flags(db, t, id)
  {
  }

  // -------------------------------------------------------------- over runs

  /** The transaction that the step from `ss[m]` commits. */
  predicate CommitsAt(ss: seq<Sys>, acts: seq<Action>, m: nat) {
    m < |ss| && m < |acts| && Enabled(ss[m], acts[m]) && Commits(ss[m], acts[m])
  }

  lemma StepDb(ss: seq<Sys>, acts: seq<Action>, i: nat)
    requires IsRun(ss, acts) && 0 < i < |ss|
    ensures Enabled(ss[i - 1], acts[i - 1])
    ensures ss[i].db == if Commits(ss[i - 1], acts[i - 1]) then Next(ss[i - 1].db, TxnOf(ss[i - 1], acts[i - 1])) else ss[i - 1].db
  {
    assert ss[i] == Apply(ss[i - 1], acts[i - 1]);
    OnlyTxns(ss[i - 1], acts[i - 1]);
  }

  /** A finished job's record is what one earlier transaction of the run wrote:
      a report with that status, a cancellation, a failure or the emergency. */
  lemma {:induction false} VerdictOrigin(ss: seq<Sys>, acts: seq<Action>, i: nat, id: string) returns (m: nat)
    requires IsRun(ss, acts) && i < |ss| && id in ss[i].db.jobs && ss[i].db.jobs[id].status.Terminal()
    ensures m < i && CommitsAt(ss, acts, m) && Ends(ss[m].db, TxnOf(ss[m], acts[m]), id, ss[i].db.jobs[id])
  {
    StepDb(ss, acts, i);
    m := i - 1;
    if Commits(ss[i - 1], acts[i - 1]) { VerdictWriter(ss[i - 1].db, TxnOf(ss[i - 1], acts[i - 1]), id); }
    if id in ss[i - 1].db.jobs && ss[i - 1].db.jobs[id] == ss[i].db.jobs[id] { m := VerdictOrigin(ss, acts, i - 1, id); }
  }

  /** A finished build's record is what one earlier finish or emergency wrote. */
  lemma {:induction false} BuildVerdictOrigin(ss: seq<Sys>, acts: seq<Action>, i: nat, id: string) returns (m: nat)
    requires IsRun(ss, acts) && i < |ss| && id in ss[i].db.builds && ss[i].db.builds[id].status.Terminal()
    ensures m < i && CommitsAt(ss, acts, m) && EndsBuild(ss[m].db, TxnOf(ss[m], acts[m]), id, ss[i].db.builds[id])
  {
    StepDb(ss, acts, i);
    m := i - 1;
    if Commits(ss[i - 1], acts[i - 1]) { BuildVerdictWriter(ss[i - 1].db, TxnOf(ss[i - 1], acts[i - 1]), id); }
    if id in ss[i - 1].db.builds && ss[i - 1].db.builds[id] == ss[i].db.builds[id] { m := BuildVerdictOrigin(ss, acts, i - 1, id); }
  }

  /** A job is marked for cancellation only if somebody asked for it. */
  lemma {:induction false} FlagOrigin(ss: seq<Sys>, acts: seq<Action>, i: nat, id: string) returns (m: nat)
    requires IsRun(ss, acts) && i < |ss| && id in ss[i].db.jobs && ss[i].db.jobs[id].cancelRequested
    ensures m < i && CommitsAt(ss, acts, m) && Flags(ss[m].db, TxnOf(ss[m], acts[m]), id)
  {
    StepDb(ss, acts, i);
    m := i - 1;
    if Commits(ss[i - 1], acts[i - 1]) { FlagWriter(ss[i - 1].db, TxnOf(ss[i - 1], acts[i - 1]), id); }
    if id in ss[i - 1].db.jobs && ss[i - 1].db.jobs[id].cancelRequested { m := FlagOrigin(ss, acts, i - 1, id); }
  }

  // ------------------------------------------------------ rows and their counts

  /** Transaction `t` accepts operation `k` at `now`. */
  predicate Accepts(t: Txn, k: Key, now: int) {
    t == (if k.kind == JobOp then TCreateJob(k.id, now) else TCreateBuild(k.id, now))
  }

  lemma RowWriter(db: Db, t: Txn, i: nat)
    requires i < |Next(db, t).queue|
    ensures var row := Next(db, t).queue[i];
            if i < |db.queue|
            then row.acceptedAt == db.queue[i].acceptedAt && row.key == db.queue[i].key
            else Accepts(t, row.key, row.acceptedAt) && row.attempts == 0
  {
  }

  /** A row's acceptance time is that of the creation that put it there. */
  lemma {:induction false} AcceptanceOrigin(ss: seq<Sys>, acts: seq<Action>, i: nat, n: nat) returns (m: nat)
    requires IsRun(ss, acts) && i < |ss| && n < |ss[i].db.queue|
    ensures m < i && CommitsAt(ss, acts, m) && Accepts(TxnOf(ss[m], acts[m]), ss[i].db.queue[n].key, ss[i].db.queue[n].acceptedAt)
  {
    StepDb(ss, acts, i);
    m := i - 1;
    if Commits(ss[i - 1], acts[i - 1]) { RowWriter(ss[i - 1].db, TxnOf(ss[i - 1], acts[i - 1]), n); }
    if n < |ss[i - 1].db.queue| { m := AcceptanceOrigin(ss, acts, i - 1, n); }
  }

  /** The transaction claims the cleanup of row `n`. */
  predicate ClaimsRow(db: Db, t: Txn, n: nat) {
    t.TClaim? && n == Oldest(db.queue, TEARDOWN)
  }

  lemma OthersClaimNothing(db: Db, t: Txn, i: nat)
    requires i < |db.queue| && !t.TClaim?
    ensures i < |Next(db, t).queue| && Next(db, t).queue[i].attempts == db.queue[i].attempts
  {
  }

  lemma ClaimCounts(db: Db, i: nat)
    requires UniqueKeys(db.queue) && OneReserved(db.queue) && i < |db.queue|
    ensures i < |Next(db, TClaim).queue|
    ensures Next(db, TClaim).queue[i].attempts == db.queue[i].attempts + if i == Oldest(db.queue, TEARDOWN) then 1 else 0
  {
    var n := Oldest(db.queue, TEARDOWN);
    if n < |db.queue| {
      UpdateOne(db.queue, n, TEARDOWN, Patch(Some(Cleaning), Keep, true));
      FreedRow(db, n, Cleaning);
    }
  }

  lemma AttemptsAfter(db: Db, t: Txn, i: nat)
    requires Base(db) && i < |db.queue|
    ensures i < |Next(db, t).queue| && Next(db, t).queue[i].attempts == db.queue[i].attempts + if ClaimsRow(db, t, i) then 1 else 0
  {
    if t.TClaim? {
      ClaimCounts(db, i);
    } else {
      OthersClaimNothing(db, t, i);
    }
  }

  /** How often the cleanup of row `n` was claimed in the first `i` steps. */
  ghost function Claims(ss: seq<Sys>, acts: seq<Action>, i: nat, n: nat): nat
    requires IsRun(ss, acts) && i < |ss|
  {
    if i == 0 then 0
    else
      Claims(ss, acts, i - 1, n) +
      if n < |ss[i - 1].db.queue| && Commits(ss[i - 1], acts[i - 1]) && ClaimsRow(ss[i - 1].db, TxnOf(ss[i - 1], acts[i - 1]), n)
      then 1 else 0
  }

  lemma {:induction false} NoClaimsBefore(ss: seq<Sys>, acts: seq<Action>, i: nat, n: nat)
    requires IsRun(ss, acts) && i < |ss| && |ss[i].db.queue| <= n
    ensures Claims(ss, acts, i, n) == 0
  {
    if i > 0 {
      NextStep(ss, acts, i - 1);
      NoClaimsBefore(ss, acts, i - 1, n);
    }
  }

  /** A row counts the claims of its cleanup, also over restarts. */
  lemma {:induction false} AttemptsCountClaims(ss: seq<Sys>, acts: seq<Action>, i: nat, n: nat)
    requires IsRun(ss, acts) && i < |ss| && n < |ss[i].db.queue|
    ensures ss[i].db.queue[n].attempts == Claims(ss, acts, i, n)
  {
    StepDb(ss, acts, i);
    if n < |ss[i - 1].db.queue| {
      AttemptsCountClaims(ss, acts, i - 1, n);
      RunHolds(ss, acts, i - 1);
      if Commits(ss[i - 1], acts[i - 1]) { AttemptsAfter(ss[i - 1].db, TxnOf(ss[i - 1], acts[i - 1]), n); }
    } else {
      NoClaimsBefore(ss, acts, i - 1, n);
      if Commits(ss[i - 1], acts[i - 1]) { RowWriter(ss[i - 1].db, TxnOf(ss[i - 1], acts[i - 1]), n); }
    }
  }

  // ------------------------------------------- what becomes of an attempt to run

  /** The dispatcher is about to create job `k`, which holds the worker. */
  ghost predicate AboutToCreate(s: Sys, k: Key) {
    && RunInv(s) && s.disp == Prepared(k) && k.kind == JobOp && At(s.db, k) == Some(Admitting)
    && k.id in s.db.jobs && s.db.jobs[k.id].status == JobQueued
  }

  /** A created job becomes active, with its record as it was. */
  lemma SuccessActivates(s: Sys, k: Key)
    requires AboutToCreate(s, k)
    ensures var s1 := Apply(s, Create(Success));
            && Enabled(s1, Activate) && s1.created == s.created + [k.id]
            && var s2 := Apply(s1, Activate);
               s2.disp == Idle && At(s2.db, k) == Some(Active) && s2.db.jobs == s.db.jobs
  {
    ActivationRecords(s.db, k);
  }

  lemma ActivationRecords(db: Db, k: Key)
    requires Base(db) && k.kind == JobOp && At(db, k) == Some(Admitting)
    ensures At(Next(db, TActivate(k)), k) == Some(Active) && Next(db, TActivate(k)).jobs == db.jobs
  {
    var n := RowAt(db, k);
    ActivatesRow(db, n);
    AtUpdated(db.queue, n, PatchRow(db.queue[n], Move(Active)));
  }

  lemma ActivatesRow(db: Db, n: nat)
    requires UniqueKeys(db.queue) && OneReserved(db.queue) && n < |db.queue|
    requires db.queue[n].state == Admitting && db.queue[n].key.kind == JobOp
    ensures Next(db, TActivate(db.queue[n].key)) == db.(queue := db.queue[n := PatchRow(db.queue[n], Move(Active))])
  {
    MatchesAt(db.queue, n, {Admitting});
    UpdateOne(db.queue, n, {Admitting}, Move(Active));
    FreedRow(db, n, Active);
  }

  /** A failed creation, or a preparation that can never succeed, ends the job and
      leaves its row to the cleanup. */
  lemma FailureEnds(s: Sys, k: Key, prepared: bool, now: int)
    requires AboutToCreate(s, k)
    ensures var s1 := if prepared then Apply(s, Create(Failure)) else Apply(s, PrepareFails(true));
            && Enabled(s1, Fail(now)) && Enabled(Apply(s1, Fail(now)), Request)
            && var s3 := Apply(Apply(s1, Fail(now)), Request);
               && s3.disp == Idle && At(s3.db, k) == Some(Terminalizing)
               && k.id in s3.db.jobs && s3.db.jobs[k.id].status == Failed && s3.db.jobs[k.id].exitCode == Some(1)
  {
    var s1 := if prepared then Apply(s, Create(Failure)) else Apply(s, PrepareFails(true));
    assert s1.disp == Refused(k) && s1.db == s.db;
    FailureRecords(s.db, k, now);
    AlreadyClosed(Next(s.db, TFailJob(k.id, now)), k);
  }

  lemma FailureRecords(db: Db, k: Key, now: int)
    requires Base(db) && k.kind == JobOp && At(db, k) == Some(Admitting) && k.id in db.jobs && db.jobs[k.id].status == JobQueued
    ensures var db' := Next(db, TFailJob(k.id, now));
            && Run(db, TFailJob(k.id, now)).Ok? && Base(db') && At(db', k) == Some(Terminalizing)
            && k.id in db'.jobs && db'.jobs[k.id].status == Failed && db'.jobs[k.id].exitCode == Some(1)
  {
    assert k == JobKey(k.id);
    assert Run(db, TFailJob(k.id, now)).Ok? by { RefusedExactly(db, TFailJob(k.id, now)); }
    assert Base(Next(db, TFailJob(k.id, now))) by { TxnAlways(db, TFailJob(k.id, now)); }
    FailShuts(db, k, now);
    FailedExit(db, k.id, now);
  }

  lemma FailedExit(db: Db, id: string, now: int)
    requires Run(db, TFailJob(id, now)).Ok?
    ensures var jobs := Next(db, TFailJob(id, now)).jobs; id in jobs && jobs[id].exitCode == Some(1)
  {
  }

  lemma AlreadyClosed(db: Db, k: Key)
    requires Base(db) && At(db, k) == Some(Terminalizing)
    ensures Next(db, TBeginCleanup(k)) == db
  {
    MatchIsState(db, k, OPEN);
  }

  /** A creation cut short by the end of the process leaves record and row to the
      reconciler of the next one. */
  lemma EndedContextLeaves(s: Sys, k: Key)
    requires AboutToCreate(s, k)
    ensures var s1 := Apply(s, Create(ContextEnded));
            s1.disp == Idle && s1.db == s.db && s1.created == s.created + [k.id]
  {
  }

  /** No call in flight survives a crash: what happens next is a call without an
      earlier read, a new listing or decision, or an admission. */
  lemma NothingInFlight(s: Sys, a: Action)
    requires Enabled(Apply(s, Crash), a)
    ensures a.List? || a.Decide? || a.Acquire? || a.Abort? || a.Crash? || (a.Handle? && Unconditional(Apply(s, Crash), a.t))
    ensures a.Decide? && a.t.TSync? ==> PastAdmission(At(s.db, JobKey(a.t.id)))
  {
  }
}
