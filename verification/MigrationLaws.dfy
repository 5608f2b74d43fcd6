/** Dying at any call, any number of times, and finishing later is the same as never dying. */
module MigrationLaws {
  import opened Wrappers
  import opened SchemaStatements
  import opened GraphMigrations
  import opened Sequences

  // ---- One file ----

  lemma {:induction false} AutoCommitRun(db: Database, book: Book, file: seq<Statement>, life: nat)
    ensures RunAll(db.schema, file) == None <==> RunCalls(db, book, AutoCommits(file), |file|).1 == Failed
    ensures life <= |file| && RunAll(db.schema, file).Some? ==>
      && RunAll(db.schema, file[..life]).Some?
      && RunCalls(db, book, AutoCommits(file), life)
         == (db.(schema := RunAll(db.schema, file[..life]).value), if life == |file| then Finished else Died)
    decreases file
  {
    if file != [] {
      assert AutoCommits(file)[1..] == AutoCommits(file[1..]);
      match Run(db.schema, file[0])
      case None =>
      case Some(schema) => {
        var next := db.(schema := schema);
        AutoCommitRun(next, book, file[1..], if life == 0 then 0 else life - 1);
        if 0 < life <= |file| {
          assert file[..life][1..] == file[1..][..life - 1];
        }
      }
    }
  }

  predicate JobRuns(db: Database, job: Job) {
    if SchemaOnly(job.steps) then RunAll(db.schema, Statements(job.steps)).Some?
    else forall i | 0 <= i < |job.steps| :: job.steps[i].DataStep?
  }

  function AfterJob(db: Database, book: Book, job: Job): Database
    requires JobRuns(db, job)
  {
    if SchemaOnly(job.steps)
    then db.(schema := RunAll(db.schema, Statements(job.steps)).value, records := Enter(db.records, book, job.id))
    else db.(effects := db.effects + Effects(job.steps), records := Enter(db.records, book, job.id))
  }

  lemma JobRun(db: Database, book: Book, job: Job)
    ensures JobRuns(db, job) ==> RunCalls(db, book, Calls(job), |Calls(job)|) == (AfterJob(db, book, job), Finished)
    ensures !JobRuns(db, job) ==> RunCalls(db, book, Calls(job), |Calls(job)|).1 == Failed
  {
    if SchemaOnly(job.steps) {
      var file := Statements(job.steps);
      AutoCommitRun(db, book, file, |file|);
      RunSplit(db, book, AutoCommits(file), [Bookkeep(job.id)], |file| + 1);
      EnoughLife(db, book, AutoCommits(file), |file| + 1);
      assert file[..|file|] == file;
    }
  }

  /** A death inside a file leaves the books alone and costs nothing on the next run. */
  lemma DeathInJob(db: Database, book: Book, job: Job, life: nat)
    requires JobRuns(db, job) && RestartableFile(job) && life < |Calls(job)|
    ensures
      var (dead, status) := RunCalls(db, book, Calls(job), life);
      && status == Died
      && dead.records == db.records
      && JobRuns(dead, job) && AfterJob(dead, book, job) == AfterJob(db, book, job)
  {
    if SchemaOnly(job.steps) {
      var file := Statements(job.steps);
      AutoCommitRun(db, book, file, life);
      RunSplit(db, book, AutoCommits(file), [Bookkeep(job.id)], life);
      RestartAfterPrefix(db.schema, file, life);
    }
  }

  // ---- What a run touches in the books ----

  lemma {:induction false} OnlyOwnEntries(db: Database, book: Book, calls: seq<Call>, life: nat, id: string)
    requires forall c | c in calls :: !c.AutoCommit? ==> c.id != id
    ensures RunCalls(db, book, calls, life).0.records[id] == db.records[id]
    decreases calls
  {
    if calls != [] && life > 0 {
      match Exec(db, book, calls[0])
      case Some(next) => {
        assert calls[0] in calls;
        OnlyOwnEntries(next, book, calls[1..], life - 1, id);
      }
      case None =>
    }
  }

  lemma {:induction false} PlanEntries(jobs: seq<Job>, done: set<string>, book: Book, id: string)
    requires forall i | 0 <= i < |jobs| :: jobs[i].id != id
    ensures forall c | c in Plan(jobs, done, book) :: !c.AutoCommit? ==> c.id != id
    decreases jobs
  {
    if jobs != [] {
      PlanEntries(jobs[1..], done, book, id);
    }
  }

  lemma {:induction false} PlanDependsOnOwnIds(jobs: seq<Job>, done: set<string>, done': set<string>, book: Book)
    requires forall i | 0 <= i < |jobs| :: jobs[i].id in done <==> jobs[i].id in done'
    ensures Plan(jobs, done, book) == Plan(jobs, done', book)
    decreases jobs
  {
    if jobs != [] {
      PlanDependsOnOwnIds(jobs[1..], done, done', book);
    }
  }

  lemma AfterJobPlan(db: Database, book: Book, jobs: seq<Job>)
    requires jobs != [] && DistinctIds(jobs) && JobRuns(db, jobs[0])
    ensures Plan(jobs[1..], Done(AfterJob(db, book, jobs[0])), book) == Plan(jobs[1..], Done(db), book)
    ensures !Pending(jobs[0], Done(AfterJob(db, book, jobs[0])), book)
  {
    PlanDependsOnOwnIds(jobs[1..], Done(AfterJob(db, book, jobs[0])), Done(db), book);
  }

  // ---- A run, file by file ----

  /** The rest of the run once the first file is settled. */
  lemma SessionStep(db: Database, book: Book, jobs: seq<Job>, life: nat)
    requires jobs != [] && DistinctIds(jobs)
    ensures !Pending(jobs[0], Done(db), book) ==> Session(db, book, jobs, life) == Session(db, book, jobs[1..], life)
    ensures Pending(jobs[0], Done(db), book) ==>
      && (life < |Calls(jobs[0])| ==> Session(db, book, jobs, life) == RunCalls(db, book, Calls(jobs[0]), life))
      && (life >= |Calls(jobs[0])| && !JobRuns(db, jobs[0]) ==> Session(db, book, jobs, life).1 == Failed)
      && (life >= |Calls(jobs[0])| && JobRuns(db, jobs[0]) ==>
            Session(db, book, jobs, life)
              == Session(AfterJob(db, book, jobs[0]), book, jobs[1..], life - |Calls(jobs[0])|))
  {
    var job, rest := jobs[0], Plan(jobs[1..], Done(db), book);
    PlanHead(db, book, jobs);
    if Pending(job, Done(db), book) {
      RunSplit(db, book, Calls(job), rest, life);
      JobRun(db, book, job);
      if life >= |Calls(job)| { EnoughLife(db, book, Calls(job), life); }
      if JobRuns(db, job) { AfterJobPlan(db, book, jobs); }
    }
  }

  lemma PlanHead(db: Database, book: Book, jobs: seq<Job>)
    requires jobs != []
    ensures
      var rest := Plan(jobs[1..], Done(db), book);
      Plan(jobs, Done(db), book) == if Pending(jobs[0], Done(db), book) then Calls(jobs[0]) + rest else rest
  {
    var rest := Plan(jobs[1..], Done(db), book);
    assert [] + rest == rest;
  }

  lemma CompleteIsAnyLongSession(db: Database, book: Book, jobs: seq<Job>, life: nat)
    requires life >= |Plan(jobs, Done(db), book)|
    ensures Session(db, book, jobs, life) == Complete(db, book, jobs)
  {
    EnoughLife(db, book, Plan(jobs, Done(db), book), life);
  }

  /** Completing the whole list, first file first. */
  lemma CompleteStep(db: Database, book: Book, jobs: seq<Job>)
    requires jobs != [] && DistinctIds(jobs)
    ensures !Pending(jobs[0], Done(db), book) ==> Complete(db, book, jobs) == Complete(db, book, jobs[1..])
    ensures Pending(jobs[0], Done(db), book) ==>
      if JobRuns(db, jobs[0]) then Complete(db, book, jobs) == Complete(AfterJob(db, book, jobs[0]), book, jobs[1..])
      else Complete(db, book, jobs).1 == Failed
  {
    var life := |Plan(jobs, Done(db), book)|;
    SessionStep(db, book, jobs, life);
    if !Pending(jobs[0], Done(db), book) {
      CompleteIsAnyLongSession(db, book, jobs[1..], life);
    } else if JobRuns(db, jobs[0]) {
      AfterJobPlan(db, book, jobs);
      CompleteIsAnyLongSession(AfterJob(db, book, jobs[0]), book, jobs[1..], life - |Calls(jobs[0])|);
    }
  }

  predicate Restartable(jobs: seq<Job>, done: set<string>, book: Book) {
    forall i | 0 <= i < |jobs| && Pending(jobs[i], done, book) :: RestartableFile(jobs[i])
  }

  lemma SessionKeepsForeignEntry(db: Database, book: Book, jobs: seq<Job>, life: nat, id: string)
    requires forall i | 0 <= i < |jobs| :: jobs[i].id != id
    ensures id in Done(Session(db, book, jobs, life).0) <==> id in Done(db)
  {
    PlanEntries(jobs, Done(db), book, id);
    OnlyOwnEntries(db, book, Plan(jobs, Done(db), book), life, id);
  }

  /** One death, wherever it falls, and then a complete run. */
  lemma {:induction false} OneDeath(db: Database, book: Book, jobs: seq<Job>, life: nat)
    requires DistinctIds(jobs) && Restartable(jobs, Done(db), book)
    requires Complete(db, book, jobs).1 == Finished
    ensures Complete(Session(db, book, jobs, life).0, book, jobs) == Complete(db, book, jobs)
    decreases jobs
  {
    if jobs != [] {
      var job, rest := jobs[0], jobs[1..];
      var dead := Session(db, book, jobs, life).0;
      assert DistinctIds(rest);
      assert forall i | 0 <= i < |rest| :: rest[i] == jobs[i + 1];
      CompleteStep(db, book, jobs);
      SessionStep(db, book, jobs, life);
      CompleteStep(dead, book, jobs);
      if !Pending(job, Done(db), book) {
        OneDeath(db, book, rest, life);
        SessionKeepsForeignEntry(db, book, rest, life, job.id);
      } else if life < |Calls(job)| {
        DeathInJob(db, book, job, life);
      } else {
        var next := AfterJob(db, book, job);
        AfterJobPlan(db, book, jobs);
        RestartableAfter(db, book, jobs);
        OneDeath(next, book, rest, life - |Calls(job)|);
        SessionKeepsForeignEntry(next, book, rest, life - |Calls(job)|, job.id);
      }
    }
  }

  lemma RestartableAfter(db: Database, book: Book, jobs: seq<Job>)
    requires jobs != [] && DistinctIds(jobs) && JobRuns(db, jobs[0]) && Restartable(jobs, Done(db), book)
    ensures Restartable(jobs[1..], Done(AfterJob(db, book, jobs[0])), book)
  {
    forall i | 0 <= i < |jobs[1..]| && Pending(jobs[1..][i], Done(AfterJob(db, book, jobs[0])), book)
      ensures RestartableFile(jobs[1..][i])
    {
      assert jobs[1..][i] == jobs[i + 1] && Pending(jobs[i + 1], Done(db), book);
    }
  }

  // ---- Any number of deaths ----

  /** Applying only adds entries, rolling back only removes them: nothing becomes pending again. */
  lemma {:induction false} BooksMonotone(db: Database, book: Book, calls: seq<Call>, life: nat, id: string)
    ensures book == Record && id in db.records ==> id in RunCalls(db, book, calls, life).0.records
    ensures book == Unrecord && id !in db.records ==> id !in RunCalls(db, book, calls, life).0.records
    decreases calls
  {
    if calls != [] && life > 0 {
      match Exec(db, book, calls[0])
      case Some(next) => BooksMonotone(next, book, calls[1..], life - 1, id);
      case None =>
    }
  }

  lemma StaysRestartable(db: Database, book: Book, jobs: seq<Job>, life: nat)
    requires Restartable(jobs, Done(db), book)
    ensures Restartable(jobs, Done(Session(db, book, jobs, life).0), book)
  {
    forall i | 0 <= i < |jobs| && Pending(jobs[i], Done(Session(db, book, jobs, life).0), book)
      ensures RestartableFile(jobs[i])
    {
      BooksMonotone(db, book, Plan(jobs, Done(db), book), life, jobs[i].id);
      assert Pending(jobs[i], Done(db), book);
    }
  }

  function Deaths(db: Database, book: Book, jobs: seq<Job>, lives: seq<nat>): Database
    decreases lives
  {
    if lives == [] then db else Deaths(Session(db, book, jobs, lives[0]).0, book, jobs, lives[1..])
  }

  /** However often and wherever earlier runs died, a complete run ends as one clean run would have. */
  lemma {:induction false} AnyDeaths(db: Database, book: Book, jobs: seq<Job>, lives: seq<nat>)
    requires DistinctIds(jobs) && Restartable(jobs, Done(db), book)
    requires Complete(db, book, jobs).1 == Finished
    ensures Complete(Deaths(db, book, jobs, lives), book, jobs) == Complete(db, book, jobs)
    decreases lives
  {
    if lives != [] {
      OneDeath(db, book, jobs, lives[0]);
      StaysRestartable(db, book, jobs, lives[0]);
      AnyDeaths(Session(db, book, jobs, lives[0]).0, book, jobs, lives[1..]);
    }
  }

  lemma FirstUnguarded(file: seq<Statement>) returns (i: nat)
    requires !FirstTouchGuarded(file)
    ensures i < |file| && !file[i].guarded && forall j | 0 <= j < i :: file[j].name != file[i].name
  {
    i :| 0 <= i < |file| && !file[i].guarded && forall j | 0 <= j < i :: file[j].name != file[i].name;
  }

  /** Where a run must die for an unguarded file to block every later run. */
  lemma {:induction false} FatalDeath(db: Database, book: Book, jobs: seq<Job>) returns (life: nat)
    requires DistinctIds(jobs) && !Restartable(jobs, Done(db), book)
    requires Complete(db, book, jobs).1 == Finished
    ensures Complete(Session(db, book, jobs, life).0, book, jobs).1 == Failed
    decreases jobs
  {
    var job, rest := jobs[0], jobs[1..];
    assert forall i | 0 <= i < |rest| :: rest[i] == jobs[i + 1];
    CompleteStep(db, book, jobs);
    if Pending(job, Done(db), book) && !RestartableFile(job) {
      life := FatalHere(db, book, jobs);
    } else if !Pending(job, Done(db), book) {
      life := FatalDeath(db, book, rest);
      SessionStep(db, book, jobs, life);
      SessionKeepsForeignEntry(db, book, rest, life, job.id);
      CompleteStep(Session(db, book, jobs, life).0, book, jobs);
    } else {
      var next := AfterJob(db, book, job);
      AfterJobPlan(db, book, jobs);
      NotRestartableAfter(db, book, jobs);
      var later := FatalDeath(next, book, rest);
      life := |Calls(job)| + later;
      SessionStep(db, book, jobs, life);
      SessionKeepsForeignEntry(next, book, rest, later, job.id);
      CompleteStep(Session(db, book, jobs, life).0, book, jobs);
    }
  }

  /** A file with an unguarded statement: dying right after that statement. */
  lemma FatalHere(db: Database, book: Book, jobs: seq<Job>) returns (life: nat)
    requires jobs != [] && DistinctIds(jobs) && Complete(db, book, jobs).1 == Finished
    requires Pending(jobs[0], Done(db), book) && !RestartableFile(jobs[0])
    ensures Complete(Session(db, book, jobs, life).0, book, jobs).1 == Failed
  {
    var job := jobs[0];
    CompleteStep(db, book, jobs);
    var file := Statements(job.steps);
    var i := FirstUnguarded(file);
    life := i + 1;
    SessionStep(db, book, jobs, life);
    UnguardedCannotRestart(db.schema, file, i);
    AutoCommitRun(db, book, file, life);
    RunSplit(db, book, AutoCommits(file), [Bookkeep(job.id)], life);
    if life == |file| { assert RunCalls(RunCalls(db, book, AutoCommits(file), life).0, book, [Bookkeep(job.id)], 0).1 == Died; }
    CompleteStep(Session(db, book, jobs, life).0, book, jobs);
  }

  lemma NotRestartableAfter(db: Database, book: Book, jobs: seq<Job>)
    requires jobs != [] && DistinctIds(jobs) && JobRuns(db, jobs[0])
    requires !Restartable(jobs, Done(db), book) && RestartableFile(jobs[0])
    ensures !Restartable(jobs[1..], Done(AfterJob(db, book, jobs[0])), book)
  {
    var i :| 0 <= i < |jobs| && Pending(jobs[i], Done(db), book) && !RestartableFile(jobs[i]);
    assert jobs[1..][i - 1] == jobs[i];
    assert Pending(jobs[1..][i - 1], Done(AfterJob(db, book, jobs[0])), book);
  }

  /** Deaths are harmless exactly when every pending schema-only file guards its first touches. */
  lemma HarmlessExactlyWhenGuarded(db: Database, book: Book, jobs: seq<Job>)
    requires DistinctIds(jobs) && Complete(db, book, jobs).1 == Finished
    ensures Restartable(jobs, Done(db), book)
      <==> forall life: nat :: Complete(Session(db, book, jobs, life).0, book, jobs) == Complete(db, book, jobs)
  {
    if Restartable(jobs, Done(db), book) {
      forall life: nat ensures Complete(Session(db, book, jobs, life).0, book, jobs) == Complete(db, book, jobs) {
        OneDeath(db, book, jobs, life);
      }
    } else {
      var life := FatalDeath(db, book, jobs);
      assert Complete(Session(db, book, jobs, life).0, book, jobs) != Complete(db, book, jobs);
    }
  }

  // ---- What a complete run leaves ----

  function OwnEffects(job: Job): seq<string> {
    if SchemaOnly(job.steps) then [] else Effects(job.steps)
  }

  function PlannedEffects(jobs: seq<Job>, done: set<string>, book: Book): seq<string> {
    if jobs == [] then []
    else (if Pending(jobs[0], done, book) then OwnEffects(jobs[0]) else []) + PlannedEffects(jobs[1..], done, book)
  }

  lemma {:induction false} EffectsDependOnOwnIds(jobs: seq<Job>, done: set<string>, done': set<string>, book: Book)
    requires forall i | 0 <= i < |jobs| :: jobs[i].id in done <==> jobs[i].id in done'
    ensures PlannedEffects(jobs, done, book) == PlannedEffects(jobs, done', book)
    decreases jobs
  {
    if jobs != [] { EffectsDependOnOwnIds(jobs[1..], done, done', book); }
  }

  lemma RestKeepsIds(jobs: seq<Job>)
    requires jobs != [] && DistinctIds(jobs)
    ensures DistinctIds(jobs[1..]) && forall job | job in jobs[1..] :: job.id != jobs[0].id
  {
    assert forall i | 0 <= i < |jobs[1..]| :: jobs[1..][i] == jobs[i + 1];
  }

  /** A job adds its own effects and, in the books, touches its own entry only. */
  lemma JobEffects(db: Database, book: Book, jobs: seq<Job>)
    requires jobs != [] && DistinctIds(jobs) && JobRuns(db, jobs[0])
    ensures AfterJob(db, book, jobs[0]).effects == db.effects + OwnEffects(jobs[0])
    ensures PlannedEffects(jobs[1..], Done(AfterJob(db, book, jobs[0])), book) == PlannedEffects(jobs[1..], Done(db), book)
  {
    RestKeepsIds(jobs);
    EffectsDependOnOwnIds(jobs[1..], Done(db), Done(AfterJob(db, book, jobs[0])), book);
  }

  /** Each pending data file takes effect exactly once, in file order, and nothing else does. */
  lemma {:induction false} CompleteEffects(db: Database, book: Book, jobs: seq<Job>)
    requires DistinctIds(jobs) && Complete(db, book, jobs).1 == Finished
    ensures Complete(db, book, jobs).0.effects == db.effects + PlannedEffects(jobs, Done(db), book)
    decreases jobs
  {
    if jobs != [] {
      var job, rest := jobs[0], jobs[1..];
      RestKeepsIds(jobs);
      CompleteStep(db, book, jobs);
      if Pending(job, Done(db), book) {
        CompleteEffects(AfterJob(db, book, job), book, rest);
        JobEffects(db, book, jobs);
        Associative(db.effects, OwnEffects(job), PlannedEffects(rest, Done(db), book));
      } else {
        CompleteEffects(db, book, rest);
        assert [] + PlannedEffects(rest, Done(db), book) == PlannedEffects(rest, Done(db), book);
      }
    }
  }

  /** Each pending file is booked exactly once, and no other entry changes. */
  lemma {:induction false} CompleteBooks(db: Database, book: Book, jobs: seq<Job>, id: string)
    requires DistinctIds(jobs) && Complete(db, book, jobs).1 == Finished
    ensures
      var listed := exists i :: 0 <= i < |jobs| && jobs[i].id == id;
      Complete(db, book, jobs).0.records[id]
        == if book == Record then (if listed && db.records[id] == 0 then 1 else db.records[id])
           else (if listed then 0 else db.records[id])
    decreases jobs
  {
    if jobs != [] {
      var job, rest := jobs[0], jobs[1..];
      assert DistinctIds(rest) && forall i | 0 <= i < |rest| :: rest[i] == jobs[i + 1] && rest[i].id != job.id;
      assert forall i | 0 < i < |jobs| :: jobs[i] == rest[i - 1];
      CompleteStep(db, book, jobs);
      if Pending(job, Done(db), book) {
        CompleteBooks(AfterJob(db, book, job), book, rest, id);
      } else {
        CompleteBooks(db, book, rest, id);
      }
    }
  }

  lemma {:induction false} NothingPendingNothingPlanned(jobs: seq<Job>, done: set<string>, book: Book)
    requires forall i | 0 <= i < |jobs| :: !Pending(jobs[i], done, book)
    ensures Plan(jobs, done, book) == []
    decreases jobs
  {
    if jobs != [] { NothingPendingNothingPlanned(jobs[1..], done, book); }
  }

  /** A second run sends nothing and applies nothing. */
  lemma SecondRunIsNoChange(db: Database, book: Book, jobs: seq<Job>)
    requires DistinctIds(jobs) && Complete(db, book, jobs).1 == Finished
    ensures Complete(Complete(db, book, jobs).0, book, jobs) == Complete(db, book, jobs)
    ensures Plan(jobs, Done(Complete(db, book, jobs).0), book) == []
  {
    forall i | 0 <= i < |jobs| ensures !Pending(jobs[i], Done(Complete(db, book, jobs).0), book) {
      CompleteBooks(db, book, jobs, jobs[i].id);
    }
    NothingPendingNothingPlanned(jobs, Done(Complete(db, book, jobs).0), book);
  }

  // ---- The two commands ----

  datatype Migration = Migration(id: string, statements: seq<Step>, rollback: seq<Step>)

  function ApplyJobs(migrations: seq<Migration>): (jobs: seq<Job>)
    ensures |jobs| == |migrations|
  {
    seq(|migrations|, i requires 0 <= i < |migrations| => Job(migrations[i].id, migrations[i].statements))
  }

  /** Newest first. */
  function RollbackJobs(migrations: seq<Migration>): (jobs: seq<Job>)
    ensures |jobs| == |migrations|
  {
    seq(|migrations|, i requires 0 <= i < |migrations| =>
      Job(migrations[|migrations| - 1 - i].id, migrations[|migrations| - 1 - i].rollback))
  }

  /** After a complete apply every migration is booked once; after a complete rollback, none is. */
  lemma ApplyThenRollback(db: Database, migrations: seq<Migration>)
    requires DistinctIds(ApplyJobs(migrations))
    requires Complete(db, Record, ApplyJobs(migrations)).1 == Finished
    requires Complete(Complete(db, Record, ApplyJobs(migrations)).0, Unrecord, RollbackJobs(migrations)).1 == Finished
    ensures
      var applied := Complete(db, Record, ApplyJobs(migrations)).0;
      var undone := Complete(applied, Unrecord, RollbackJobs(migrations)).0;
      && DistinctIds(RollbackJobs(migrations))
      && (forall m | m in migrations :: m.id !in Done(db) ==> applied.records[m.id] == 1)
      && (forall m | m in migrations :: m.id in Done(applied) && m.id !in Done(undone))
  {
    var up, down := ApplyJobs(migrations), RollbackJobs(migrations);
    var applied := Complete(db, Record, up).0;
    var n := |migrations|;
    forall i, j | 0 <= i < j < n ensures down[i].id != down[j].id {
      assert up[n - 1 - j].id != up[n - 1 - i].id;
    }
    forall m | m in migrations
      ensures m.id !in Done(db) ==> applied.records[m.id] == 1
      ensures m.id in Done(applied) && m.id !in Done(Complete(applied, Unrecord, down).0)
    {
      var i :| 0 <= i < n && migrations[i] == m;
      assert up[i].id == m.id && down[n - 1 - i].id == m.id;
      CompleteBooks(db, Record, up, m.id);
      CompleteBooks(applied, Unrecord, down, m.id);
    }
  }
}
