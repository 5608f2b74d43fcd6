/**
  The runner against the plainest reading of the files: the statements of every file that is due,
  one after another.  When a run finishes at all, and what it has done when it does.
 */
module MigrationSteps {
  import opened Wrappers
  import opened SchemaStatements
  import opened GraphMigrations
  import opened MigrationLaws
  import opened Sequences

  /** One statement on its own; None is an exception. */
  function OneStep(db: Database, step: Step): Option<Database> {
    match step
    case SchemaStep(Create(name, definition, guarded)) =>
      if name !in db.schema then Some(db.(schema := db.schema[name := definition])) else if guarded then Some(db) else None
    case SchemaStep(Drop(name, guarded)) =>
      if name in db.schema then Some(db.(schema := map n | n in db.schema && n != name :: db.schema[n]))
      else if guarded then Some(db) else None
    case DataStep(effect) => Some(db.(effects := db.effects + [effect]))
  }

  function InOrder(db: Database, steps: seq<Step>): Option<Database>
    decreases steps
  {
    if steps == [] then Some(db)
    else match OneStep(db, steps[0])
      case Some(next) => InOrder(next, steps[1..])
      case None => None
  }

  lemma {:induction false} InOrderAppend(db: Database, a: seq<Step>, b: seq<Step>)
    ensures InOrder(db, a + b) == match InOrder(db, a) case Some(mid) => InOrder(mid, b) case None => None
    decreases a
  {
    if a == [] {
      assert a + b == b;
    } else {
      assert (a + b)[1..] == a[1..] + b;
      var next := OneStep(db, a[0]);
      if next.Some? { InOrderAppend(next.value, a[1..], b); }
    }
  }

  /** The books play no part in it. */
  lemma {:induction false} BooksAside(db: Database, steps: seq<Step>, records: multiset<string>)
    ensures InOrder(db.(records := records), steps)
      == match InOrder(db, steps) case Some(after) => Some(after.(records := records)) case None => None
    decreases steps
  {
    if steps != [] {
      var next := OneStep(db, steps[0]);
      if next.Some? { BooksAside(next.value, steps[1..], records); }
    }
  }

  // ---- One file ----

  /** Schema commands and data writes in one file, which cannot run. */
  predicate Mixed(steps: seq<Step>) {
    (exists i | 0 <= i < |steps| :: steps[i].SchemaStep?) && exists i | 0 <= i < |steps| :: steps[i].DataStep?
  }

  lemma {:induction false} SchemaInOrder(db: Database, steps: seq<Step>)
    requires forall i | 0 <= i < |steps| :: steps[i].SchemaStep?
    ensures InOrder(db, steps) == match RunAll(db.schema, Statements(steps)) case Some(s) => Some(db.(schema := s)) case None => None
    decreases steps
  {
    if steps != [] {
      assert Statements(steps)[1..] == Statements(steps[1..]);
      OneSchemaStep(db, steps[0].statement);
      var next := OneStep(db, steps[0]);
      if next.Some? { SchemaInOrder(next.value, steps[1..]); }
    }
  }

  lemma OneSchemaStep(db: Database, s: Statement)
    ensures OneStep(db, SchemaStep(s)) == match Run(db.schema, s) case Some(schema) => Some(db.(schema := schema)) case None => None
  {
    if s.Drop? && s.name in db.schema {
      assert (map n | n in db.schema && n != s.name :: db.schema[n]) == db.schema - {s.name};
    }
  }

  lemma {:induction false} DataInOrder(db: Database, steps: seq<Step>)
    requires forall i | 0 <= i < |steps| :: steps[i].DataStep?
    ensures InOrder(db, steps) == Some(db.(effects := db.effects + Effects(steps)))
    decreases steps
  {
    if steps == [] {
      assert db.effects + [] == db.effects;
    } else {
      DataInOrder(OneStep(db, steps[0]).value, steps[1..]);
      Associative(db.effects, [steps[0].effect], Effects(steps[1..]));
    }
  }

  lemma JobInOrder(db: Database, book: Book, job: Job)
    ensures JobRuns(db, job) <==> !Mixed(job.steps) && InOrder(db, job.steps).Some?
    ensures JobRuns(db, job) ==> InOrder(db, job.steps) == Some(AfterJob(db, book, job).(records := db.records))
  {
    if SchemaOnly(job.steps) {
      SchemaInOrder(db, job.steps);
    } else if forall i | 0 <= i < |job.steps| :: job.steps[i].DataStep? {
      DataInOrder(db, job.steps);
    }
  }

  // ---- The whole list ----

  /** A file is due if it is not recorded; for a rollback, if it is. */
  predicate Due(job: Job, done: set<string>, book: Book) {
    match book
    case Record => job.id !in done
    case Unrecord => job.id in done
  }

  function DueSteps(jobs: seq<Job>, done: set<string>, book: Book): seq<Step> {
    if jobs == [] then [] else (if Due(jobs[0], done, book) then jobs[0].steps else []) + DueSteps(jobs[1..], done, book)
  }

  predicate NoneMixed(jobs: seq<Job>, done: set<string>, book: Book) {
    forall i | 0 <= i < |jobs| && Due(jobs[i], done, book) :: !Mixed(jobs[i].steps)
  }

  lemma {:induction false} DueStays(jobs: seq<Job>, done: set<string>, later: set<string>, book: Book)
    requires forall job | job in jobs :: job.id in done <==> job.id in later
    ensures DueSteps(jobs, done, book) == DueSteps(jobs, later, book) && (NoneMixed(jobs, done, book) <==> NoneMixed(jobs, later, book))
    decreases jobs
  {
    if jobs != [] {
      assert forall i | 0 <= i < |jobs| :: jobs[i] in jobs;
      DueStays(jobs[1..], done, later, book);
    }
  }

  /**
    A complete run finishes exactly if no file that is due mixes the two kinds of statement and all their
    statements run one after another; and then that is what it has done, besides its books.
   */
  lemma {:induction false} FinishesInOrder(db: Database, book: Book, jobs: seq<Job>)
    requires DistinctIds(jobs)
    ensures
      var (after, status) := Complete(db, book, jobs);
      var plain := InOrder(db, DueSteps(jobs, Done(db), book));
      && (status == Finished <==> NoneMixed(jobs, Done(db), book) && plain.Some?)
      && (status == Finished ==> plain == Some(after.(records := db.records)))
    decreases jobs
  {
    if jobs != [] {
      var job, rest := jobs[0], jobs[1..];
      RestKeepsIds(jobs);
      CompleteStep(db, book, jobs);
      JobInOrder(db, book, job);
      InOrderAppend(db, if Due(job, Done(db), book) then job.steps else [], DueSteps(rest, Done(db), book));
      MixedFirst(jobs, Done(db), book);
      if !Due(job, Done(db), book) {
        FinishesInOrder(db, book, rest);
      } else if JobRuns(db, job) {
        var next := AfterJob(db, book, job);
        FinishesInOrder(next, book, rest);
        DueStays(rest, Done(db), Done(next), book);
        BooksAside(next, DueSteps(rest, Done(db), book), db.records);
      }
    }
  }

  lemma MixedFirst(jobs: seq<Job>, done: set<string>, book: Book)
    requires jobs != []
    ensures NoneMixed(jobs, done, book) <==> (Due(jobs[0], done, book) ==> !Mixed(jobs[0].steps)) && NoneMixed(jobs[1..], done, book)
  {
    assert forall i | 0 < i < |jobs| :: jobs[i] == jobs[1..][i - 1];
  }

  function DueIds(jobs: seq<Job>, done: set<string>, book: Book): seq<Option<string>> {
    seq(|jobs|, i requires 0 <= i < |jobs| => if Due(jobs[i], done, book) then Some(jobs[i].id) else None)
  }

  /** The ids the command returns are those of the files that were due, in order. */
  lemma {:induction false} PendingIdsPicked(jobs: seq<Job>, done: set<string>, book: Book)
    ensures Picks(PendingIds(jobs, done, book), DueIds(jobs, done, book))
    decreases jobs
  {
    if jobs != [] {
      PendingIdsPicked(jobs[1..], done, book);
      assert DueIds(jobs, done, book)[1..] == DueIds(jobs[1..], done, book);
      PickFirst(PendingIds(jobs[1..], done, book), DueIds(jobs, done, book));
    }
  }

  // ---- The two commands ----

  function Forward(migrations: seq<Migration>, done: set<string>): seq<Step> {
    if migrations == [] then []
    else
      var last := migrations[|migrations| - 1];
      Forward(migrations[..|migrations| - 1], done) + if last.id in done then [] else last.statements
  }

  function Backward(migrations: seq<Migration>, done: set<string>): seq<Step> {
    if migrations == [] then []
    else
      var last := migrations[|migrations| - 1];
      (if last.id in done then last.rollback else []) + Backward(migrations[..|migrations| - 1], done)
  }

  lemma {:induction false} DueAppend(a: seq<Job>, b: seq<Job>, done: set<string>, book: Book)
    ensures DueSteps(a + b, done, book) == DueSteps(a, done, book) + DueSteps(b, done, book)
    decreases a
  {
    if a == [] {
      assert a + b == b;
    } else {
      assert (a + b)[1..] == a[1..] + b;
      DueAppend(a[1..], b, done, book);
      Associative(if Due(a[0], done, book) then a[0].steps else [], DueSteps(a[1..], done, book), DueSteps(b, done, book));
    }
  }

  /** Applying goes through the unrecorded files oldest first, forward; rolling back through the recorded ones newest first, backward. */
  lemma {:induction false} CommandsInOrder(migrations: seq<Migration>, done: set<string>)
    ensures DueSteps(ApplyJobs(migrations), done, Record) == Forward(migrations, done)
    ensures DueSteps(RollbackJobs(migrations), done, Unrecord) == Backward(migrations, done)
  {
    if migrations != [] {
      var n := |migrations| - 1;
      var front, last := migrations[..n], migrations[n];
      CommandsInOrder(front, done);
      var up, down := Job(last.id, last.statements), Job(last.id, last.rollback);
      assert ApplyJobs(migrations) == ApplyJobs(front) + [up];
      DueAppend(ApplyJobs(front), [up], done, Record);
      assert [up][1..] == [] && DueSteps([], done, Record) == [];
      assert RollbackJobs(migrations) == [down] + RollbackJobs(front);
      assert RollbackJobs(migrations)[1..] == RollbackJobs(front);
    }
  }
}
