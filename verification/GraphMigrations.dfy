/**
  The migration runner.  A schema-only file commits statement by statement and then records
  itself; any other file is one transaction together with its record.  A run can die after any
  committed call.  Applying and rolling back are the same loop with another book entry.
 */
module GraphMigrations {
  import opened Wrappers
  import opened SchemaStatements

  datatype Step = SchemaStep(statement: Statement) | DataStep(effect: string)

  /** One file to run: a migration's forward or rollback statements. */
  datatype Job = Job(id: string, steps: seq<Step>)

  datatype Book = Record | Unrecord

  /** The history of data writes stands for the data: equal histories, equal data. */
  datatype Database = Database(schema: Schema, effects: seq<string>, records: multiset<string>)

  predicate SchemaOnly(steps: seq<Step>) {
    steps != [] && forall i | 0 <= i < |steps| :: steps[i].SchemaStep?
  }

  function Statements(steps: seq<Step>): seq<Statement>
    requires forall i | 0 <= i < |steps| :: steps[i].SchemaStep?
  {
    seq(|steps|, i requires 0 <= i < |steps| => steps[i].statement)
  }

  function Effects(steps: seq<Step>): seq<string> {
    if steps == [] then []
    else (if steps[0].DataStep? then [steps[0].effect] else []) + Effects(steps[1..])
  }

  // ---- What the runner sends, one committed call at a time ----

  datatype Call =
    | AutoCommit(statement: Statement)
    | Bookkeep(id: string)
    | Transaction(steps: seq<Step>, id: string)

  function AutoCommits(file: seq<Statement>): seq<Call> {
    seq(|file|, i requires 0 <= i < |file| => AutoCommit(file[i]))
  }

  function Calls(job: Job): seq<Call> {
    if SchemaOnly(job.steps) then AutoCommits(Statements(job.steps)) + [Bookkeep(job.id)]
    else [Transaction(job.steps, job.id)]
  }

  function Enter(records: multiset<string>, book: Book, id: string): multiset<string> {
    match book
    case Record => records + multiset{id}
    case Unrecord => records[id := 0]
  }

  /** None is an exception: the call is rolled back and the run stops. */
  function Exec(db: Database, book: Book, c: Call): Option<Database> {
    match c
    case AutoCommit(s) => (match Run(db.schema, s) case Some(schema) => Some(db.(schema := schema)) case None => None)
    case Bookkeep(id) => Some(db.(records := Enter(db.records, book, id)))
    case Transaction(steps, id) =>
      // a schema command cannot share a transaction with a data write, the book entry included
      if exists i | 0 <= i < |steps| :: steps[i].SchemaStep? then None
      else Some(db.(effects := db.effects + Effects(steps), records := Enter(db.records, book, id)))
  }

  datatype Status = Finished | Died | Failed

  /** At most `life` calls, then death. */
  function RunCalls(db: Database, book: Book, calls: seq<Call>, life: nat): (Database, Status)
    decreases calls
  {
    if calls == [] then (db, Finished)
    else if life == 0 then (db, Died)
    else match Exec(db, book, calls[0])
      case Some(next) => RunCalls(next, book, calls[1..], life - 1)
      case None => (db, Failed)
  }

  predicate Pending(job: Job, done: set<string>, book: Book) {
    (job.id in done) <==> book == Unrecord
  }

  function Plan(jobs: seq<Job>, done: set<string>, book: Book): seq<Call> {
    if jobs == [] then []
    else (if Pending(jobs[0], done, book) then Calls(jobs[0]) else []) + Plan(jobs[1..], done, book)
  }

  function Done(db: Database): set<string> {
    set id | id in db.records
  }

  /** One run of the command: read what is recorded, then work through the rest. */
  function Session(db: Database, book: Book, jobs: seq<Job>, life: nat): (Database, Status) {
    RunCalls(db, book, Plan(jobs, Done(db), book), life)
  }

  function Complete(db: Database, book: Book, jobs: seq<Job>): (Database, Status) {
    Session(db, book, jobs, |Plan(jobs, Done(db), book)|)
  }

  predicate DistinctIds(jobs: seq<Job>) {
    forall i, j | 0 <= i < j < |jobs| :: jobs[i].id != jobs[j].id
  }

  predicate RestartableFile(job: Job) {
    SchemaOnly(job.steps) ==> FirstTouchGuarded(Statements(job.steps))
  }

  class Runner {
    var db: Database

    constructor (start: Database)
      ensures db == start
    {
      db := start;
    }

    method Send(book: Book, c: Call, life: nat) returns (status: Status, left: nat)
      modifies this
      ensures (db, status) == RunCalls(old(db), book, [c], life)
      ensures status == Finished ==> life > 0 && left == life - 1
    {
      left := 0;
      if life == 0 {
        return Died, 0;
      }
      match Exec(db, book, c) {
        case Some(next) => db, status, left := next, Finished, life - 1;
        case None => status := Failed;
      }
    }

    method ApplyStep(job: Job, book: Book, life: nat) returns (status: Status, left: nat)
      modifies this
      ensures (db, status) == RunCalls(old(db), book, Calls(job), life)
      ensures status == Finished ==> life >= |Calls(job)| && left == life - |Calls(job)|
    {
      ghost var calls := Calls(job);
      if !SchemaOnly(job.steps) {
        status, left := Send(book, Transaction(job.steps, job.id), life);
        return;
      }
      var file := Statements(job.steps);
      var i := 0;
      left := life;
      while i < |file|
        invariant 0 <= i <= |file| && left == life - i
        invariant RunCalls(db, book, calls[i..], left) == RunCalls(old(db), book, calls, life)
      {
        label before:
        SplitFirst(db, book, calls[i..], left);
        status, left := Send(book, AutoCommit(file[i]), left);
        assert calls[i..][0] == AutoCommit(file[i]) && calls[i..][1..] == calls[i + 1..];
        if status != Finished {
          return;
        }
        i := i + 1;
      }
      assert calls[i..] == [Bookkeep(job.id)];
      status, left := Send(book, Bookkeep(job.id), left);
    }

    method ApplyMigrations(jobs: seq<Job>, book: Book, life: nat) returns (newly: seq<string>, status: Status)
      modifies this
      ensures (db, status) == Session(old(db), book, jobs, life)
      ensures status == Finished ==> newly == PendingIds(jobs, Done(old(db)), book)
    {
      newly := [];
      var done := Done(db);
      var i, left := 0, life;
      while i < |jobs|
        invariant 0 <= i <= |jobs|
        invariant RunCalls(db, book, Plan(jobs[i..], done, book), left) == Session(old(db), book, jobs, life)
        invariant newly + PendingIds(jobs[i..], done, book) == PendingIds(jobs, done, book)
      {
        var job := jobs[i];
        PlanAt(jobs, i, done, book, newly);
        if Pending(job, done, book) {
          RunSplit(db, book, Calls(job), Plan(jobs[i + 1..], done, book), left);
          status, left := ApplyStep(job, book, left);
          if status != Finished {
            return;
          }
          newly := newly + [job.id];
        }
        i := i + 1;
      }
      status := Finished;
      NothingLeft(jobs, done, book, newly);
    }
  }

  function PendingIds(jobs: seq<Job>, done: set<string>, book: Book): seq<string> {
    if jobs == [] then []
    else (if Pending(jobs[0], done, book) then [jobs[0].id] else []) + PendingIds(jobs[1..], done, book)
  }

  lemma PlanAt(jobs: seq<Job>, i: nat, done: set<string>, book: Book, newly: seq<string>)
    requires i < |jobs|
    ensures Plan(jobs[i..], done, book)
      == if Pending(jobs[i], done, book) then Calls(jobs[i]) + Plan(jobs[i + 1..], done, book) else Plan(jobs[i + 1..], done, book)
    ensures newly + PendingIds(jobs[i..], done, book)
      == (if Pending(jobs[i], done, book) then newly + [jobs[i].id] else newly) + PendingIds(jobs[i + 1..], done, book)
  {
    assert jobs[i..][1..] == jobs[i + 1..];
    var rest := PendingIds(jobs[i + 1..], done, book);
    assert [] + rest == rest && newly + [jobs[i].id] + rest == newly + ([jobs[i].id] + rest);
    assert [] + Plan(jobs[i + 1..], done, book) == Plan(jobs[i + 1..], done, book);
  }

  lemma NothingLeft(jobs: seq<Job>, done: set<string>, book: Book, newly: seq<string>)
    ensures Plan(jobs[|jobs|..], done, book) == [] && newly + PendingIds(jobs[|jobs|..], done, book) == newly
  {
    assert jobs[|jobs|..] == [] && newly + [] == newly;
  }

  // ---- Cutting a run in two ----

  lemma SplitFirst(db: Database, book: Book, calls: seq<Call>, life: nat)
    requires calls != []
    ensures
      var (next, status) := RunCalls(db, book, [calls[0]], life);
      RunCalls(db, book, calls, life)
        == if status == Finished then RunCalls(next, book, calls[1..], life - 1) else (next, status)
  {
  }

  lemma {:induction false} RunSplit(db: Database, book: Book, a: seq<Call>, b: seq<Call>, life: nat)
    ensures
      var (mid, status) := RunCalls(db, book, a, life);
      && (status == Finished ==> life >= |a|)
      && RunCalls(db, book, a + b, life)
         == if status == Finished then RunCalls(mid, book, b, life - |a|) else (mid, status)
    decreases a
  {
    if a == [] {
      assert a + b == b;
    } else {
      assert (a + b)[1..] == a[1..] + b;
      if life > 0 {
        match Exec(db, book, a[0])
        case Some(next) => RunSplit(next, book, a[1..], b, life - 1);
        case None =>
      }
    }
  }

  lemma {:induction false} EnoughLife(db: Database, book: Book, calls: seq<Call>, life: nat)
    requires life >= |calls|
    ensures RunCalls(db, book, calls, life) == RunCalls(db, book, calls, |calls|)
    ensures RunCalls(db, book, calls, life).1 != Died
    decreases calls
  {
    if calls != [] {
      match Exec(db, book, calls[0])
      case Some(next) => EnoughLife(next, book, calls[1..], life - 1);
      case None =>
    }
  }
}
