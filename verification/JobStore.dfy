/** The `jobs` table and the work queue: guarded row updates stamped by a trigger, and a pgmq queue
    whose messages carry the work. The datatypes are the stored state; the class `Database` updates
    it in place. */
module JobStore {
  import opened Common

  datatype Status = Queued | Running | Done | Failed

  datatype Row = Row(
    status: Status,
    result: Option<string>,
    error: Option<string>,
    lastError: Option<string>,
    changeSeq: nat)

  predicate Terminal(row: Row) {
    row.status.Done? || row.status.Failed?
  }

  /** The table's check constraint: a result exactly when done, an error exactly when failed. */
  predicate ResultXorError(row: Row) {
    (row.result.Some? <==> row.status.Done?) && (row.error.Some? <==> row.status.Failed?)
  }

  datatype Table = Table(rows: map<nat, Row>, nextSeq: nat)

  /** What the trigger does to every written row. */
  function Stamp(t: Table, job: nat, row: Row): Table {
    Table(t.rows[job := row.(changeSeq := t.nextSeq)], t.nextSeq + 1)
  }

  /** The guard of every transition: `WHERE id = job AND status IN (queued, running)`. */
  predicate Open(t: Table, job: nat) {
    job in t.rows && !Terminal(t.rows[job])
  }

  function InsertDefault(t: Table, job: nat): Table {
    Stamp(t, job, Row(Queued, None, None, None, 0))
  }

  function SetRunning(t: Table, job: nat): Table {
    if Open(t, job) then Stamp(t, job, t.rows[job].(status := Running)) else t
  }

  function RecordAttemptFailure(t: Table, job: nat, err: string): Table {
    if Open(t, job) then Stamp(t, job, t.rows[job].(lastError := Some(err))) else t
  }

  function SetDone(t: Table, job: nat, value: string): Table {
    if Open(t, job) then Stamp(t, job, t.rows[job].(status := Done, result := Some(value), error := None)) else t
  }

  function SetFailed(t: Table, job: nat, err: string): Table {
    if Open(t, job) then Stamp(t, job, t.rows[job].(status := Failed, error := Some(err), result := None)) else t
  }

  datatype Message = Message(job: nat, sgf: string, readCt: nat, visible: bool)

  datatype Queue = Queue(active: map<nat, Message>, archived: map<nat, Message>, nextMsg: nat)

  function Send(q: Queue, job: nat, sgf: string): Queue {
    q.(active := q.active[q.nextMsg := Message(job, sgf, 0, true)], nextMsg := q.nextMsg + 1)
  }

  /** Reading a message counts the delivery and hides it for the visibility timeout. */
  function Read(q: Queue, m: nat): Queue
    requires m in q.active
  {
    var msg := q.active[m];
    q.(active := q.active[m := msg.(readCt := msg.readCt + 1, visible := false)])
  }

  /** The visibility timeout lapses: the message can be read again. */
  function Lapse(q: Queue, m: nat): Queue
    requires m in q.active
  {
    q.(active := q.active[m := q.active[m].(visible := true)])
  }

  /** Archiving an already archived message does nothing. */
  function Archive(q: Queue, m: nat): Queue {
    if m in q.active then q.(active := q.active - {m}, archived := q.archived[m := q.active[m]]) else q
  }

  datatype Db = Db(table: Table, queue: Queue, nextJob: nat)

  const EMPTY_DB := Db(Table(map[], 1), Queue(map[], map[], 1), 0)

  /** One submission: the row and its message, in one transaction. */
  function Submit(db: Db, sgf: string): Db {
    Db(InsertDefault(db.table, db.nextJob), Send(db.queue, db.nextJob, sgf), db.nextJob + 1)
  }

  function SubmitMany(db: Db, sgfs: seq<string>): Db {
    if sgfs == [] then db else Submit(SubmitMany(db, sgfs[..|sgfs| - 1]), sgfs[|sgfs| - 1])
  }

  /** The effect of handling one uninterrupted delivery (number `readCt`) of message `m`, when its
      analysis would end in `outcome`. */
  datatype Outcome = Ok(value: string) | Err(error: string)

  const EXHAUSTED := "max delivery attempts exceeded"

  function Handled(db: Db, m: nat, msg: Message, maxAttempts: int, outcome: Outcome): Db {
    if msg.readCt > maxAttempts then
      db.(table := SetFailed(db.table, msg.job, EXHAUSTED), queue := Archive(db.queue, m))
    else
      var running := SetRunning(db.table, msg.job);
      match outcome
      case Ok(value) => db.(table := SetDone(running, msg.job, value), queue := Archive(db.queue, m))
      case Err(err) => db.(table := RecordAttemptFailure(running, msg.job, err))
  }

  class Database {
    var rows: map<nat, Row>
    var nextSeq: nat
    var active: map<nat, Message>
    var archived: map<nat, Message>
    var nextMsg: nat
    var nextJob: nat

    ghost function State(): Db
      reads this
    {
      Db(Table(rows, nextSeq), Queue(active, archived, nextMsg), nextJob)
    }

    constructor ()
      ensures State() == EMPTY_DB
    {
      rows, nextSeq := map[], 1;
      active, archived, nextMsg := map[], map[], 1;
      nextJob := 0;
    }

    /** The `BEFORE INSERT OR UPDATE` trigger, on the row about to be written. */
    method StampChange(job: nat, row: Row)
      modifies this`rows, this`nextSeq
      ensures Table(rows, nextSeq) == Stamp(old(Table(rows, nextSeq)), job, row)
    {
      rows := rows[job := row.(changeSeq := nextSeq)];
      nextSeq := nextSeq + 1;
    }

    method MarkRunning(job: nat)
      modifies this`rows, this`nextSeq
      ensures Table(rows, nextSeq) == SetRunning(old(Table(rows, nextSeq)), job)
    {
      if job in rows && !Terminal(rows[job]) {
        StampChange(job, rows[job].(status := Running));
      }
    }

    method NoteAttemptFailure(job: nat, err: string)
      modifies this`rows, this`nextSeq
      ensures Table(rows, nextSeq) == RecordAttemptFailure(old(Table(rows, nextSeq)), job, err)
    {
      if job in rows && !Terminal(rows[job]) {
        StampChange(job, rows[job].(lastError := Some(err)));
      }
    }

    method MarkDone(job: nat, value: string)
      modifies this`rows, this`nextSeq
      ensures Table(rows, nextSeq) == SetDone(old(Table(rows, nextSeq)), job, value)
    {
      if job in rows && !Terminal(rows[job]) {
        StampChange(job, rows[job].(status := Done, result := Some(value), error := None));
      }
    }

    method MarkFailed(job: nat, err: string)
      modifies this`rows, this`nextSeq
      ensures Table(rows, nextSeq) == SetFailed(old(Table(rows, nextSeq)), job, err)
    {
      if job in rows && !Terminal(rows[job]) {
        StampChange(job, rows[job].(status := Failed, error := Some(err), result := None));
      }
    }

    method Publish(job: nat, sgf: string)
      modifies this`active, this`nextMsg
      ensures Queue(active, archived, nextMsg) == Send(old(Queue(active, archived, nextMsg)), job, sgf)
    {
      active := active[nextMsg := Message(job, sgf, 0, true)];
      nextMsg := nextMsg + 1;
    }

    method ArchiveMessage(m: nat)
      modifies this`active, this`archived
      ensures Queue(active, archived, nextMsg) == Archive(old(Queue(active, archived, nextMsg)), m)
    {
      if m in active {
        archived := archived[m := active[m]];
        active := active - {m};
      }
    }

    /** Submits all jobs in one transaction; ids come back in input order. */
    method Enqueue(sgfs: seq<string>) returns (ids: seq<nat>)
      modifies this
      ensures State() == SubmitMany(old(State()), sgfs)
      ensures |ids| == |sgfs|
      ensures forall i :: 0 <= i < |ids| ==> ids[i] == old(nextJob) + i
      ensures (forall j :: j in old(rows) ==> j < old(nextJob)) ==> forall i :: 0 <= i < |ids| ==> ids[i] !in old(rows)
    {
      ids := [];
      ghost var before := State();
      for i := 0 to |sgfs|
        invariant State() == SubmitMany(before, sgfs[..i])
        invariant |ids| == i && nextJob == before.nextJob + i
        invariant forall k :: 0 <= k < i ==> ids[k] == before.nextJob + k
      {
        var job := nextJob;
        nextJob := nextJob + 1;
        StampChange(job, Row(Queued, None, None, None, 0));
        Publish(job, sgfs[i]);
        ids := ids + [job];
        assert sgfs[..i + 1][..i] == sgfs[..i];
      }
      assert sgfs[..|sgfs|] == sgfs;
    }

    /** One delivery, start to end, with no interference. */
    method Handle(m: nat, msg: Message, maxAttempts: int, outcome: Outcome)
      modifies this
      ensures State() == Handled(old(State()), m, msg, maxAttempts, outcome)
    {
      if msg.readCt > maxAttempts {
        MarkFailed(msg.job, EXHAUSTED);
        ArchiveMessage(m);
        return;
      }
      MarkRunning(msg.job);
      match outcome {
        case Ok(value) =>
          MarkDone(msg.job, value);
          ArchiveMessage(m);
        case Err(err) =>
          NoteAttemptFailure(msg.job, err);
      }
    }
  }

  lemma {:induction false} SubmitManyCounts(db: Db, sgfs: seq<string>)
    ensures var after := SubmitMany(db, sgfs);
      && after.nextJob == db.nextJob + |sgfs|
      && after.table.nextSeq == db.table.nextSeq + |sgfs|
      && after.queue.nextMsg == db.queue.nextMsg + |sgfs|
  {
    if sgfs != [] {
      SubmitManyCounts(db, sgfs[..|sgfs| - 1]);
    }
  }

  /** Submission `i` of a batch has its own queued row with its own number, and a visible message that
      carries its SGF; earlier jobs and messages are left alone. */
  lemma {:induction false} SubmittedTogether(db: Db, sgfs: seq<string>, i: nat, j: nat, m: nat)
    requires i < |sgfs|
    ensures var after := SubmitMany(db, sgfs);
      && db.nextJob + i in after.table.rows
      && after.table.rows[db.nextJob + i] == Row(Queued, None, None, None, db.table.nextSeq + i)
      && db.queue.nextMsg + i in after.queue.active
      && after.queue.active[db.queue.nextMsg + i] == Message(db.nextJob + i, sgfs[i], 0, true)
      && (j < db.nextJob ==> (j in after.table.rows <==> j in db.table.rows))
      && (j < db.nextJob && j in db.table.rows ==> after.table.rows[j] == db.table.rows[j])
      && (m < db.queue.nextMsg ==> (m in after.queue.active <==> m in db.queue.active))
      && (m < db.queue.nextMsg && m in db.queue.active ==> after.queue.active[m] == db.queue.active[m])
      && after.queue.archived == db.queue.archived
  {
    var last := |sgfs| - 1;
    SubmitManyCounts(db, sgfs[..last]);
    if i < last {
      SubmittedTogether(db, sgfs[..last], i, j, m);
    } else if last > 0 {
      SubmittedTogether(db, sgfs[..last], 0, j, m);
    } else {
      assert SubmitMany(db, sgfs[..last]) == db;
    }
  }

  // ----- what the guards and the trigger guarantee

  /** One table write by the application. */
  datatype Update =
    | Insert(job: nat)
    | ToRunning(job: nat)
    | AttemptFailed(job: nat, err: string)
    | ToDone(job: nat, value: string)
    | ToFailed(job: nat, err: string)

  function Applied(t: Table, u: Update): Table {
    match u
    case Insert(job) => InsertDefault(t, job)
    case ToRunning(job) => SetRunning(t, job)
    case AttemptFailed(job, err) => RecordAttemptFailure(t, job, err)
    case ToDone(job, value) => SetDone(t, job, value)
    case ToFailed(job, err) => SetFailed(t, job, err)
  }

  /** Every row satisfies the check constraint and carries its own number, already drawn. */
  ghost predicate TableOk(t: Table) {
    && (forall j :: j in t.rows ==> ResultXorError(t.rows[j]) && t.rows[j].changeSeq < t.nextSeq)
    && (forall i, j :: i in t.rows && j in t.rows && i != j ==> t.rows[i].changeSeq != t.rows[j].changeSeq)
  }

  lemma StampKeepsTable(t: Table, job: nat, row: Row)
    requires TableOk(t) && ResultXorError(row)
    ensures var t' := Stamp(t, job, row);
      && TableOk(t')
      && t'.rows.Keys == t.rows.Keys + {job} && t'.nextSeq == t.nextSeq + 1
      && t'.rows[job].changeSeq == t.nextSeq
      && (job in t.rows ==> t'.rows[job] != t.rows[job])
      && (forall j :: j in t.rows && j != job ==> t'.rows[j] == t.rows[j])
  {
  }

  /** Whether an update's guard lets it through. */
  predicate Admitted(t: Table, u: Update) {
    u.Insert? || Open(t, u.job)
  }

  lemma AppliedIsStamp(t: Table, u: Update) returns (row: Row)
    requires TableOk(t)
    ensures Admitted(t, u) ==> Applied(t, u) == Stamp(t, u.job, row) && ResultXorError(row)
    ensures !Admitted(t, u) ==> Applied(t, u) == t
  {
    row := if u.Insert? || u.job !in t.rows then Row(Queued, None, None, None, 0) else
      match u
      case ToRunning(job) => t.rows[job].(status := Running)
      case AttemptFailed(job, err) => t.rows[job].(lastError := Some(err))
      case ToDone(job, value) => t.rows[job].(status := Done, result := Some(value), error := None)
      case ToFailed(job, err) => t.rows[job].(status := Failed, error := Some(err), result := None);
  }

  /** Every write keeps the constraint and the uniqueness of `change_seq`; it draws a number exactly
      when it changes a row, the changed row carries that number, and a terminal row never changes. */
  lemma UpdateIsStamped(t: Table, u: Update)
    requires TableOk(t) && (u.Insert? ==> u.job !in t.rows)
    ensures var t' := Applied(t, u);
      && TableOk(t')
      && t.rows.Keys <= t'.rows.Keys
      && (t' == t || t'.nextSeq == t.nextSeq + 1)
      && (t' == t <==> (u.job in t.rows && Terminal(t.rows[u.job])) || (u.job !in t.rows && !u.Insert?))
      && (forall j :: j in t'.rows && (j !in t.rows || t'.rows[j] != t.rows[j]) ==>
            j == u.job && t'.rows[j].changeSeq == t.nextSeq)
      && (forall j :: j in t.rows && Terminal(t.rows[j]) ==> t'.rows[j] == t.rows[j])
  {
    hide Applied, Stamp, TableOk;
    var row := AppliedIsStamp(t, u);
    if Admitted(t, u) {
      StampKeepsTable(t, u.job, row);
    }
  }

  /** A row is done only because it was, or because this write stored a result for it; failed only
      because it was, or because this write gave up on it. */
  lemma UpdateOutcome(t: Table, u: Update, j: nat)
    requires j in Applied(t, u).rows
    ensures var row := Applied(t, u).rows[j];
      && (row.status.Done? ==>
            (j in t.rows && row == t.rows[j]) || (u.ToDone? && u.job == j && row.result == Some(u.value)))
      && (row.status.Failed? ==>
            (j in t.rows && row == t.rows[j]) || (u.ToFailed? && u.job == j && row.error == Some(u.err)))
  {
  }

  /** What one uninterrupted delivery leaves of its job's row, column by column: a row already finished
      stays; past the limit it is failed; within it a success is stored, and a failed attempt leaves it
      running with that attempt's error noted. No other row changes. */
  lemma HandledRow(db: Db, m: nat, msg: Message, maxAttempts: int, outcome: Outcome, j: nat)
    requires TableOk(db.table) && j in db.table.rows
    ensures j in Handled(db, m, msg, maxAttempts, outcome).table.rows
    ensures var row, row' := db.table.rows[j], Handled(db, m, msg, maxAttempts, outcome).table.rows[j];
      if j != msg.job || row.status.Done? || row.status.Failed? then row' == row
      else if msg.readCt > maxAttempts then
        row'.status.Failed? && row'.error == Some(EXHAUSTED) && row'.result.None? && row'.lastError == row.lastError
      else
        match outcome
        case Ok(value) =>
          row'.status.Done? && row'.result == Some(value) && row'.error.None? && row'.lastError == row.lastError
        case Err(err) =>
          row'.status.Running? && row'.lastError == Some(err) && row'.result.None? && row'.error.None?
  {
  }
}
