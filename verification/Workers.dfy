/** Many workers over one queue and one table. Every database call is one step, so steps of
    different workers interleave freely; a worker may crash (or have a call fail) between any two of
    them, and a lease may lapse at any moment, so several workers can hold one job at once. */
module Workers {
  import opened Common
  import opened JobStore

  /** How far one delivery has been handled. */
  datatype Stage =
    | Leased                   // read from the queue
    | Exhausted                // `set_failed` written, message not archived yet
    | Marked                   // `set_running` written, analysis not started
    | Analysing
    | Finished(outcome: Outcome)
    | Stored                   // `set_done` written, message not archived yet

  /** Delivery number `count` of message `m`, held by one worker. */
  datatype Delivery = Delivery(m: nat, job: nat, sgf: string, count: nat, stage: Stage)

  /** `starts` logs every analysis that began, as (job, delivery count); `produced` logs every value
      an analysis returned, with the SGF it ran on; `sgfs` and `ticket` record what each job was
      submitted with and the message that carries it. */
  datatype System = System(
    db: Db,
    workers: map<nat, Delivery>,
    starts: seq<(nat, nat)>,
    produced: set<(string, string)>,
    sgfs: map<nat, string>,
    ticket: map<nat, nat>)

  const INITIAL := System(EMPTY_DB, map[], [], {}, map[], map[])

  datatype Step =
    | Submitted(sgf: string)
    | Lapsed(m: nat)
    | Lease(w: nat, m: nat)
    | WriteRunning(w: nat)
    | Start(w: nat)
    | Finish(w: nat, outcome: Outcome)
    | WriteDone(w: nat)
    | WriteAttemptFailure(w: nat)
    | WriteFailed(w: nat)
    | ArchiveDone(w: nat)
    | Crash(w: nat)

  predicate Holds(s: System, w: nat, stage: Stage) {
    w in s.workers && s.workers[w].stage == stage
  }

  predicate Enabled(s: System, step: Step, maxAttempts: int) {
    match step
    case Submitted(_) => true
    case Lapsed(m) => m in s.db.queue.active
    case Lease(w, m) => w !in s.workers && m in s.db.queue.active && s.db.queue.active[m].visible
    case WriteRunning(w) => Holds(s, w, Leased) && s.workers[w].count <= maxAttempts
    case Start(w) => Holds(s, w, Marked)
    case Finish(w, _) => Holds(s, w, Analysing)
    case WriteDone(w) => w in s.workers && s.workers[w].stage.Finished? && s.workers[w].stage.outcome.Ok?
    case WriteAttemptFailure(w) =>
      w in s.workers && s.workers[w].stage.Finished? && s.workers[w].stage.outcome.Err?
    case WriteFailed(w) => Holds(s, w, Leased) && s.workers[w].count > maxAttempts
    case ArchiveDone(w) => Holds(s, w, Exhausted) || Holds(s, w, Stored)
    case Crash(w) => w in s.workers
  }

  function To(s: System, w: nat, stage: Stage): map<nat, Delivery>
    requires w in s.workers
  {
    s.workers[w := s.workers[w].(stage := stage)]
  }

  function Next(s: System, step: Step, maxAttempts: int): System
    requires Enabled(s, step, maxAttempts)
  {
    match step
    case Submitted(sgf) =>
      var job := s.db.nextJob;
      s.(db := Submit(s.db, sgf), sgfs := s.sgfs[job := sgf], ticket := s.ticket[job := s.db.queue.nextMsg])
    case Lapsed(m) => s.(db := s.db.(queue := Lapse(s.db.queue, m)))
    case Lease(w, m) =>
      var queue := Read(s.db.queue, m);
      var msg := queue.active[m];
      s.(db := s.db.(queue := queue),
         workers := s.workers[w := Delivery(m, msg.job, msg.sgf, msg.readCt, Leased)])
    case WriteRunning(w) =>
      s.(db := s.db.(table := SetRunning(s.db.table, s.workers[w].job)), workers := To(s, w, Marked))
    case Start(w) =>
      s.(starts := s.starts + [(s.workers[w].job, s.workers[w].count)], workers := To(s, w, Analysing))
    case Finish(w, outcome) =>
      s.(workers := To(s, w, Finished(outcome)),
         produced := s.produced + (if outcome.Ok? then {(s.workers[w].sgf, outcome.value)} else {}))
    case WriteDone(w) =>
      s.(db := s.db.(table := SetDone(s.db.table, s.workers[w].job, s.workers[w].stage.outcome.value)),
         workers := To(s, w, Stored))
    case WriteAttemptFailure(w) =>
      s.(db := s.db.(table :=
           RecordAttemptFailure(s.db.table, s.workers[w].job, s.workers[w].stage.outcome.error)),
         workers := s.workers - {w})
    case WriteFailed(w) =>
      s.(db := s.db.(table := SetFailed(s.db.table, s.workers[w].job, EXHAUSTED)), workers := To(s, w, Exhausted))
    case ArchiveDone(w) =>
      s.(db := s.db.(queue := Archive(s.db.queue, s.workers[w].m)), workers := s.workers - {w})
    case Crash(w) => s.(workers := s.workers - {w})
  }

  /** A run from `s`: every step is enabled when it is taken. */
  predicate Run(s: System, steps: seq<Step>, maxAttempts: int)
    decreases |steps|
  {
    steps == [] || (Enabled(s, steps[0], maxAttempts) && Run(Next(s, steps[0], maxAttempts), steps[1..], maxAttempts))
  }

  function After(s: System, steps: seq<Step>, maxAttempts: int): System
    requires Run(s, steps, maxAttempts)
    decreases |steps|
  {
    if steps == [] then s else After(Next(s, steps[0], maxAttempts), steps[1..], maxAttempts)
  }

  // ----- the invariant

  /** A message sent for a job, wherever it is now. */
  predicate Sent(q: Queue, m: nat) {
    m in q.active || m in q.archived
  }

  function Mail(q: Queue, m: nat): Message
    requires Sent(q, m)
  {
    if m in q.active then q.active[m] else q.archived[m]
  }

  /** Jobs and messages correspond one to one, and a message carries its own job's SGF. */
  ghost predicate MailMatches(jobs: set<nat>, nextJob: nat, ticket: map<nat, nat>, sgfs: map<nat, string>, q: Queue) {
    && jobs == ticket.Keys == sgfs.Keys
    && (forall j :: j in ticket ==> j < nextJob && Sent(q, ticket[j]) && Mail(q, ticket[j]).job == j)
    && (forall m: nat :: Sent(q, m) ==>
          && m < q.nextMsg
          && Mail(q, m).job in ticket && ticket[Mail(q, m).job] == m
          && Mail(q, m).sgf == sgfs[Mail(q, m).job])
    && q.active.Keys !! q.archived.Keys
  }

  ghost predicate MailOk(s: System) {
    MailMatches(s.db.table.rows.Keys, s.db.nextJob, s.ticket, s.sgfs, s.db.queue)
  }

  /** An archived message's job is terminal. */
  ghost predicate ArchivedOk(s: System) {
    forall m :: m in s.db.queue.archived && s.db.queue.archived[m].job in s.db.table.rows ==>
      Terminal(s.db.table.rows[s.db.queue.archived[m].job])
  }

  /** A held delivery is a past delivery of its message. */
  ghost predicate DeliveriesOk(s: System) {
    forall w :: w in s.workers ==>
      var d := s.workers[w];
      && Sent(s.db.queue, d.m)
      && Mail(s.db.queue, d.m).job == d.job
      && Mail(s.db.queue, d.m).sgf == d.sgf
      && 1 <= d.count <= Mail(s.db.queue, d.m).readCt
  }

  /** A delivery whose outcome is written belongs to a job that is terminal. */
  ghost predicate WrittenOk(s: System) {
    forall w :: w in s.workers && (s.workers[w].stage.Exhausted? || s.workers[w].stage.Stored?) ==>
      s.workers[w].job in s.db.table.rows && Terminal(s.db.table.rows[s.workers[w].job])
  }

  /** Deliveries are counted apart: no two workers hold the same one. */
  ghost predicate CountsApart(s: System) {
    forall v, w :: v in s.workers && w in s.workers && v != w && s.workers[v].m == s.workers[w].m ==>
      s.workers[v].count != s.workers[w].count
  }

  predicate Unstarted(d: Delivery) {
    d.stage.Leased? || d.stage.Marked? || d.stage.Exhausted?
  }

  /** Each started analysis belongs to its own delivery, and that delivery was within the limit. */
  ghost predicate StartsOk(s: System, maxAttempts: int) {
    && (forall i :: 0 <= i < |s.starts| ==>
          var (j, count) := s.starts[i];
          && j in s.ticket && Sent(s.db.queue, s.ticket[j])
          && 1 <= count <= maxAttempts && count <= Mail(s.db.queue, s.ticket[j]).readCt)
    && (forall i, k :: 0 <= i < k < |s.starts| ==> s.starts[i] != s.starts[k])
    && (forall w :: w in s.workers && Unstarted(s.workers[w]) ==>
          (s.workers[w].job, s.workers[w].count) !in s.starts)
    && (forall w :: w in s.workers && !s.workers[w].stage.Leased? && !s.workers[w].stage.Exhausted? ==>
          s.workers[w].count <= maxAttempts)
  }

  /** A stored result came from an analysis of the job's own SGF. */
  ghost predicate DoneOk(s: System) {
    forall j :: j in s.db.table.rows && s.db.table.rows[j].status.Done? ==>
      && j in s.sgfs && s.db.table.rows[j].result.Some?
      && (s.sgfs[j], s.db.table.rows[j].result.value) in s.produced
  }

  /** A failed job's message has been delivered more often than the limit. */
  ghost predicate FailedOk(s: System, maxAttempts: int) {
    forall j :: j in s.db.table.rows && s.db.table.rows[j].status.Failed? ==>
      && j in s.ticket && Sent(s.db.queue, s.ticket[j])
      && Mail(s.db.queue, s.ticket[j]).readCt > maxAttempts
      && s.db.table.rows[j].error == Some(EXHAUSTED)
  }

  ghost predicate FinishedOk(s: System) {
    forall w :: w in s.workers && s.workers[w].stage.Finished? && s.workers[w].stage.outcome.Ok? ==>
      (s.workers[w].sgf, s.workers[w].stage.outcome.value) in s.produced
  }

  ghost predicate Inv(s: System, maxAttempts: int) {
    && TableOk(s.db.table)
    && MailOk(s)
    && ArchivedOk(s)
    && DeliveriesOk(s)
    && WrittenOk(s)
    && CountsApart(s)
    && StartsOk(s, maxAttempts)
    && DoneOk(s)
    && FailedOk(s, maxAttempts)
    && FinishedOk(s)
  }

  // ----- every step keeps it

  /** The table write a step performs, if any. */
  function Write(s: System, step: Step): Option<Update> {
    match step
    case Submitted(_) => Some(Insert(s.db.nextJob))
    case WriteRunning(w) => if w in s.workers then Some(ToRunning(s.workers[w].job)) else None
    case WriteDone(w) =>
      if w in s.workers && s.workers[w].stage.Finished? && s.workers[w].stage.outcome.Ok?
      then Some(ToDone(s.workers[w].job, s.workers[w].stage.outcome.value)) else None
    case WriteAttemptFailure(w) =>
      if w in s.workers && s.workers[w].stage.Finished? && s.workers[w].stage.outcome.Err?
      then Some(AttemptFailed(s.workers[w].job, s.workers[w].stage.outcome.error)) else None
    case WriteFailed(w) => if w in s.workers then Some(ToFailed(s.workers[w].job, EXHAUSTED)) else None
    case _ => None
  }

  /** A step changes the table only by its one stamped write, and terminal rows not at all. */
  lemma StepKeepsTable(s: System, step: Step, maxAttempts: int)
    requires TableOk(s.db.table) && MailOk(s) && Enabled(s, step, maxAttempts)
    ensures var t, t' := s.db.table, Next(s, step, maxAttempts).db.table;
      && TableOk(t')
      && t.rows.Keys <= t'.rows.Keys
      && t.nextSeq <= t'.nextSeq <= t.nextSeq + 1
      && (t' == t || t'.nextSeq == t.nextSeq + 1)
      && (forall j :: j in t.rows && Terminal(t.rows[j]) ==> t'.rows[j] == t.rows[j])
  {
    var u := Write(s, step);
    if u.Some? {
      assert step.Submitted? ==> s.db.nextJob !in s.db.table.rows;
      UpdateIsStamped(s.db.table, u.value);
      assert Next(s, step, maxAttempts).db.table == Applied(s.db.table, u.value);
    } else {
      assert Next(s, step, maxAttempts).db.table == s.db.table;
    }
  }

  /** No message is ever lost or rewritten, and its delivery count never goes down. */
  ghost predicate Grows(q: Queue, q': Queue) {
    forall m: nat :: Sent(q, m) ==>
      && Sent(q', m)
      && Mail(q', m).job == Mail(q, m).job
      && Mail(q', m).sgf == Mail(q, m).sgf
      && Mail(q', m).readCt >= Mail(q, m).readCt
  }

  /** A queue operation that only moves, counts or reveals messages. */
  ghost predicate SameMail(q: Queue, q': Queue) {
    && (forall m: nat :: Sent(q, m) <==> Sent(q', m))
    && Grows(q, q')
    && q'.active.Keys !! q'.archived.Keys
    && q'.nextMsg == q.nextMsg
  }

  lemma QueueOpsKeepMail(q: Queue, m: nat)
    requires q.active.Keys !! q.archived.Keys
    ensures m in q.active ==> SameMail(q, Read(q, m)) && SameMail(q, Lapse(q, m))
    ensures SameMail(q, Archive(q, m))
  {
    var q' := Archive(q, m);
    assert q'.active.Keys !! q'.archived.Keys;
    assert forall k: nat :: Sent(q, k) <==> Sent(q', k);
  }

  lemma SameMailMatches(
    jobs: set<nat>, nextJob: nat, ticket: map<nat, nat>, sgfs: map<nat, string>, q: Queue, q': Queue)
    requires MailMatches(jobs, nextJob, ticket, sgfs, q) && SameMail(q, q')
    ensures MailMatches(jobs, nextJob, ticket, sgfs, q') && Grows(q, q')
  {
  }

  lemma QueueOpsKeepMatches(
    jobs: set<nat>, nextJob: nat, ticket: map<nat, nat>, sgfs: map<nat, string>, q: Queue, m: nat)
    requires MailMatches(jobs, nextJob, ticket, sgfs, q)
    ensures m in q.active ==> MailMatches(jobs, nextJob, ticket, sgfs, Read(q, m)) && Grows(q, Read(q, m))
    ensures m in q.active ==> MailMatches(jobs, nextJob, ticket, sgfs, Lapse(q, m)) && Grows(q, Lapse(q, m))
    ensures MailMatches(jobs, nextJob, ticket, sgfs, Archive(q, m)) && Grows(q, Archive(q, m))
  {
    hide Read, Lapse, Archive, SameMail, Grows;
    QueueOpsKeepMail(q, m);
    if m in q.active {
      SameMailMatches(jobs, nextJob, ticket, sgfs, q, Read(q, m));
      SameMailMatches(jobs, nextJob, ticket, sgfs, q, Lapse(q, m));
    }
    SameMailMatches(jobs, nextJob, ticket, sgfs, q, Archive(q, m));
  }

  lemma GrowsItself(q: Queue)
    ensures Grows(q, q)
  {
  }

  lemma NewTicket(s: System)
    requires MailOk(s)
    ensures s.db.nextJob !in s.ticket && s.db.nextJob !in s.sgfs && s.ticket.Keys == s.sgfs.Keys
  {
  }

  lemma SendKeepsMail(
    jobs: set<nat>, nextJob: nat, ticket: map<nat, nat>, sgfs: map<nat, string>, q: Queue, sgf: string)
    requires MailMatches(jobs, nextJob, ticket, sgfs, q)
    ensures var q' := Send(q, nextJob, sgf);
      && MailMatches(jobs + {nextJob}, nextJob + 1, ticket[nextJob := q.nextMsg], sgfs[nextJob := sgf], q')
      && Grows(q, q')
  {
    var q' := Send(q, nextJob, sgf);
    assert !Sent(q, q.nextMsg);
    assert forall m: nat :: Sent(q', m) <==> Sent(q, m) || m == q.nextMsg;
  }

  lemma StepKeepsKeys(s: System, step: Step, maxAttempts: int)
    requires Enabled(s, step, maxAttempts) && !step.Submitted?
    ensures Next(s, step, maxAttempts).db.table.rows.Keys == s.db.table.rows.Keys
  {
  }

  lemma StepKeepsMail(s: System, step: Step, maxAttempts: int)
    requires MailOk(s) && Enabled(s, step, maxAttempts)
    ensures MailOk(Next(s, step, maxAttempts))
    ensures Grows(s.db.queue, Next(s, step, maxAttempts).db.queue)
    ensures forall j :: j in s.ticket ==>
      var s' := Next(s, step, maxAttempts);
      j in s'.ticket && j in s'.sgfs && s'.ticket[j] == s.ticket[j] && s'.sgfs[j] == s.sgfs[j]
  {
    hide SetRunning, SetDone, SetFailed, RecordAttemptFailure, Read, Lapse, Archive, Send, MailMatches, Grows;
    NewTicket(s);
    if !step.Submitted? {
      StepKeepsKeys(s, step, maxAttempts);
    }
    var jobs, q := s.db.table.rows.Keys, s.db.queue;
    match step
    case Submitted(sgf) =>
      SendKeepsMail(jobs, s.db.nextJob, s.ticket, s.sgfs, q, sgf);
      assert Next(s, step, maxAttempts).db.table.rows.Keys == jobs + {s.db.nextJob};
    case Lapsed(m) => QueueOpsKeepMatches(jobs, s.db.nextJob, s.ticket, s.sgfs, q, m);
    case Lease(_, m) => QueueOpsKeepMatches(jobs, s.db.nextJob, s.ticket, s.sgfs, q, m);
    case ArchiveDone(w) => QueueOpsKeepMatches(jobs, s.db.nextJob, s.ticket, s.sgfs, q, s.workers[w].m);
    case _ => GrowsItself(q);
  }

  /** A held delivery is one of its job's own message. */
  lemma DeliveryTicket(s: System, w: nat)
    requires MailOk(s) && DeliveriesOk(s) && w in s.workers
    ensures var d := s.workers[w];
      && d.job in s.ticket && s.ticket[d.job] == d.m && d.job in s.db.table.rows
      && Sent(s.db.queue, d.m) && 1 <= d.count <= Mail(s.db.queue, d.m).readCt
  {
    assert Sent(s.db.queue, s.workers[w].m);
  }

  lemma StepKeepsArchived(s: System, step: Step, maxAttempts: int)
    requires TableOk(s.db.table) && MailOk(s) && ArchivedOk(s) && DeliveriesOk(s) && WrittenOk(s)
    requires Enabled(s, step, maxAttempts)
    ensures ArchivedOk(Next(s, step, maxAttempts))
  {
    hide SetRunning, SetDone, SetFailed, RecordAttemptFailure;
    StepKeepsTable(s, step, maxAttempts);
    var rows, rows' := s.db.table.rows, Next(s, step, maxAttempts).db.table.rows;
    var old_, new_ := s.db.queue.archived, Next(s, step, maxAttempts).db.queue.archived;
    forall m | m in new_ && new_[m].job in rows' ensures Terminal(rows'[new_[m].job]) {
      if step.ArchiveDone? && s.workers[step.w].m == m {
        DeliveryTicket(s, step.w);
        assert Terminal(rows[s.workers[step.w].job]);
      } else {
        assert m in old_ && new_[m] == old_[m];
        assert Sent(s.db.queue, m);
      }
    }
  }

  lemma StepKeepsDeliveries(s: System, step: Step, maxAttempts: int)
    requires MailOk(s) && DeliveriesOk(s) && Enabled(s, step, maxAttempts)
    ensures DeliveriesOk(Next(s, step, maxAttempts))
  {
    hide SetRunning, SetDone, SetFailed, RecordAttemptFailure, MailMatches;
    StepKeepsMail(s, step, maxAttempts);
    var s' := Next(s, step, maxAttempts);
    forall w | w in s'.workers
      ensures Sent(s'.db.queue, s'.workers[w].m)
      ensures Mail(s'.db.queue, s'.workers[w].m).job == s'.workers[w].job
      ensures Mail(s'.db.queue, s'.workers[w].m).sgf == s'.workers[w].sgf
      ensures 1 <= s'.workers[w].count <= Mail(s'.db.queue, s'.workers[w].m).readCt
    {
      if !(step.Lease? && step.w == w) {
        assert w in s.workers && s'.workers[w] == s.workers[w].(stage := s'.workers[w].stage);
        assert Sent(s.db.queue, s.workers[w].m);
      }
    }
  }

  /** A terminal write leaves its row terminal, whether or not its guard let it through. */
  lemma WritesEndTheJob(t: Table, job: nat, text: string)
    requires job in t.rows
    ensures job in SetDone(t, job, text).rows && Terminal(SetDone(t, job, text).rows[job])
    ensures job in SetFailed(t, job, text).rows && Terminal(SetFailed(t, job, text).rows[job])
  {
  }

  /** A delivery whose outcome has just been written: its job is in the table, and terminal. */
  lemma JustWritten(s: System, step: Step, maxAttempts: int)
    requires MailOk(s) && DeliveriesOk(s) && Enabled(s, step, maxAttempts) && (step.WriteDone? || step.WriteFailed?)
    ensures var s' := Next(s, step, maxAttempts);
      && s'.workers.Keys == s.workers.Keys && s'.workers[step.w].job in s'.db.table.rows
      && Terminal(s'.db.table.rows[s'.workers[step.w].job])
  {
    DeliveryTicket(s, step.w);
    hide MailMatches, DeliveriesOk;
    if step.WriteDone? {
      WritesEndTheJob(s.db.table, s.workers[step.w].job, s.workers[step.w].stage.outcome.value);
    } else {
      WritesEndTheJob(s.db.table, s.workers[step.w].job, EXHAUSTED);
    }
  }

  /** Only those two writes make a delivery's outcome written. */
  lemma WrittenBefore(s: System, step: Step, maxAttempts: int, w: nat)
    requires Enabled(s, step, maxAttempts) && w in Next(s, step, maxAttempts).workers
    requires var d := Next(s, step, maxAttempts).workers[w]; d.stage.Exhausted? || d.stage.Stored?
    ensures
      || ((step.WriteDone? || step.WriteFailed?) && step.w == w)
      || (w in s.workers && s.workers[w] == Next(s, step, maxAttempts).workers[w])
  {
    hide SetRunning, SetDone, SetFailed, RecordAttemptFailure;
  }

  lemma StepKeepsWritten(s: System, step: Step, maxAttempts: int)
    requires TableOk(s.db.table) && MailOk(s) && DeliveriesOk(s) && WrittenOk(s)
    requires Enabled(s, step, maxAttempts)
    ensures WrittenOk(Next(s, step, maxAttempts))
  {
    hide Next, MailMatches, DeliveriesOk, TableOk, Terminal;
    StepKeepsTable(s, step, maxAttempts);
    var s' := Next(s, step, maxAttempts);
    forall w | w in s'.workers && (s'.workers[w].stage.Exhausted? || s'.workers[w].stage.Stored?)
      ensures s'.workers[w].job in s'.db.table.rows && Terminal(s'.db.table.rows[s'.workers[w].job])
    {
      WrittenBefore(s, step, maxAttempts, w);
      if (step.WriteDone? || step.WriteFailed?) && step.w == w {
        JustWritten(s, step, maxAttempts);
      }
    }
  }

  lemma StepKeepsCounts(s: System, step: Step, maxAttempts: int)
    requires MailOk(s) && DeliveriesOk(s) && CountsApart(s)
    requires Enabled(s, step, maxAttempts)
    ensures CountsApart(Next(s, step, maxAttempts))
  {
  }

  /** Where a worker's delivery comes from: a lease just made, or the delivery it already held. */
  lemma HeldBefore(s: System, step: Step, maxAttempts: int, w: nat)
    requires Enabled(s, step, maxAttempts) && w in Next(s, step, maxAttempts).workers
    ensures var d' := Next(s, step, maxAttempts).workers[w];
      if step == Lease(w, d'.m) then
        d'.m in s.db.queue.active && d'.count == s.db.queue.active[d'.m].readCt + 1 && d'.stage.Leased?
      else
        w in s.workers && d' == s.workers[w].(stage := d'.stage) && (d'.stage.Leased? ==> s.workers[w].stage.Leased?)
  {
  }

  /** The starts log grows only by a delivery that was marked and within the limit. */
  lemma StepKeepsStarts(s: System, step: Step, maxAttempts: int)
    requires MailOk(s) && DeliveriesOk(s) && CountsApart(s) && StartsOk(s, maxAttempts)
    requires Enabled(s, step, maxAttempts)
    ensures StartsOk(Next(s, step, maxAttempts), maxAttempts)
  {
    hide SetRunning, SetDone, SetFailed, RecordAttemptFailure, MailMatches, DeliveriesOk, CountsApart;
    StepKeepsMail(s, step, maxAttempts);
    var s' := Next(s, step, maxAttempts);
    forall i | 0 <= i < |s'.starts|
      ensures var (j, count) := s'.starts[i];
        && j in s'.ticket && Sent(s'.db.queue, s'.ticket[j])
        && 1 <= count <= maxAttempts && count <= Mail(s'.db.queue, s'.ticket[j]).readCt
    {
      if i == |s.starts| {
        DeliveryTicket(s, step.w);
      } else {
        assert s'.starts[i] == s.starts[i];
      }
    }
    forall w | w in s'.workers && Unstarted(s'.workers[w])
      ensures (s'.workers[w].job, s'.workers[w].count) !in s'.starts
    {
      UnstartedStaysOut(s, step, maxAttempts, w);
    }
    forall w | w in s'.workers && !s'.workers[w].stage.Leased? && !s'.workers[w].stage.Exhausted?
      ensures s'.workers[w].count <= maxAttempts
    {
      HeldBefore(s, step, maxAttempts, w);
    }
  }

  lemma UnstartedStaysOut(s: System, step: Step, maxAttempts: int, w: nat)
    requires MailOk(s) && DeliveriesOk(s) && CountsApart(s) && StartsOk(s, maxAttempts)
    requires Enabled(s, step, maxAttempts)
    requires w in Next(s, step, maxAttempts).workers && Unstarted(Next(s, step, maxAttempts).workers[w])
    ensures var s' := Next(s, step, maxAttempts);
      (s'.workers[w].job, s'.workers[w].count) !in s'.starts
  {
    hide SetRunning, SetDone, SetFailed, RecordAttemptFailure;
    var s' := Next(s, step, maxAttempts);
    HeldBefore(s, step, maxAttempts, w);
    var d' := s'.workers[w];
    if step == Lease(w, d'.m) {
      assert Sent(s.db.queue, d'.m);
      assert s'.starts == s.starts;
    } else {
      assert Unstarted(s.workers[w]);
      if step.Start? {
        var d := s.workers[step.w];
        DeliveryTicket(s, step.w);
        DeliveryTicket(s, w);
        assert s'.starts == s.starts + [(d.job, d.count)];
      } else {
        assert s'.starts == s.starts;
      }
    }
  }

  lemma StepWrites(s: System, step: Step, maxAttempts: int)
    requires Enabled(s, step, maxAttempts)
    ensures Next(s, step, maxAttempts).db.table ==
      if Write(s, step).Some? then Applied(s.db.table, Write(s, step).value) else s.db.table
    ensures s.produced <= Next(s, step, maxAttempts).produced
  {
  }

  lemma StepKeepsDone(s: System, step: Step, maxAttempts: int)
    requires MailOk(s) && DeliveriesOk(s) && DoneOk(s) && FinishedOk(s)
    requires Enabled(s, step, maxAttempts)
    ensures DoneOk(Next(s, step, maxAttempts))
  {
    StepKeepsMail(s, step, maxAttempts);
    StepWrites(s, step, maxAttempts);
    var s', u := Next(s, step, maxAttempts), Write(s, step);
    forall j | j in s'.db.table.rows && s'.db.table.rows[j].status.Done?
      ensures j in s'.sgfs && s'.db.table.rows[j].result.Some?
      ensures (s'.sgfs[j], s'.db.table.rows[j].result.value) in s'.produced
    {
      if u.Some? {
        UpdateOutcome(s.db.table, u.value, j);
        if step.WriteDone? {
          assert Sent(s.db.queue, s.workers[step.w].m);
        }
      }
    }
  }

  lemma StepKeepsFailed(s: System, step: Step, maxAttempts: int)
    requires MailOk(s) && DeliveriesOk(s) && FailedOk(s, maxAttempts)
    requires Enabled(s, step, maxAttempts)
    ensures FailedOk(Next(s, step, maxAttempts), maxAttempts)
  {
    StepKeepsMail(s, step, maxAttempts);
    StepWrites(s, step, maxAttempts);
    var s', u := Next(s, step, maxAttempts), Write(s, step);
    forall j | j in s'.db.table.rows && s'.db.table.rows[j].status.Failed?
      ensures j in s'.ticket && Sent(s'.db.queue, s'.ticket[j])
      ensures Mail(s'.db.queue, s'.ticket[j]).readCt > maxAttempts
      ensures s'.db.table.rows[j].error == Some(EXHAUSTED)
    {
      if u.Some? {
        UpdateOutcome(s.db.table, u.value, j);
        if step.WriteFailed? {
          assert Sent(s.db.queue, s.workers[step.w].m);
        }
      }
    }
  }

  lemma StepKeepsFinished(s: System, step: Step, maxAttempts: int)
    requires FinishedOk(s) && Enabled(s, step, maxAttempts)
    ensures FinishedOk(Next(s, step, maxAttempts))
  {
  }

  lemma StepKeepsInv(s: System, step: Step, maxAttempts: int)
    requires Inv(s, maxAttempts) && Enabled(s, step, maxAttempts)
    ensures Inv(Next(s, step, maxAttempts), maxAttempts)
  {
    StepKeepsTable(s, step, maxAttempts);
    StepKeepsMail(s, step, maxAttempts);
    StepKeepsArchived(s, step, maxAttempts);
    StepKeepsDeliveries(s, step, maxAttempts);
    StepKeepsWritten(s, step, maxAttempts);
    StepKeepsCounts(s, step, maxAttempts);
    StepKeepsStarts(s, step, maxAttempts);
    StepKeepsDone(s, step, maxAttempts);
    StepKeepsFailed(s, step, maxAttempts);
    StepKeepsFinished(s, step, maxAttempts);
  }

  // ----- whole runs

  lemma InitialInv(maxAttempts: int)
    ensures Inv(INITIAL, maxAttempts)
  {
  }

  lemma {:induction false} RunKeepsInv(s: System, steps: seq<Step>, maxAttempts: int)
    requires Inv(s, maxAttempts) && Run(s, steps, maxAttempts)
    ensures Inv(After(s, steps, maxAttempts), maxAttempts)
    decreases |steps|
  {
    if steps != [] {
      StepKeepsInv(s, steps[0], maxAttempts);
      RunKeepsInv(Next(s, steps[0], maxAttempts), steps[1..], maxAttempts);
    }
  }

  /** No orphan: in every reachable state each unfinished job still has its message in the queue,
      carrying the SGF it was submitted with; and an archived message's job is finished. */
  lemma NoOrphan(steps: seq<Step>, maxAttempts: int, j: nat)
    requires Run(INITIAL, steps, maxAttempts)
    requires j in After(INITIAL, steps, maxAttempts).db.table.rows
    ensures var s := After(INITIAL, steps, maxAttempts);
      && j in s.ticket && j in s.sgfs
      && (!Terminal(s.db.table.rows[j]) ==> s.ticket[j] in s.db.queue.active)
      && (s.ticket[j] in s.db.queue.active ==>
            s.db.queue.active[s.ticket[j]].job == j && s.db.queue.active[s.ticket[j]].sgf == s.sgfs[j])
      && (s.ticket[j] !in s.db.queue.active ==>
            s.ticket[j] in s.db.queue.archived && Terminal(s.db.table.rows[j]))
  {
    InitialInv(maxAttempts);
    RunKeepsInv(INITIAL, steps, maxAttempts);
    var s := After(INITIAL, steps, maxAttempts);
    assert Sent(s.db.queue, s.ticket[j]);
  }

  /** One outcome: in every reachable state a row has a result exactly when done and an error exactly
      when failed, the result is one an analysis of that job's own SGF returned, and a failure means
      that the message was delivered more than `maxAttempts` times. */
  lemma OutcomeIsEarned(steps: seq<Step>, maxAttempts: int, j: nat)
    requires Run(INITIAL, steps, maxAttempts)
    requires j in After(INITIAL, steps, maxAttempts).db.table.rows
    ensures var s := After(INITIAL, steps, maxAttempts);
      var row := s.db.table.rows[j];
      && ResultXorError(row)
      && j in s.sgfs && j in s.ticket && Sent(s.db.queue, s.ticket[j])
      && (row.status.Done? ==> (s.sgfs[j], row.result.value) in s.produced)
      && (row.status.Failed? ==> Mail(s.db.queue, s.ticket[j]).readCt > maxAttempts && row.error == Some(EXHAUSTED))
  {
    InitialInv(maxAttempts);
    RunKeepsInv(INITIAL, steps, maxAttempts);
  }

  /** In every reachable state the rows' `change_seq` values are distinct. */
  lemma ChangeSeqUnique(steps: seq<Step>, maxAttempts: int)
    requires Run(INITIAL, steps, maxAttempts)
    ensures TableOk(After(INITIAL, steps, maxAttempts).db.table)
  {
    InitialInv(maxAttempts);
    RunKeepsInv(INITIAL, steps, maxAttempts);
  }

  /** However the run continues, a finished job's row never changes again, not even its number. */
  lemma {:induction false} FinishedIsFinal(s: System, steps: seq<Step>, maxAttempts: int, j: nat)
    requires Inv(s, maxAttempts) && Run(s, steps, maxAttempts)
    requires j in s.db.table.rows && Terminal(s.db.table.rows[j])
    ensures j in After(s, steps, maxAttempts).db.table.rows
    ensures After(s, steps, maxAttempts).db.table.rows[j] == s.db.table.rows[j]
    decreases |steps|
  {
    if steps != [] {
      StepKeepsInv(s, steps[0], maxAttempts);
      StepKeepsTable(s, steps[0], maxAttempts);
      FinishedIsFinal(Next(s, steps[0], maxAttempts), steps[1..], maxAttempts, j);
    }
  }

  // ----- what a row and a message remember

  /** What the steps did to a job: whether a delivery of it was ever marked, and the error of the last
      attempt that failed before it was finished. */
  datatype Past = Past(marked: bool, lastError: Option<string>)

  const UNTOUCHED := Past(false, None)

  function Noticed(s: System, step: Step, maxAttempts: int, j: nat, past: Past): Past
    requires Enabled(s, step, maxAttempts)
  {
    match step
    case WriteRunning(w) => if s.workers[w].job == j then past.(marked := true) else past
    case WriteAttemptFailure(w) =>
      if s.workers[w].job == j && j in s.db.table.rows && !Terminal(s.db.table.rows[j])
      then past.(lastError := Some(s.workers[w].stage.outcome.error)) else past
    case _ => past
  }

  function PastAfter(s: System, steps: seq<Step>, maxAttempts: int, j: nat, past: Past): Past
    requires Run(s, steps, maxAttempts)
    decreases |steps|
  {
    if steps == [] then past
    else
      PastAfter(Next(s, steps[0], maxAttempts), steps[1..], maxAttempts, j,
                Noticed(s, steps[0], maxAttempts, j, past))
  }

  /** An unfinished row is running if a delivery of it was ever marked, and queued otherwise. */
  predicate Remembers(s: System, j: nat, past: Past) {
    if j in s.db.table.rows then
      var row := s.db.table.rows[j];
      && (Terminal(row) || row.status == (if past.marked then Status.Running else Status.Queued))
      && row.lastError == past.lastError
    else past == UNTOUCHED
  }

  lemma HeldIsStored(s: System, w: nat)
    requires MailOk(s) && DeliveriesOk(s) && w in s.workers
    ensures s.workers[w].job in s.db.table.rows
  {
    DeliveryTicket(s, w);
  }

  lemma StepRemembers(s: System, step: Step, maxAttempts: int, j: nat, past: Past)
    requires MailOk(s) && DeliveriesOk(s) && Enabled(s, step, maxAttempts) && Remembers(s, j, past)
    ensures Remembers(Next(s, step, maxAttempts), j, Noticed(s, step, maxAttempts, j, past))
  {
    match step
    case Submitted(sgf) => assert s.db.nextJob !in s.db.table.rows;
    case WriteRunning(w) => HeldIsStored(s, w);
    case _ =>
  }

  lemma {:induction false} RunRemembers(s: System, steps: seq<Step>, maxAttempts: int, j: nat, past: Past)
    requires Inv(s, maxAttempts) && Run(s, steps, maxAttempts) && Remembers(s, j, past)
    ensures Remembers(After(s, steps, maxAttempts), j, PastAfter(s, steps, maxAttempts, j, past))
    decreases |steps|
  {
    hide Inv, Remembers, Noticed, Next, Enabled;
    if steps != [] {
      StepKeepsInv(s, steps[0], maxAttempts);
      InvHasMail(s, maxAttempts);
      StepRemembers(s, steps[0], maxAttempts, j, past);
      RunRemembers(Next(s, steps[0], maxAttempts), steps[1..], maxAttempts, j,
        Noticed(s, steps[0], maxAttempts, j, past));
    }
  }

  /** In every reachable state an unfinished job is running exactly if a delivery of it was ever marked,
      queued exactly if none was, and its last error is that of the last attempt that failed. */
  lemma StatusTellsHistory(steps: seq<Step>, maxAttempts: int, j: nat)
    requires Run(INITIAL, steps, maxAttempts)
    requires j in After(INITIAL, steps, maxAttempts).db.table.rows
    ensures var row := After(INITIAL, steps, maxAttempts).db.table.rows[j];
      var past := PastAfter(INITIAL, steps, maxAttempts, j, UNTOUCHED);
      && (!Terminal(row) ==> (row.status.Running? <==> past.marked) && (row.status.Queued? <==> !past.marked))
      && row.lastError == past.lastError
  {
    InitialInv(maxAttempts);
    RunRemembers(INITIAL, steps, maxAttempts, j, UNTOUCHED);
  }

  /** A delivery that has been marked: its job is running, or finished. */
  ghost predicate MarkedOk(s: System) {
    forall w :: w in s.workers && !s.workers[w].stage.Leased? && !s.workers[w].stage.Exhausted? ==>
      && s.workers[w].job in s.db.table.rows
      && (s.db.table.rows[s.workers[w].job].status.Running? || Terminal(s.db.table.rows[s.workers[w].job]))
  }

  lemma NeverQueuedAgain(s: System, step: Step, maxAttempts: int, j: nat)
    requires MailOk(s) && Enabled(s, step, maxAttempts)
    requires j in s.db.table.rows && (s.db.table.rows[j].status.Running? || Terminal(s.db.table.rows[j]))
    ensures j in Next(s, step, maxAttempts).db.table.rows
    ensures var row := Next(s, step, maxAttempts).db.table.rows[j]; row.status.Running? || Terminal(row)
  {
    if step.Submitted? {
      assert s.db.nextJob !in s.db.table.rows;
    }
  }

  lemma MarkingRuns(s: System, maxAttempts: int, w: nat)
    requires MailOk(s) && DeliveriesOk(s) && Enabled(s, WriteRunning(w), maxAttempts)
    ensures var s', j := Next(s, WriteRunning(w), maxAttempts), s.workers[w].job;
      j in s'.db.table.rows && (s'.db.table.rows[j].status.Running? || Terminal(s'.db.table.rows[j]))
  {
    HeldIsStored(s, w);
  }

  lemma StepKeepsMarked(s: System, step: Step, maxAttempts: int)
    requires MailOk(s) && DeliveriesOk(s) && MarkedOk(s) && Enabled(s, step, maxAttempts)
    ensures MarkedOk(Next(s, step, maxAttempts))
  {
    hide Next, MailMatches, DeliveriesOk, Terminal;
    var s' := Next(s, step, maxAttempts);
    forall w | w in s'.workers && !s'.workers[w].stage.Leased? && !s'.workers[w].stage.Exhausted?
      ensures s'.workers[w].job in s'.db.table.rows
      ensures s'.db.table.rows[s'.workers[w].job].status.Running? || Terminal(s'.db.table.rows[s'.workers[w].job])
    {
      HeldBefore(s, step, maxAttempts, w);
      MarkedBefore(s, step, maxAttempts, w);
      if step == WriteRunning(w) {
        MarkingRuns(s, maxAttempts, w);
      } else {
        NeverQueuedAgain(s, step, maxAttempts, s.workers[w].job);
      }
    }
  }

  /** A delivery is marked by its own `set_running` only. */
  lemma MarkedBefore(s: System, step: Step, maxAttempts: int, w: nat)
    requires Enabled(s, step, maxAttempts) && w in Next(s, step, maxAttempts).workers
    requires var d := Next(s, step, maxAttempts).workers[w]; !d.stage.Leased? && !d.stage.Exhausted?
    ensures w in s.workers && s.workers[w].job == Next(s, step, maxAttempts).workers[w].job
    ensures step == WriteRunning(w) || (!s.workers[w].stage.Leased? && !s.workers[w].stage.Exhausted?)
  {
    hide SetRunning, SetDone, SetFailed, RecordAttemptFailure;
  }

  lemma {:induction false} RunKeepsMarked(s: System, steps: seq<Step>, maxAttempts: int)
    requires Inv(s, maxAttempts) && MarkedOk(s) && Run(s, steps, maxAttempts)
    ensures MarkedOk(After(s, steps, maxAttempts))
    decreases |steps|
  {
    hide Inv, MarkedOk;
    if steps != [] {
      StepKeepsInv(s, steps[0], maxAttempts);
      InvHasMail(s, maxAttempts);
      StepKeepsMarked(s, steps[0], maxAttempts);
      RunKeepsMarked(Next(s, steps[0], maxAttempts), steps[1..], maxAttempts);
    }
  }

  /** Throughout its analysis, and until its outcome is written, a job is shown as running, or another
      delivery has finished it. */
  lemma RunningWhileAnalysed(steps: seq<Step>, maxAttempts: int, w: nat)
    requires Run(INITIAL, steps, maxAttempts)
    ensures var s := After(INITIAL, steps, maxAttempts);
      w in s.workers &&
      (s.workers[w].stage.Marked? || s.workers[w].stage.Analysing? || s.workers[w].stage.Finished?) ==>
        && s.workers[w].job in s.db.table.rows
        && (s.db.table.rows[s.workers[w].job].status.Running? || Terminal(s.db.table.rows[s.workers[w].job]))
  {
    InitialInv(maxAttempts);
    RunKeepsMarked(INITIAL, steps, maxAttempts);
  }

  /** What the steps did to a message: how often it was read, and whether that hides it still. */
  datatype Readings = Readings(count: nat, hidden: bool)

  const UNREAD := Readings(0, false)

  function ReadBy(step: Step, m: nat, r: Readings): Readings {
    match step
    case Lease(_, k) => if k == m then Readings(r.count + 1, true) else r
    case Lapsed(k) => if k == m then r.(hidden := false) else r
    case _ => r
  }

  function ReadingsAfter(steps: seq<Step>, m: nat, r: Readings): Readings
    decreases |steps|
  {
    if steps == [] then r else ReadingsAfter(steps[1..], m, ReadBy(steps[0], m, r))
  }

  predicate Counted(q: Queue, m: nat, r: Readings) {
    && (if Sent(q, m) then Mail(q, m).readCt == r.count else r == UNREAD)
    && (m in q.active ==> q.active[m].visible == !r.hidden)
  }

  lemma StepCounts(s: System, step: Step, maxAttempts: int, m: nat, r: Readings)
    requires MailOk(s) && Enabled(s, step, maxAttempts) && Counted(s.db.queue, m, r)
    ensures Counted(Next(s, step, maxAttempts).db.queue, m, ReadBy(step, m, r))
  {
    hide SetRunning, SetDone, SetFailed, RecordAttemptFailure;
    if step.Submitted? {
      assert !Sent(s.db.queue, s.db.queue.nextMsg);
    }
  }

  lemma {:induction false} RunCounts(s: System, steps: seq<Step>, maxAttempts: int, m: nat, r: Readings)
    requires Inv(s, maxAttempts) && Run(s, steps, maxAttempts) && Counted(s.db.queue, m, r)
    ensures Counted(After(s, steps, maxAttempts).db.queue, m, ReadingsAfter(steps, m, r))
    decreases |steps|
  {
    hide Inv, Counted, ReadBy, Next, Enabled;
    if steps != [] {
      StepKeepsInv(s, steps[0], maxAttempts);
      InvHasMail(s, maxAttempts);
      StepCounts(s, steps[0], maxAttempts, m, r);
      RunCounts(Next(s, steps[0], maxAttempts), steps[1..], maxAttempts, m, ReadBy(steps[0], m, r));
    }
  }

  /** A message's delivery count is the number of its leases, and it can be leased again exactly when it
      was never leased or its timeout has lapsed since. */
  lemma DeliveriesAreCounted(steps: seq<Step>, maxAttempts: int, m: nat, w: nat)
    requires Run(INITIAL, steps, maxAttempts)
    ensures var s, r := After(INITIAL, steps, maxAttempts), ReadingsAfter(steps, m, UNREAD);
      && (Sent(s.db.queue, m) ==> Mail(s.db.queue, m).readCt == r.count)
      && (m in s.db.queue.active && w !in s.workers ==> (Enabled(s, Lease(w, m), maxAttempts) <==> !r.hidden))
  {
    InitialInv(maxAttempts);
    RunCounts(INITIAL, steps, maxAttempts, m, UNREAD);
  }

  // ----- bounded attempts

  /** How many analyses of `j` the log holds. */
  function Attempts(log: seq<(nat, nat)>, j: nat): nat {
    if log == [] then 0 else Attempts(log[1..], j) + (if log[0].0 == j then 1 else 0)
  }

  /** The delivery counts those analyses belonged to. */
  function CountsOf(log: seq<(nat, nat)>, j: nat): set<nat> {
    if log == [] then {} else CountsOf(log[1..], j) + (if log[0].0 == j then {log[0].1} else {})
  }

  lemma {:induction false} CountIsLogged(log: seq<(nat, nat)>, j: nat, count: nat) returns (i: nat)
    requires count in CountsOf(log, j)
    ensures i < |log| && log[i] == (j, count)
  {
    if log[0] == (j, count) {
      i := 0;
    } else {
      i := CountIsLogged(log[1..], j, count);
      i := i + 1;
    }
  }

  lemma {:induction false} AttemptsAreDistinct(log: seq<(nat, nat)>, j: nat)
    requires forall i, k :: 0 <= i < k < |log| ==> log[i] != log[k]
    ensures Attempts(log, j) == |CountsOf(log, j)|
  {
    if log != [] {
      AttemptsAreDistinct(log[1..], j);
      if log[0].0 == j && log[0].1 in CountsOf(log[1..], j) {
        var i := CountIsLogged(log[1..], j, log[0].1);
        assert false;
      }
    }
  }

  lemma {:induction false} SubsetOfRange(counts: set<nat>, limit: nat)
    requires forall c :: c in counts ==> 1 <= c <= limit
    ensures |counts| <= limit
    decreases limit
  {
    if limit == 0 {
      assert counts == {};
    } else {
      SubsetOfRange(counts - {limit}, limit - 1);
    }
  }

  /** At most `maxAttempts` analyses of a job are ever started, whatever crashes, lapses and
      concurrent redeliveries the run contains. */
  lemma BoundedAttempts(steps: seq<Step>, maxAttempts: int, j: nat)
    requires Run(INITIAL, steps, maxAttempts)
    ensures Attempts(After(INITIAL, steps, maxAttempts).starts, j) <= Max(0, maxAttempts)
  {
    InitialInv(maxAttempts);
    RunKeepsInv(INITIAL, steps, maxAttempts);
    var log := After(INITIAL, steps, maxAttempts).starts;
    AttemptsAreDistinct(log, j);
    forall count | count in CountsOf(log, j) ensures 1 <= count <= Max(0, maxAttempts) {
      var i := CountIsLogged(log, j, count);
    }
    SubsetOfRange(CountsOf(log, j), Max(0, maxAttempts));
  }

  // ----- one delivery past the limit, whatever else happens

  /** How many steps of a run are worker `w`'s own. */
  function OwnSteps(steps: seq<Step>, w: nat): nat {
    if steps == [] then 0 else OwnSteps(steps[1..], w) + (if By(steps[0], w) then 1 else 0)
  }

  predicate By(step: Step, w: nat) {
    match step
    case Submitted(_) => false
    case Lapsed(_) => false
    case Lease(v, _) => v == w
    case WriteRunning(v) => v == w
    case Start(v) => v == w
    case Finish(v, _) => v == w
    case WriteDone(v) => v == w
    case WriteAttemptFailure(v) => v == w
    case WriteFailed(v) => v == w
    case ArchiveDone(v) => v == w
    case Crash(v) => v == w
  }

  lemma OthersLeaveDelivery(s: System, step: Step, maxAttempts: int, w: nat)
    requires Enabled(s, step, maxAttempts) && w in s.workers && !By(step, w)
    ensures w in Next(s, step, maxAttempts).workers && Next(s, step, maxAttempts).workers[w] == s.workers[w]
  {
  }

  lemma ArchivedStays(s: System, step: Step, maxAttempts: int, m: nat)
    requires MailOk(s) && Enabled(s, step, maxAttempts) && Sent(s.db.queue, m) && m !in s.db.queue.active
    ensures m !in Next(s, step, maxAttempts).db.queue.active
  {
  }

  lemma {:induction false} StaysArchived(s: System, steps: seq<Step>, maxAttempts: int, m: nat)
    requires Inv(s, maxAttempts) && Run(s, steps, maxAttempts)
    requires Sent(s.db.queue, m) && m !in s.db.queue.active
    ensures m !in After(s, steps, maxAttempts).db.queue.active
    decreases |steps|
  {
    hide Inv;
    if steps != [] {
      StepKeepsInv(s, steps[0], maxAttempts);
      InvHasMail(s, maxAttempts);
      ArchivedStays(s, steps[0], maxAttempts, m);
      StepKeepsMail(s, steps[0], maxAttempts);
      StaysArchived(Next(s, steps[0], maxAttempts), steps[1..], maxAttempts, m);
    }
  }

  lemma InvHasMail(s: System, maxAttempts: int)
    requires Inv(s, maxAttempts)
    ensures MailOk(s) && DeliveriesOk(s)
  {
  }

  /** However other workers, lapses, redeliveries and crashes interleave: once the worker that holds a
      delivery past the limit has taken its two steps without crashing, the message is archived, and it
      stays archived. Until then one of the two can be taken at once. */
  lemma {:induction false} PastLimitArchives(s: System, steps: seq<Step>, maxAttempts: int, w: nat)
    requires Inv(s, maxAttempts) && Run(s, steps, maxAttempts) && Crash(w) !in steps
    requires w in s.workers && s.workers[w].count > maxAttempts
    requires s.workers[w].stage.Leased? || s.workers[w].stage.Exhausted?
    ensures OwnSteps(steps, w) >= (if s.workers[w].stage.Leased? then 2 else 1) ==>
      s.workers[w].m !in After(s, steps, maxAttempts).db.queue.active
    ensures if s.workers[w].stage.Leased? then Enabled(s, WriteFailed(w), maxAttempts)
      else Enabled(s, ArchiveDone(w), maxAttempts)
    decreases |steps|
  {
    hide Inv;
    if steps != [] {
      var step, m := steps[0], s.workers[w].m;
      var s' := Next(s, step, maxAttempts);
      StepKeepsInv(s, step, maxAttempts);
      InvHasMail(s, maxAttempts);
      if !By(step, w) {
        OthersLeaveDelivery(s, step, maxAttempts, w);
        PastLimitArchives(s', steps[1..], maxAttempts, w);
      } else if step.WriteFailed? {
        PastLimitArchives(s', steps[1..], maxAttempts, w);
      } else {
        assert step == Crash(w) ==> Crash(w) in steps;
        ArchiveTakesIt(s, maxAttempts, w);
        StaysArchived(s', steps[1..], maxAttempts, m);
      }
    }
  }

  lemma ArchiveTakesIt(s: System, maxAttempts: int, w: nat)
    requires DeliveriesOk(s) && Enabled(s, ArchiveDone(w), maxAttempts)
    ensures var q := Next(s, ArchiveDone(w), maxAttempts).db.queue;
      Sent(q, s.workers[w].m) && s.workers[w].m !in q.active
  {
    assert Sent(s.db.queue, s.workers[w].m);
  }

  // ----- one uninterrupted delivery

  /** The steps worker `w` takes for a delivery it has just leased. */
  function HandlingSteps(d: Delivery, w: nat, maxAttempts: int, outcome: Outcome): seq<Step> {
    if d.count > maxAttempts then [WriteFailed(w), ArchiveDone(w)]
    else if outcome.Ok? then [WriteRunning(w), Start(w), Finish(w, outcome), WriteDone(w), ArchiveDone(w)]
    else [WriteRunning(w), Start(w), Finish(w, outcome), WriteAttemptFailure(w)]
  }

  lemma GivingUpIsARun(s: System, w: nat, maxAttempts: int)
    requires Holds(s, w, Leased) && s.workers[w].count > maxAttempts
    ensures var d, steps := s.workers[w], [WriteFailed(w), ArchiveDone(w)];
      && Run(s, steps, maxAttempts)
      && After(s, steps, maxAttempts).db ==
           s.db.(table := SetFailed(s.db.table, d.job, EXHAUSTED), queue := Archive(s.db.queue, d.m))
  {
    hide SetFailed, Archive, Run, After;
    RunTwo(s, WriteFailed(w), ArchiveDone(w), maxAttempts);
  }

  /** Marking the job, and running its analysis to an outcome. */
  lemma AnalysingIsARun(s: System, w: nat, maxAttempts: int, outcome: Outcome, rest: seq<Step>) returns (mid: System)
    requires Holds(s, w, Leased) && s.workers[w].count <= maxAttempts
    ensures Holds(mid, w, Finished(outcome)) && mid.workers[w] == s.workers[w].(stage := Finished(outcome))
    ensures mid.db == s.db.(table := SetRunning(s.db.table, s.workers[w].job))
    ensures var steps := [WriteRunning(w), Start(w), Finish(w, outcome)] + rest;
      Run(mid, rest, maxAttempts) ==>
        Run(s, steps, maxAttempts) && After(s, steps, maxAttempts) == After(mid, rest, maxAttempts)
  {
    hide SetRunning, Run, After;
    var s1 := Next(s, WriteRunning(w), maxAttempts);
    var s2 := Next(s1, Start(w), maxAttempts);
    mid := Next(s2, Finish(w, outcome), maxAttempts);
    if Run(mid, rest, maxAttempts) {
      RunCons(s2, Finish(w, outcome), rest, maxAttempts);
      RunCons(s1, Start(w), [Finish(w, outcome)] + rest, maxAttempts);
      RunCons(s, WriteRunning(w), [Start(w)] + ([Finish(w, outcome)] + rest), maxAttempts);
      assert [WriteRunning(w)] + ([Start(w)] + ([Finish(w, outcome)] + rest))
          == [WriteRunning(w), Start(w), Finish(w, outcome)] + rest;
    }
  }

  lemma EndingIsARun(s: System, w: nat, maxAttempts: int, outcome: Outcome)
    requires Holds(s, w, Finished(outcome))
    ensures var d := s.workers[w];
      var steps := if outcome.Ok? then [WriteDone(w), ArchiveDone(w)] else [WriteAttemptFailure(w)];
      && Run(s, steps, maxAttempts)
      && After(s, steps, maxAttempts).db ==
           (match outcome
            case Ok(value) => s.db.(table := SetDone(s.db.table, d.job, value), queue := Archive(s.db.queue, d.m))
            case Err(err) => s.db.(table := RecordAttemptFailure(s.db.table, d.job, err)))
  {
    hide SetDone, RecordAttemptFailure, Archive;
    if outcome.Ok? {
      hide Run, After;
      RunTwo(s, WriteDone(w), ArchiveDone(w), maxAttempts);
    } else {
      assert [WriteAttemptFailure(w)][1..] == [];
    }
  }

  /** `Database.Handle` is a run of these steps: it leaves exactly the database they leave. A
      delivery past the limit, or one whose analysis succeeds, always removes the message; a failed
      analysis always leaves it for redelivery. */
  lemma HandlingIsARun(s: System, w: nat, maxAttempts: int, outcome: Outcome)
    requires Holds(s, w, Leased)
    ensures var d := s.workers[w];
      var steps := HandlingSteps(d, w, maxAttempts, outcome);
      && Run(s, steps, maxAttempts)
      && After(s, steps, maxAttempts).db ==
           Handled(s.db, d.m, Message(d.job, d.sgf, d.count, false), maxAttempts, outcome)
      && (d.m in After(s, steps, maxAttempts).db.queue.active <==>
            d.m in s.db.queue.active && d.count <= maxAttempts && outcome.Err?)
  {
    hide SetRunning, SetDone, SetFailed, RecordAttemptFailure, Run, After;
    var d := s.workers[w];
    if d.count > maxAttempts {
      GivingUpIsARun(s, w, maxAttempts);
    } else {
      var rest := if outcome.Ok? then [WriteDone(w), ArchiveDone(w)] else [WriteAttemptFailure(w)];
      var mid := AnalysingIsARun(s, w, maxAttempts, outcome, rest);
      EndingIsARun(mid, w, maxAttempts, outcome);
      assert [WriteRunning(w), Start(w), Finish(w, outcome)] + rest == HandlingSteps(d, w, maxAttempts, outcome);
    }
  }

  lemma RunCons(s: System, step: Step, rest: seq<Step>, maxAttempts: int)
    requires Enabled(s, step, maxAttempts) && Run(Next(s, step, maxAttempts), rest, maxAttempts)
    ensures Run(s, [step] + rest, maxAttempts)
    ensures After(s, [step] + rest, maxAttempts) == After(Next(s, step, maxAttempts), rest, maxAttempts)
  {
    assert ([step] + rest)[1..] == rest;
  }

  lemma RunTwo(s: System, a: Step, b: Step, maxAttempts: int)
    requires Enabled(s, a, maxAttempts) && Enabled(Next(s, a, maxAttempts), b, maxAttempts)
    ensures Run(s, [a, b], maxAttempts)
    ensures After(s, [a, b], maxAttempts) == Next(Next(s, a, maxAttempts), b, maxAttempts)
  {
    RunCons(Next(s, a, maxAttempts), b, [], maxAttempts);
    assert [b] + [] == [b];
    assert [a] + [b] == [a, b];
    RunCons(s, a, [b], maxAttempts);
  }
}
