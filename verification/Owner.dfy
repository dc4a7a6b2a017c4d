/** The task that owns the KataGo subprocess: the pending table, the backlog kept while the process
    is down, the id counter and the relaunch loop. It is one task, so its state is plain; the class
    `Owner` below is that task, and `Next` is what each of its actions does. */
module KataGoOwner {
  import opened Common
  import opened Demux

  const RESTART_BACKOFF_MIN := 1
  const RESTART_BACKOFF_MAX := 60

  /** A query as callers submit it; `expected` is how many turns it asks for (at least one: a query
      for none is answered without the owner). */
  datatype Query = Query(tag: nat, expected: nat)

  datatype Command = Analyze(query: Query) | Shutdown

  /** How writing a query to KataGo went. */
  datatype WriteResult = Written | Unwritten(error: string)

  datatype Status = Starting | Ready | Exited

  datatype Phase =
    | Serving     // a process is running
    | Down        // between processes: waiting out the backoff
    | Stopped

  /** The owner's fields, and three logs: `arrivals` (queries accepted into the command channel),
      `sent` (queries given an id, in id order) and `refused` (queries answered without one). */
  datatype State = State(
    supervised: bool,
    started: bool,
    status: Status,
    phase: Phase,
    backoff: int,
    nextId: nat,
    table: Table,
    backlog: seq<Query>,
    channel: seq<Command>,
    arrivals: seq<Query>,
    sent: seq<Query>,
    refused: seq<(Query, Reply)>)

  function Initial(supervised: bool): State {
    State(supervised, false, Starting, Serving, RESTART_BACKOFF_MIN, 0, Table(map[], map[]), [], [], [], [], [])
  }

  /** Assign the query an id, write it, and track its reply. */
  function Submitted(s: State, q: Query, w: WriteResult): State {
    var id := s.nextId;
    s.(nextId := id + 1,
       sent := s.sent + [q],
       table := match w
                case Written => Table(s.table.pending[id := Entry(q.expected, [])], s.table.answered)
                case Unwritten(err) => Table(s.table.pending, s.table.answered[id := Failed(err)]))
  }

  /** `writes[i]` is how writing the `i`-th query of the backlog goes (`Written` past its end). */
  function SubmittedAll(s: State, queries: seq<Query>, writes: seq<WriteResult>): State
    decreases |queries|
  {
    if queries == [] then s
    else SubmittedAll(Submitted(s, queries[0], FirstWrite(writes)), queries[1..], RestWrites(writes))
  }

  function FirstWrite(writes: seq<WriteResult>): WriteResult {
    if writes == [] then Written else writes[0]
  }

  function RestWrites(writes: seq<WriteResult>): seq<WriteResult> {
    if writes == [] then [] else writes[1..]
  }

  /** Every query in flight gets the same reply. */
  function AllAnswered(t: Table, r: Reply): Table {
    Table(map[], t.answered + (map n | n in t.pending :: r))
  }

  function Refusals(queries: seq<Query>, r: Reply): seq<(Query, Reply)> {
    if queries == [] then [] else [(queries[0], r)] + Refusals(queries[1..], r)
  }

  function QueriesOf(channel: seq<Command>): seq<Query> {
    if channel == [] then []
    else (if channel[0].Analyze? then [channel[0].query] else []) + QueriesOf(channel[1..])
  }

  /** The task ends: its backlog is answered with `r`, and commands left in the channel are dropped
      with it. */
  function StopWith(s: State, r: Reply): State {
    s.(phase := Stopped,
       backlog := [],
       channel := [],
       refused := s.refused + Refusals(s.backlog, r) + Refusals(QueriesOf(s.channel), Dropped))
  }

  const SHUT_DOWN := Failed("katago engine shut down")

  datatype Event =
    | Offer(query: Query)                               // a caller's command enters the channel
    | OfferShutdown
    | Take(write: WriteResult)                          // the owner takes the next command
    | HandlesGone                                       // every handle dropped, channel empty
    | KataGoReady
    | Stdout(line: Line)
    | ProcessExit(status: string)
    | Relaunch(launched: bool, writes: seq<WriteResult>)  // the backoff has been waited out

  predicate Enabled(s: State, e: Event) {
    match e
    case Offer(q) => !s.phase.Stopped? && q.expected > 0
    case OfferShutdown => !s.phase.Stopped?
    case Take(_) => !s.phase.Stopped? && s.channel != []
    case HandlesGone => !s.phase.Stopped? && s.channel == []
    case KataGoReady => s.phase.Serving? && s.status.Starting?
    case Stdout(_) => s.phase.Serving?
    case ProcessExit(_) => s.phase.Serving?
    case Relaunch(_, _) => s.phase.Down?
  }

  function Next(s: State, e: Event): State
    requires Enabled(s, e)
  {
    match e
    case Offer(q) => s.(channel := s.channel + [Analyze(q)], arrivals := s.arrivals + [q])
    case OfferShutdown => s.(channel := s.channel + [Shutdown])
    case Take(w) =>
      var rest := s.(channel := s.channel[1..]);
      (match s.channel[0]
       case Analyze(q) =>
         if s.phase.Serving? then Submitted(rest, q, w) else rest.(backlog := rest.backlog + [q])
       case Shutdown =>
         StopWith(rest.(status := Exited, table := AllAnswered(rest.table, SHUT_DOWN)), SHUT_DOWN))
    case HandlesGone =>
      var status := if s.phase.Serving? then s.status else Exited;
      StopWith(s.(status := status, table := AllAnswered(s.table, Dropped)), Dropped)
    case KataGoReady => s.(started := true, status := Ready)
    case Stdout(line) => s.(table := Handled(s.table, line))
    case ProcessExit(status) =>
      var failed := s.(table := AllAnswered(s.table, Failed("katago process exited (" + status + ")")));
      if !s.supervised || !s.started then StopWith(failed.(status := Exited), Dropped)
      else
        failed.(phase := Down, status := Exited,
                backoff := if s.status.Ready? then RESTART_BACKOFF_MIN else s.backoff)
    case Relaunch(launched, writes) =>
      var waited := s.(backoff := Min(s.backoff * 2, RESTART_BACKOFF_MAX));
      if !launched then waited
      else SubmittedAll(waited.(phase := Serving, status := Starting, backlog := []), s.backlog, writes)
  }

  predicate Run(s: State, events: seq<Event>)
    decreases |events|
  {
    events == [] || (Enabled(s, events[0]) && Run(Next(s, events[0]), events[1..]))
  }

  function After(s: State, events: seq<Event>): State
    requires Run(s, events)
    decreases |events|
  {
    if events == [] then s else After(Next(s, events[0]), events[1..])
  }

  // ----- the invariant

  /** Every query is in exactly one place. As sequences: what arrived is what was sent, then what was
      refused, then the backlog, then the channel, in arrival order. */
  ghost predicate Conserved(s: State) {
    s.arrivals == s.sent + RefusedQueries(s.refused) + s.backlog + QueriesOf(s.channel)
  }

  function RefusedQueries(refused: seq<(Query, Reply)>): seq<Query> {
    seq(|refused|, i requires 0 <= i < |refused| => refused[i].0)
  }

  /** Id `n` belongs to the `n`-th query sent, for ever; it is either pending or answered, and a batch
      that was delivered has exactly the turns asked for. */
  ghost predicate IdsOk(s: State) {
    && s.nextId == |s.sent|
    && (forall n :: n in s.table.pending || n in s.table.answered <==> 0 <= n < s.nextId)
    && s.table.pending.Keys !! s.table.answered.Keys
    && (forall n :: n in s.table.pending ==>
          s.table.pending[n].expected == s.sent[n].expected && |s.table.pending[n].got| < s.sent[n].expected)
    && (forall n :: n in s.table.answered && s.table.answered[n].Turns? ==>
          |s.table.answered[n].turns| == s.sent[n].expected)
    && (forall i :: 0 <= i < |s.sent| ==> s.sent[i].expected > 0)
    && (forall i :: 0 <= i < |s.backlog| ==> s.backlog[i].expected > 0)
    && (forall i :: 0 <= i < |s.channel| && s.channel[i].Analyze? ==> s.channel[i].query.expected > 0)
  }

  ghost predicate PhaseOk(s: State) {
    && RESTART_BACKOFF_MIN <= s.backoff <= RESTART_BACKOFF_MAX
    && (!s.phase.Serving? ==> s.table.pending == map[])
    && (!s.phase.Down? ==> s.backlog == [])
    && (s.phase.Stopped? ==> s.channel == [])
    && (!s.phase.Stopped? ==> s.refused == [])
    && (s.phase.Down? ==> s.supervised && s.started)
    && (s.status.Ready? ==> s.started)
  }

  ghost predicate Inv(s: State) {
    Conserved(s) && IdsOk(s) && PhaseOk(s)
  }

  lemma {:induction false} QueriesOfConcat(a: seq<Command>, b: seq<Command>)
    ensures QueriesOf(a + b) == QueriesOf(a) + QueriesOf(b)
  {
    if a == [] {
      assert a + b == b;
    } else {
      assert (a + b)[1..] == a[1..] + b;
      QueriesOfConcat(a[1..], b);
      var first := if a[0].Analyze? then [a[0].query] else [];
      assert QueriesOf(a) == first + QueriesOf(a[1..]) && QueriesOf(a + b) == first + QueriesOf(a[1..] + b);
    }
  }

  lemma {:induction false} RefusalsShape(queries: seq<Query>, r: Reply)
    ensures RefusedQueries(Refusals(queries, r)) == queries
  {
    if queries != [] {
      RefusalsShape(queries[1..], r);
      var rest := Refusals(queries[1..], r);
      assert RefusedQueries([(queries[0], r)] + rest) == [queries[0]] + RefusedQueries(rest);
    }
  }

  lemma RefusedConcat(a: seq<(Query, Reply)>, b: seq<(Query, Reply)>)
    ensures RefusedQueries(a + b) == RefusedQueries(a) + RefusedQueries(b)
  {
  }

  lemma StopConserves(s: State, r: Reply)
    requires Conserved(s) && s.refused == []
    ensures Conserved(StopWith(s, r))
  {
    hide Refusals, QueriesOf, RefusedQueries;
    var a, b := Refusals(s.backlog, r), Refusals(QueriesOf(s.channel), Dropped);
    RefusalsShape(s.backlog, r);
    RefusalsShape(QueriesOf(s.channel), Dropped);
    RefusedConcat(a, b);
    NothingRefused();
    assert [] + a + b == a + b;
    assert s.sent + [] + s.backlog + QueriesOf(s.channel) == s.sent + (s.backlog + QueriesOf(s.channel)) + [] + [];
  }

  lemma NothingRefused()
    ensures RefusedQueries([]) == [] && QueriesOf([]) == []
  {
  }

  lemma StopKeepsInv(s: State, r: Reply)
    requires Conserved(s) && IdsOk(s) && s.table.pending == map[] && s.refused == []
    requires RESTART_BACKOFF_MIN <= s.backoff <= RESTART_BACKOFF_MAX && (s.status.Ready? ==> s.started)
    ensures Inv(StopWith(s, r))
  {
    hide Refusals, QueriesOf, RefusedQueries, Conserved;
    StopConserves(s, r);
  }

  /** Queries whose numbers follow on: sending keeps every id bound to its query. */
  lemma SubmitKeepsIds(s: State, q: Query, w: WriteResult)
    requires IdsOk(s) && q.expected > 0
    ensures IdsOk(Submitted(s, q, w))
  {
    var s' := Submitted(s, q, w);
    assert s'.sent[..s.nextId] == s.sent;
  }

  lemma {:induction false} SubmitAllEffect(s: State, queries: seq<Query>, writes: seq<WriteResult>)
    requires IdsOk(s) && forall i :: 0 <= i < |queries| ==> queries[i].expected > 0
    ensures var s' := SubmittedAll(s, queries, writes);
      && IdsOk(s')
      && s'.sent == s.sent + queries && s'.nextId == s.nextId + |queries|
      && s' == s.(table := s'.table, sent := s'.sent, nextId := s'.nextId)
      && (forall n :: n in s.table.answered ==> n in s'.table.answered && s'.table.answered[n] == s.table.answered[n])
    decreases |queries|
  {
    if queries != [] {
      hide IdsOk;
      SubmitKeepsIds(s, queries[0], FirstWrite(writes));
      var s1 := Submitted(s, queries[0], FirstWrite(writes));
      SubmitAllEffect(s1, queries[1..], RestWrites(writes));
      assert s.sent + queries == s1.sent + queries[1..];
    }
  }

  lemma AnswerAllKeepsIds(s: State, r: Reply)
    requires IdsOk(s) && !r.Turns?
    ensures IdsOk(s.(table := AllAnswered(s.table, r)))
  {
  }

  lemma LineKeepsIds(s: State, line: Line)
    requires IdsOk(s)
    ensures IdsOk(s.(table := Handled(s.table, line)))
  {
  }

  lemma TakeServingKeepsInv(s: State, q: Query, w: WriteResult)
    requires Inv(s) && s.phase.Serving? && s.channel != [] && s.channel[0] == Analyze(q)
    ensures Inv(Submitted(s.(channel := s.channel[1..]), q, w))
  {
    var rest := s.(channel := s.channel[1..]);
    assert QueriesOf(s.channel) == [q] + QueriesOf(rest.channel);
    assert s.channel[0].query == q;
    assert IdsOk(rest);
    hide IdsOk, QueriesOf, RefusedQueries;
    NothingRefused();
    SubmitKeepsIds(rest, q, w);
    assert s.sent + [] + [] + ([q] + QueriesOf(rest.channel)) == (s.sent + [q]) + [] + [] + QueriesOf(rest.channel);
  }

  lemma TakeDownKeepsInv(s: State, q: Query)
    requires Inv(s) && s.phase.Down? && s.channel != [] && s.channel[0] == Analyze(q)
    ensures Inv(s.(channel := s.channel[1..], backlog := s.backlog + [q]))
  {
    assert QueriesOf(s.channel) == [q] + QueriesOf(s.channel[1..]);
    assert s.channel[0].query == q;
    assert s.sent + [] + s.backlog + ([q] + QueriesOf(s.channel[1..]))
        == s.sent + [] + (s.backlog + [q]) + QueriesOf(s.channel[1..]);
  }

  lemma TakeShutdownKeepsInv(s: State, w: WriteResult)
    requires Inv(s) && Enabled(s, Take(w)) && s.channel[0].Shutdown?
    ensures Inv(Next(s, Take(w)))
  {
    var rest := s.(channel := s.channel[1..], status := Exited);
    assert QueriesOf(s.channel) == [] + QueriesOf(rest.channel);
    AnswerAllKeepsIds(rest, SHUT_DOWN);
    StopKeepsInv(rest.(table := AllAnswered(rest.table, SHUT_DOWN)), SHUT_DOWN);
  }

  lemma TakeKeepsInv(s: State, w: WriteResult)
    requires Inv(s) && Enabled(s, Take(w))
    ensures Inv(Next(s, Take(w)))
  {
    match s.channel[0]
    case Analyze(q) =>
      if s.phase.Serving? {
        TakeServingKeepsInv(s, q, w);
      } else {
        TakeDownKeepsInv(s, q);
      }
    case Shutdown => TakeShutdownKeepsInv(s, w);
  }

  lemma OfferKeepsInv(s: State, c: Command)
    requires Inv(s) && !s.phase.Stopped? && (c.Analyze? ==> c.query.expected > 0)
    ensures Inv(s.(channel := s.channel + [c], arrivals := s.arrivals + QueriesOf([c])))
  {
    QueriesOfConcat(s.channel, [c]);
    assert QueriesOf([c]) == if c.Analyze? then [c.query] else [];
    if c.Shutdown? {
      assert s.arrivals + [] == s.arrivals;
    }
  }

  lemma ExitKeepsInv(s: State, status: string)
    requires Inv(s) && Enabled(s, ProcessExit(status))
    ensures Inv(Next(s, ProcessExit(status)))
  {
    var r := Failed("katago process exited (" + status + ")");
    AnswerAllKeepsIds(s, r);
    if !s.supervised || !s.started {
      StopKeepsInv(s.(table := AllAnswered(s.table, r), status := Exited), Dropped);
    }
  }

  lemma RelaunchIds(s: State)
    requires IdsOk(s)
    ensures IdsOk(
      s.(backoff := Min(s.backoff * 2, RESTART_BACKOFF_MAX), phase := Serving, status := Starting, backlog := []))
    ensures IdsOk(s.(backoff := Min(s.backoff * 2, RESTART_BACKOFF_MAX)))
    ensures forall i :: 0 <= i < |s.backlog| ==> s.backlog[i].expected > 0
  {
  }

  lemma RelaunchKeepsInv(s: State, launched: bool, writes: seq<WriteResult>)
    requires Inv(s) && Enabled(s, Relaunch(launched, writes))
    ensures Inv(Next(s, Relaunch(launched, writes)))
  {
    hide IdsOk, QueriesOf, SubmittedAll, Submitted, RefusedQueries;
    if launched {
      RelaunchIds(s);
      var waited := s.(backoff := Min(s.backoff * 2, RESTART_BACKOFF_MAX), phase := Serving, status := Starting,
                       backlog := []);
      SubmitAllEffect(waited, s.backlog, writes);
      var s' := SubmittedAll(waited, s.backlog, writes);
      NothingRefused();
      assert s'.refused == s.refused == [] && s'.backlog == [];
      assert s.sent + [] + s.backlog + QueriesOf(s.channel) == s'.sent + [] + [] + QueriesOf(s.channel);
    } else {
      RelaunchIds(s);
    }
  }

  lemma GoneKeepsInv(s: State)
    requires Inv(s) && Enabled(s, HandlesGone)
    ensures Inv(Next(s, HandlesGone))
  {
    var status := if s.phase.Serving? then s.status else Exited;
    AnswerAllKeepsIds(s.(status := status), Dropped);
    StopKeepsInv(s.(status := status, table := AllAnswered(s.table, Dropped)), Dropped);
  }

  lemma StepKeepsInv(s: State, e: Event)
    requires Inv(s) && Enabled(s, e)
    ensures Inv(Next(s, e))
  {
    match e
    case Offer(q) =>
      assert QueriesOf([Analyze(q)]) == [q];
      OfferKeepsInv(s, Analyze(q));
    case OfferShutdown =>
      assert s.arrivals + QueriesOf([Shutdown]) == s.arrivals;
      OfferKeepsInv(s, Shutdown);
    case Take(w) => TakeKeepsInv(s, w);
    case HandlesGone => GoneKeepsInv(s);
    case KataGoReady =>
    case Stdout(line) => LineKeepsIds(s, line);
    case ProcessExit(status) => ExitKeepsInv(s, status);
    case Relaunch(launched, writes) => RelaunchKeepsInv(s, launched, writes);
  }

  /** Nothing is taken back: ids keep their queries, and a reply once sent stays the only one. */
  ghost predicate Extends(s: State, s': State) {
    && s.sent <= s'.sent
    && s.arrivals <= s'.arrivals
    && s.nextId <= s'.nextId
    && (forall n :: n in s.table.answered ==> n in s'.table.answered && s'.table.answered[n] == s.table.answered[n])
  }

  /** Replies are only added, and only for ids that are in flight or new. */
  ghost predicate TableExtends(t: Table, t': Table) {
    forall n :: n in t.answered ==> n in t'.answered && t'.answered[n] == t.answered[n]
  }

  lemma AnswerAllExtends(t: Table, r: Reply)
    requires t.pending.Keys !! t.answered.Keys
    ensures TableExtends(t, AllAnswered(t, r))
  {
  }

  lemma LineExtends(t: Table, line: Line)
    requires t.pending.Keys !! t.answered.Keys
    ensures TableExtends(t, Handled(t, line))
  {
  }

  lemma SubmitExtends(s: State, q: Query, w: WriteResult)
    requires IdsOk(s)
    ensures Extends(s, Submitted(s, q, w))
  {
    assert s.nextId !in s.table.answered;
  }

  lemma RelaunchExtends(s: State, launched: bool, writes: seq<WriteResult>)
    requires IdsOk(s) && Enabled(s, Relaunch(launched, writes))
    ensures Extends(s, Next(s, Relaunch(launched, writes)))
  {
    hide IdsOk, SubmittedAll;
    RelaunchIds(s);
    if launched {
      SubmitAllEffect(
        s.(backoff := Min(s.backoff * 2, RESTART_BACKOFF_MAX), phase := Serving, status := Starting, backlog := []),
        s.backlog, writes);
    }
  }

  lemma TakeExtends(s: State, w: WriteResult)
    requires IdsOk(s) && Enabled(s, Take(w))
    ensures Extends(s, Next(s, Take(w)))
  {
    var rest := s.(channel := s.channel[1..]);
    assert IdsOk(rest);
    AnswerAllExtends(s.table, SHUT_DOWN);
    hide IdsOk, AllAnswered, Refusals, QueriesOf;
    if s.channel[0].Analyze? {
      SubmitExtends(rest, s.channel[0].query, w);
    }
  }

  lemma StepExtends(s: State, e: Event)
    requires Inv(s) && Enabled(s, e)
    ensures Extends(s, Next(s, e))
  {
    assert s.table.pending.Keys !! s.table.answered.Keys;
    hide Conserved, IdsOk, PhaseOk, AllAnswered, Handled, Submitted, SubmittedAll, Refusals, QueriesOf;
    match e
    case Take(w) => TakeExtends(s, w);
    case HandlesGone => AnswerAllExtends(s.table, Dropped);
    case Stdout(line) => LineExtends(s.table, line);
    case ProcessExit(status) => AnswerAllExtends(s.table, Failed("katago process exited (" + status + ")"));
    case Relaunch(launched, writes) => RelaunchExtends(s, launched, writes);
    case _ =>
  }

  // ----- whole lives of the owner

  lemma {:induction false} RunKeepsInv(s: State, events: seq<Event>)
    requires Inv(s) && Run(s, events)
    ensures Inv(After(s, events)) && Extends(s, After(s, events))
    decreases |events|
  {
    if events != [] {
      StepKeepsInv(s, events[0]);
      StepExtends(s, events[0]);
      RunKeepsInv(Next(s, events[0]), events[1..]);
    }
  }

  /** Conservation, over any life with crashes and relaunches: what arrived is, in order, what was
      sent to KataGo, refused, kept in the backlog, or still in the channel; each query sent has its
      own id and is either in flight or answered, with exactly as many turns as it asked for; nothing
      is in flight once `serve` has ended, and the restart delay stays within its bounds. */
  lemma EveryQueryInOnePlace(supervised: bool, events: seq<Event>)
    requires Run(Initial(supervised), events)
    ensures var s := After(Initial(supervised), events);
      && s.arrivals == s.sent + RefusedQueries(s.refused) + s.backlog + QueriesOf(s.channel)
      && (forall n :: 0 <= n < |s.sent| <==> n in s.table.pending || n in s.table.answered)
      && s.table.pending.Keys !! s.table.answered.Keys
      && (forall n :: n in s.table.answered && s.table.answered[n].Turns? ==>
            |s.table.answered[n].turns| == s.sent[n].expected)
      && (!s.phase.Serving? ==> s.table.pending == map[])
      && RESTART_BACKOFF_MIN <= s.backoff <= RESTART_BACKOFF_MAX
  {
    RunKeepsInv(Initial(supervised), events);
  }

  /** Once the owner has stopped, every query that ever arrived has exactly one reply: those sent have
      theirs by id, the others were refused. */
  lemma StoppedMeansAnswered(supervised: bool, events: seq<Event>)
    requires Run(Initial(supervised), events) && After(Initial(supervised), events).phase.Stopped?
    ensures var s := After(Initial(supervised), events);
      && s.arrivals == s.sent + RefusedQueries(s.refused)
      && (forall n :: 0 <= n < |s.sent| <==> n in s.table.answered)
      && s.table.pending == map[]
  {
    RunKeepsInv(Initial(supervised), events);
    var s := After(Initial(supervised), events);
    assert s.sent + RefusedQueries(s.refused) + [] + [] == s.sent + RefusedQueries(s.refused);
  }

  /** Later events never change a reply nor give an id to another query. */
  lemma RepliesAreFinal(supervised: bool, events: seq<Event>, more: seq<Event>)
    requires Run(Initial(supervised), events) && Run(After(Initial(supervised), events), more)
    ensures Extends(After(Initial(supervised), events), After(After(Initial(supervised), events), more))
  {
    RunKeepsInv(Initial(supervised), events);
    RunKeepsInv(After(Initial(supervised), events), more);
  }

  /** The delay before the next relaunch after `k` failed ones. */
  function Doubled(backoff: int, k: nat): int {
    if k == 0 then backoff else Min(Doubled(backoff, k - 1) * 2, RESTART_BACKOFF_MAX)
  }

  function Failures(k: nat): seq<Event> {
    seq(k, i => Relaunch(false, []))
  }

  /** Each failed relaunch doubles the delay, up to the maximum, and loses nothing from the backlog. */
  lemma {:induction false} FailedRelaunchesBackOff(s: State, k: nat)
    requires Inv(s) && s.phase.Down?
    ensures Run(s, Failures(k)) && After(s, Failures(k)) == s.(backoff := Doubled(s.backoff, k))
    decreases k
  {
    if k > 0 {
      var s1 := Next(s, Relaunch(false, []));
      StepKeepsInv(s, Relaunch(false, []));
      assert Failures(k)[1..] == Failures(k - 1);
      FailedRelaunchesBackOff(s1, k - 1);
      DoubledShift(s.backoff, k - 1);
    }
  }

  lemma {:induction false} DoubledShift(backoff: int, k: nat)
    ensures Doubled(Min(backoff * 2, RESTART_BACKOFF_MAX), k) == Doubled(backoff, k + 1)
  {
    if k > 0 {
      DoubledShift(backoff, k - 1);
    }
  }

  // ----- when it stops, when it relaunches, and with what delay

  /** The engine's life as its own events tell it: whether a process is up, whether it has become ready,
      whether any ever has, and how many relaunches were tried since the last crash of a ready one. */
  datatype Life = Life(up: bool, ready: bool, started: bool, tries: nat)

  const LAUNCHED := Life(true, false, false, 0)

  function Lived(l: Life, e: Event): Life {
    match e
    case KataGoReady => l.(ready := true, started := true)
    case ProcessExit(_) => Life(false, false, l.started, if l.ready then 0 else l.tries)
    case Relaunch(launched, _) => Life(launched, false, l.started, l.tries + 1)
    case _ => l
  }

  function LifeAfter(l: Life, events: seq<Event>): Life
    decreases |events|
  {
    if events == [] then l else LifeAfter(Lived(l, events[0]), events[1..])
  }

  /** The owner's fields say what the events said. */
  predicate Follows(s: State, l: Life) {
    && (s.phase.Serving? <==> l.up) && (s.phase.Down? <==> !l.up)
    && s.started == l.started
    && s.status == (if !l.up then Exited else if l.ready then Ready else Starting)
    && s.backoff == Doubled(RESTART_BACKOFF_MIN, l.tries)
  }

  lemma {:induction false} SubmitAllFrame(s: State, queries: seq<Query>, writes: seq<WriteResult>)
    ensures var s' := SubmittedAll(s, queries, writes);
      s' == s.(table := s'.table, sent := s.sent + queries, nextId := s.nextId + |queries|)
    decreases |queries|
  {
    if queries != [] {
      SubmitAllFrame(Submitted(s, queries[0], FirstWrite(writes)), queries[1..], RestWrites(writes));
      assert (s.sent + [queries[0]]) + queries[1..] == s.sent + queries;
    } else {
      assert s.sent + [] == s.sent;
    }
  }

  lemma StepFollows(s: State, l: Life, e: Event)
    requires Follows(s, l) && Enabled(s, e) && !Next(s, e).phase.Stopped?
    ensures Follows(Next(s, e), Lived(l, e))
  {
    hide Refusals, QueriesOf, Handled, AllAnswered, SubmittedAll;
    if e.Relaunch? && e.launched {
      SubmitAllFrame(
        s.(backoff := Min(s.backoff * 2, RESTART_BACKOFF_MAX), phase := Serving, status := Starting, backlog := []),
        s.backlog, e.writes);
    }
  }

  lemma StoppedIsOver(s: State, events: seq<Event>)
    requires s.phase.Stopped? && Run(s, events)
    ensures events == []
  {
  }

  lemma {:induction false} RunFollows(s: State, l: Life, events: seq<Event>)
    requires Follows(s, l) && Run(s, events) && !After(s, events).phase.Stopped?
    ensures Follows(After(s, events), LifeAfter(l, events))
    decreases |events|
  {
    hide Follows, Lived, Next, Enabled;
    if events != [] {
      if Next(s, events[0]).phase.Stopped? {
        StoppedIsOver(Next(s, events[0]), events[1..]);
      } else {
        StepFollows(s, l, events[0]);
        RunFollows(Next(s, events[0]), Lived(l, events[0]), events[1..]);
      }
    }
  }

  /** As long as the owner lives: it serves exactly while a process is up, waits exactly while none is,
      and the restart delay is the minimum, doubled once for every relaunch tried since a process that
      had become ready last crashed, up to the maximum. */
  lemma EngineLife(supervised: bool, events: seq<Event>)
    requires Run(Initial(supervised), events) && !After(Initial(supervised), events).phase.Stopped?
    ensures var s, l := After(Initial(supervised), events), LifeAfter(LAUNCHED, events);
      && (s.phase.Serving? <==> l.up)
      && (s.phase.Down? <==> !l.up)
      && (s.started <==> KataGoReady in events)
      && s.status == (if !l.up then Exited else if l.ready then Ready else Starting)
      && s.backoff == (if l.tries < 6 then PowerOfTwo(l.tries) else RESTART_BACKOFF_MAX)
  {
    RunFollows(Initial(supervised), LAUNCHED, events);
    StartedIsReady(LAUNCHED, events);
    DoubledIs(LifeAfter(LAUNCHED, events).tries);
  }

  function PowerOfTwo(k: nat): nat {
    if k == 0 then 1 else 2 * PowerOfTwo(k - 1)
  }

  lemma {:induction false} DoubledIs(k: nat)
    ensures Doubled(RESTART_BACKOFF_MIN, k) == if k < 6 then PowerOfTwo(k) else RESTART_BACKOFF_MAX
    ensures k == 5 ==> PowerOfTwo(k) == 32
  {
    if k > 0 {
      DoubledIs(k - 1);
      if k < 6 {
        PowersGrow(k, 5);
        assert PowerOfTwo(5) == 2 * (2 * (2 * (2 * (2 * PowerOfTwo(0)))));
      }
    }
  }

  lemma {:induction false} PowersGrow(a: nat, b: nat)
    requires a <= b
    ensures PowerOfTwo(a) <= PowerOfTwo(b)
  {
    if a < b {
      PowersGrow(a, b - 1);
    }
  }

  lemma {:induction false} StartedIsReady(l: Life, events: seq<Event>)
    ensures LifeAfter(l, events).started <==> l.started || KataGoReady in events
    decreases |events|
  {
    if events != [] {
      StartedIsReady(Lived(l, events[0]), events[1..]);
      assert events == [events[0]] + events[1..];
    }
  }

  /** In this run the owner takes a shutdown, or finds every handle gone. */
  predicate Asked(s: State, events: seq<Event>)
    requires Run(s, events)
    decreases |events|
  {
    events != [] && (
      || events[0].HandlesGone?
      || (events[0].Take? && s.channel[0].Shutdown?)
      || Asked(Next(s, events[0]), events[1..]))
  }

  /** A process exits that is not supervised, or before any process became ready. */
  predicate Dies(supervised: bool, started: bool, events: seq<Event>)
    decreases |events|
  {
    events != [] && (
      || (events[0].ProcessExit? && !(supervised && started))
      || Dies(supervised, started || events[0].KataGoReady?, events[1..]))
  }

  lemma StepStops(s: State, e: Event)
    requires Enabled(s, e)
    ensures var s' := Next(s, e);
      && s'.supervised == s.supervised
      && (s'.started <==> s.started || e.KataGoReady?)
      && (s'.phase.Stopped? <==>
            e.HandlesGone? || (e.Take? && s.channel[0].Shutdown?) || (e.ProcessExit? && !(s.supervised && s.started)))
  {
    hide Refusals, QueriesOf, Handled, AllAnswered, SubmittedAll;
    if e.Relaunch? && e.launched {
      SubmitAllFrame(
        s.(backoff := Min(s.backoff * 2, RESTART_BACKOFF_MAX), phase := Serving, status := Starting, backlog := []),
        s.backlog, e.writes);
    }
  }

  /** An owner stops exactly when it is asked to, when its unsupervised process exits, or when a process
      exits before any was ready; a supervised owner that has been ready stops only when asked. */
  lemma {:induction false} StopsExactly(s: State, events: seq<Event>)
    requires !s.phase.Stopped? && Run(s, events)
    ensures After(s, events).phase.Stopped? <==> Asked(s, events) || Dies(s.supervised, s.started, events)
    ensures s.supervised && s.started ==> (After(s, events).phase.Stopped? <==> Asked(s, events))
    decreases |events|
  {
    hide Next, Enabled;
    NeverDies(events);
    if events != [] {
      var s' := Next(s, events[0]);
      StepStops(s, events[0]);
      if s'.phase.Stopped? {
        StoppedIsOver(s', events[1..]);
      } else {
        StopsExactly(s', events[1..]);
      }
    }
  }

  lemma {:induction false} NeverDies(events: seq<Event>)
    ensures !Dies(true, true, events)
    decreases |events|
  {
    if events != [] {
      NeverDies(events[1..]);
    }
  }

  /** What an exit of the process does: everything in flight fails with its report. The owner stops
      exactly if it is unsupervised or was never ready, dropping the channel; otherwise it keeps every
      query and waits, from the shortest delay if the process was ready. */
  lemma ExitOutcome(s: State, report: string)
    requires Inv(s) && Enabled(s, ProcessExit(report))
    ensures var s' := Next(s, ProcessExit(report));
      && (forall n :: n in s.table.pending ==>
            n in s'.table.answered && s'.table.answered[n] == Failed("katago process exited (" + report + ")"))
      && s'.table.pending == map[] && s'.sent == s.sent && s'.status.Exited?
      && (s'.phase.Stopped? <==> !s.supervised || !s.started)
      && (s'.phase.Stopped? ==> s'.refused == AllWith(QueriesOf(s.channel), Dropped) && s'.channel == [])
      && (!s'.phase.Stopped? ==>
            && s'.phase.Down?
            && s'.backlog == s.backlog && s'.channel == s.channel && s'.refused == s.refused
            && s'.backoff == (if s.status.Ready? then RESTART_BACKOFF_MIN else s.backoff))
  {
    RefusalsAre(s.backlog, Dropped);
    RefusalsAre(QueriesOf(s.channel), Dropped);
    assert s.refused + AllWith([], Dropped) + AllWith(QueriesOf(s.channel), Dropped)
        == AllWith(QueriesOf(s.channel), Dropped);
  }

  /** Every one of these queries with this reply. */
  function AllWith(queries: seq<Query>, r: Reply): seq<(Query, Reply)> {
    seq(|queries|, i requires 0 <= i < |queries| => (queries[i], r))
  }

  lemma {:induction false} RefusalsAre(queries: seq<Query>, r: Reply)
    ensures Refusals(queries, r) == AllWith(queries, r)
  {
    if queries != [] {
      RefusalsAre(queries[1..], r);
      assert AllWith(queries, r) == [(queries[0], r)] + AllWith(queries[1..], r);
    }
  }

  /** What a shutdown does, serving or waiting: everything in flight and in the backlog is told so, and
      what was queued behind it is dropped. */
  lemma ShutdownOutcome(s: State, w: WriteResult)
    requires Inv(s) && Enabled(s, Take(w)) && s.channel[0].Shutdown?
    ensures var s' := Next(s, Take(w));
      && s'.phase.Stopped? && s'.status.Exited? && s'.table.pending == map[] && s'.sent == s.sent
      && (forall n :: n in s.table.pending ==>
            n in s'.table.answered && s'.table.answered[n] == Failed("katago engine shut down"))
      && s'.refused == AllWith(s.backlog, Failed("katago engine shut down")) +
                       AllWith(QueriesOf(s.channel), Dropped)
  {
    assert QueriesOf(s.channel) == [] + QueriesOf(s.channel[1..]) == QueriesOf(s.channel[1..]);
    RefusalsAre(s.backlog, SHUT_DOWN);
    RefusalsAre(QueriesOf(s.channel), Dropped);
    assert s.refused == [];
    assert s.refused + AllWith(s.backlog, SHUT_DOWN) + AllWith(QueriesOf(s.channel), Dropped)
        == AllWith(s.backlog, SHUT_DOWN) + AllWith(QueriesOf(s.channel), Dropped);
  }

  /** With every handle gone nobody listens any more: everything outstanding is dropped. */
  lemma GoneOutcome(s: State)
    requires Inv(s) && Enabled(s, HandlesGone)
    ensures var s' := Next(s, HandlesGone);
      && s'.phase.Stopped? && s'.table.pending == map[] && s'.sent == s.sent
      && (forall n :: n in s.table.pending ==> n in s'.table.answered && s'.table.answered[n] == Dropped)
      && s'.refused == AllWith(s.backlog, Dropped)
  {
    RefusalsAre(s.backlog, Dropped);
    RefusalsAre([], Dropped);
    assert s.refused + AllWith(s.backlog, Dropped) + AllWith([], Dropped) == AllWith(s.backlog, Dropped);
  }

  /** A query taken while serving gets the next id, and its reply starts empty; one whose write fails is
      answered with the write's error. One taken while no process runs waits at the end of the backlog. */
  lemma TakeOutcome(s: State, w: WriteResult, q: Query)
    requires Inv(s) && Enabled(s, Take(w)) && s.channel[0] == Analyze(q)
    ensures var s', n := Next(s, Take(w)), s.nextId;
      && s'.channel == s.channel[1..] && s'.phase == s.phase && s'.status == s.status && s'.refused == s.refused
      && (forall k: nat :: k < n ==> AgreeOn(s.table, s'.table, k))
      && (s.phase.Serving? ==>
            && s'.nextId == n + 1 && s'.sent == s.sent + [q] && s'.backlog == s.backlog
            && (w.Written? ==> n in s'.table.pending && s'.table.pending[n] == Entry(q.expected, []))
            && (w.Unwritten? ==> n in s'.table.answered && s'.table.answered[n] == Failed(w.error)))
      && (s.phase.Down? ==> s'.backlog == s.backlog + [q] && s'.sent == s.sent && s'.table == s.table)
  {
  }

  /** Whatever answers a query: its own last turn or error line, its failed write, the exit of the
      process, a shutdown, or the loss of every handle; and each with its own words. */
  lemma AnswerHasACause(s: State, e: Event, n: nat)
    requires Inv(s) && Enabled(s, e)
    requires n !in s.table.answered && n in Next(s, e).table.answered
    ensures var r := Next(s, e).table.answered[n];
      match e
      case Stdout(Failure(id, message)) => id == Some(Q(n)) && n in s.table.pending && r == Failed(message)
      case Stdout(Turn(id, turn)) =>
        id == Some(Q(n)) && n in s.table.pending && r == Turns(s.table.pending[n].got + [turn])
      case Take(w) =>
        if s.channel[0].Shutdown? then n in s.table.pending && r == Failed("katago engine shut down")
        else n == s.nextId && w.Unwritten? && r == Failed(w.error)
      case ProcessExit(report) => n in s.table.pending && r == Failed("katago process exited (" + report + ")")
      case HandlesGone => n in s.table.pending && r == Dropped
      case Relaunch(launched, writes) =>
        && launched && s.nextId <= n < s.nextId + |s.backlog|
        && n - s.nextId < |writes| && writes[n - s.nextId].Unwritten? && r == Failed(writes[n - s.nextId].error)
      case _ => false
  {
    hide Refusals, QueriesOf, Conserved, SubmittedAll;
    if e.Relaunch? && e.launched {
      var waited := s.(backoff := Min(s.backoff * 2, RESTART_BACKOFF_MAX), phase := Serving, status := Starting,
                       backlog := []);
      BacklogAnswers(waited, s.backlog, e.writes, n);
    }
  }

  lemma {:induction false} BacklogAnswers(s: State, queries: seq<Query>, writes: seq<WriteResult>, n: nat)
    requires n !in s.table.answered && n in SubmittedAll(s, queries, writes).table.answered
    ensures s.nextId <= n < s.nextId + |queries| && n - s.nextId < |writes| && writes[n - s.nextId].Unwritten?
    ensures SubmittedAll(s, queries, writes).table.answered[n] == Failed(writes[n - s.nextId].error)
    decreases |queries|
  {
    var s1 := Submitted(s, queries[0], FirstWrite(writes));
    if n in s1.table.answered {
      SubmittedLater(s1, queries[1..], RestWrites(writes), n);
    } else {
      BacklogAnswers(s1, queries[1..], RestWrites(writes), n);
    }
  }

  lemma {:induction false} SubmittedLater(s: State, queries: seq<Query>, writes: seq<WriteResult>, n: nat)
    requires n < s.nextId
    ensures AgreeOn(s.table, SubmittedAll(s, queries, writes).table, n)
    decreases |queries|
  {
    if queries != [] {
      SubmittedLater(Submitted(s, queries[0], FirstWrite(writes)), queries[1..], RestWrites(writes), n);
    }
  }

  /** A relaunch that succeeds serves again: the whole backlog is sent, in order, before anything else. */
  lemma RelaunchOutcome(s: State, launched: bool, writes: seq<WriteResult>)
    requires Inv(s) && Enabled(s, Relaunch(launched, writes))
    ensures var s' := Next(s, Relaunch(launched, writes));
      && s'.channel == s.channel && s'.refused == s.refused && s'.arrivals == s.arrivals
      && (launched ==> s'.phase.Serving? && s'.backlog == [] && s'.sent == s.sent + s.backlog)
      && (!launched ==> s'.phase.Down? && s'.backlog == s.backlog && s'.sent == s.sent && s'.table == s.table)
  {
    hide SubmittedAll;
    if launched {
      SubmitAllFrame(
        s.(backoff := Min(s.backoff * 2, RESTART_BACKOFF_MAX), phase := Serving, status := Starting, backlog := []),
        s.backlog, writes);
    }
  }

  // ----- one query among the others

  /** The two tables say the same about query `n`. */
  ghost predicate AgreeOn(t: Table, u: Table, n: int) {
    && (n in t.pending <==> n in u.pending)
    && (n in t.pending ==> t.pending[n] == u.pending[n])
    && (n in t.answered <==> n in u.answered)
    && (n in t.answered ==> t.answered[n] == u.answered[n])
  }

  lemma LineAgrees(t: Table, u: Table, line: Line, n: nat)
    requires AgreeOn(t, u, n)
    ensures AgreeOn(Handled(t, line), Handled(u, line), n)
  {
  }

  function Lines(events: seq<Event>): seq<Line> {
    if events == [] then []
    else if events[0].Stdout? then [events[0].line] + Lines(events[1..])
    else Lines(events[1..])
  }

  /** The process neither exits nor is stopped. */
  predicate KeepsServing(s: State, events: seq<Event>)
    requires Run(s, events)
    decreases |events|
  {
    s.phase.Serving? && (events == [] || KeepsServing(Next(s, events[0]), events[1..]))
  }

  /** While serving, anything but a response line leaves the entries of queries already sent alone. */
  lemma OtherEventsAgree(s: State, e: Event, n: nat)
    requires IdsOk(s) && s.phase.Serving? && Enabled(s, e) && Next(s, e).phase.Serving? && !e.Stdout? && n < s.nextId
    ensures AgreeOn(s.table, Next(s, e).table, n)
  {
  }

  lemma {:induction false} LinesDecide(s: State, t: Table, events: seq<Event>, n: nat)
    requires Inv(s) && Run(s, events) && KeepsServing(s, events) && n < s.nextId && AgreeOn(t, s.table, n)
    ensures AgreeOn(HandledAll(t, Lines(events)), After(s, events).table, n)
    decreases |events|
  {
    hide Conserved, PhaseOk, IdsOk, Handled;
    if events != [] {
      var e := events[0];
      StepKeepsInv(s, e);
      StepExtends(s, e);
      if e.Stdout? {
        LineAgrees(t, s.table, e.line, n);
        LinesDecide(Next(s, e), Handled(t, e.line), events[1..], n);
        assert ([e.line] + Lines(events[1..]))[1..] == Lines(events[1..]);
      } else {
        assert KeepsServing(Next(s, e), events[1..]);
        OtherEventsAgree(s, e, n);
        LinesDecide(Next(s, e), t, events[1..], n);
      }
    }
  }

  /** In the owner's own life: whatever else is submitted, taken or printed in between, a query just
      sent is answered with the first turns carrying its id, in order, as many as it asked for, unless
      an error with its id comes first; until then it is in flight. */
  lemma QueryGetsItsTurns(s: State, events: seq<Event>, n: nat)
    requires Inv(s) && Run(s, events) && KeepsServing(s, events)
    requires n in s.table.pending && s.table.pending[n].got == []
    ensures n < |s.sent|
    ensures var t, want := After(s, events).table, Expected(s.sent[n].expected, Own(Lines(events), n));
      && (want.Some? ==> n in t.answered && t.answered[n] == want.value && n !in t.pending)
      && (want.None? ==> n in t.pending && n !in t.answered &&
                         t.pending[n].got == TurnsBeforeError(Own(Lines(events), n)))
  {
    assert n < s.nextId && n !in s.table.answered;
    LinesDecide(s, s.table, events, n);
    DemuxIsFiltering(s.table, Lines(events), n);
  }

  // ----- the task itself

  class Owner {
    const supervised: bool
    var started: bool
    var status: Status
    var phase: Phase
    var backoff: int
    var nextId: nat
    var pending: map<nat, Entry>
    var answered: map<nat, Reply>
    var backlog: seq<Query>
    var channel: seq<Command>
    var arrivals: seq<Query>
    var sent: seq<Query>
    var refused: seq<(Query, Reply)>

    ghost function Now(): State
      reads this
    {
      State(supervised, started, status, phase, backoff, nextId, Table(pending, answered), backlog, channel,
            arrivals, sent, refused)
    }

    constructor (supervised: bool)
      ensures Now() == Initial(supervised)
    {
      this.supervised := supervised;
      started, status, phase, backoff, nextId := false, Starting, Serving, RESTART_BACKOFF_MIN, 0;
      pending, answered, backlog, channel, arrivals, sent, refused := map[], map[], [], [], [], [], [];
    }

    /** Whether the line was an analyzed turn. */
    method HandleLine(line: Line) returns (analyzed: bool)
      modifies this`pending, this`answered
      ensures Table(pending, answered) == Handled(old(Table(pending, answered)), line)
      ensures analyzed <==> line.Turn? && line.id.Some?
    {
      match line {
        case Failure(Some(Q(n)), message) =>
          if n in pending {
            answered := answered[n := Failed(message)];
            pending := pending - {n};
          }
          return false;
        case Turn(Some(Q(n)), turn) =>
          if n in pending {
            pending := pending[n := pending[n].(got := pending[n].got + [turn])];
            if |pending[n].got| >= pending[n].expected {
              answered := answered[n := Turns(pending[n].got)];
              pending := pending - {n};
            }
          }
          return true;
        case Turn(Some(Foreign(_)), _) =>
          return true;
        case _ =>
          return false;
      }
    }

    method Submit(q: Query, w: WriteResult)
      modifies this`nextId, this`sent, this`pending, this`answered
      ensures Now() == Submitted(old(Now()), q, w)
    {
      var id := nextId;
      nextId := nextId + 1;
      sent := sent + [q];
      match w {
        case Unwritten(err) => answered := answered[id := Failed(err)];
        case Written => pending := pending[id := Entry(q.expected, [])];
      }
    }

    /** Drains the pending table, in whatever order it iterates. */
    method AnswerAll(r: Reply)
      requires pending.Keys !! answered.Keys
      modifies this`pending, this`answered
      ensures Table(pending, answered) == AllAnswered(old(Table(pending, answered)), r)
    {
      ghost var before, replied := pending, answered;
      while pending != map[]
        invariant pending.Keys <= before.Keys
        invariant answered.Keys == replied.Keys + (before.Keys - pending.Keys)
        invariant forall n :: n in replied ==> answered[n] == replied[n]
        invariant forall n :: n in before && n !in pending ==> answered[n] == r
        decreases pending.Keys
      {
        var n :| n in pending;
        answered := answered[n := r];
        pending := pending - {n};
      }
      assert answered == replied + (map n | n in before :: r);
    }

    /** Submits the backlog to a freshly launched process, oldest first. */
    method SubmitBacklog(writes: seq<WriteResult>)
      modifies this`nextId, this`sent, this`pending, this`answered, this`backlog
      ensures Now() == SubmittedAll(old(Now()).(backlog := []), old(backlog), writes)
    {
      var left := writes;
      ghost var before := Now();
      while backlog != []
        invariant SubmittedAll(before.(backlog := []), before.backlog, writes) ==
                  SubmittedAll(Now().(backlog := []), backlog, left)
        decreases |backlog|
      {
        var q := backlog[0];
        backlog := backlog[1..];
        Submit(q, FirstWrite(left));
        left := RestWrites(left);
      }
    }

    method Stop(r: Reply)
      modifies this`phase, this`backlog, this`channel, this`refused
      ensures Now() == StopWith(old(Now()), r)
    {
      phase := Stopped;
      refused := refused + Refusals(backlog, r) + Refusals(QueriesOf(channel), Dropped);
      backlog, channel := [], [];
    }

    /** The next command, while a process is running (`serve`) or between two (`wait_out`). */
    method TakeCommand(w: WriteResult)
      requires Enabled(Now(), Take(w)) && pending.Keys !! answered.Keys
      modifies this
      ensures Now() == Next(old(Now()), Take(w))
    {
      var c := channel[0];
      channel := channel[1..];
      match c {
        case Analyze(q) =>
          if phase.Serving? {
            Submit(q, w);
          } else {
            backlog := backlog + [q];
          }
        case Shutdown =>
          status := Exited;
          AnswerAll(SHUT_DOWN);
          Stop(SHUT_DOWN);
      }
    }

    /** stdout closed: everything in flight fails, and the task either ends or waits to relaunch. */
    method OnExit(report: string)
      requires phase.Serving? && pending.Keys !! answered.Keys
      modifies this
      ensures Now() == Next(old(Now()), ProcessExit(report))
    {
      AnswerAll(Failed("katago process exited (" + report + ")"));
      if !supervised || !started {
        status := Exited;
        Stop(Dropped);
        return;
      }
      if status.Ready? {
        backoff := RESTART_BACKOFF_MIN;
      }
      status := Exited;
      phase := Down;
    }

    /** The backoff has been waited out: try to launch, and on success submit the backlog first. */
    method TryRelaunch(launched: bool, writes: seq<WriteResult>)
      requires phase.Down?
      modifies this
      ensures Now() == Next(old(Now()), Relaunch(launched, writes))
    {
      backoff := Min(backoff * 2, RESTART_BACKOFF_MAX);
      if launched {
        phase, status := Serving, Starting;
        SubmitBacklog(writes);
      }
    }
  }
}
