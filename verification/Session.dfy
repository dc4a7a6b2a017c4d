/** One connection between the orchestrator and a worker, as one joint transition system: `slots`
    lease loops, the waiter map and the bounded outbound channel on one side; the permits, the
    running analyses and the bounded result channel on the other; the socket's two directions
    between them. Every step is one atomic action of one of the tasks involved. */
module Session {
  import opened Common

  const MAX_SLOTS := 64

  /** The slots the orchestrator grants a worker that announces `width`. */
  function Granted(width: nat): nat {
    Max(1, Min(width, MAX_SLOTS))
  }

  /** At least one slot, never more than 64, and otherwise as many as announced. */
  lemma GrantedIs(width: nat)
    ensures 1 <= Granted(width) <= 64 && Granted(width) <= Max(1, width)
    ensures 1 <= width <= 64 ==> Granted(width) == width
  {
  }

  /** Where a lease loop is with the job it holds. */
  datatype Loop =
    | Idle
    | Leased(job: nat)      // leased, waiter not registered yet
    | Registered(job: nat)  // waiter registered, request not sent yet
    | Waiting(job: nat)     // request sent, awaiting the outcome

  /** `outbound`, `down`, `parked`, `running`, `results` and `up` are where a job's request or reply
      can be, in the order it passes through them. `lingering` counts tasks that have posted their
      reply but not yet given back their permit; `stale` counts permits still held by analyses of
      earlier sessions. Teardown is two steps: the waiter map is `cleared`, the channel's receiver is
      dropped (`closed`). The code clears first; `closeFirst` is the other order. */
  datatype State = State(
    closeFirst: bool,
    slots: nat,
    width: nat,
    cleared: bool,
    closed: bool,
    loops: seq<Loop>,
    pending: map<nat, nat>,
    outbound: seq<nat>,
    down: seq<nat>,
    parked: Option<nat>,
    running: seq<nat>,
    lingering: nat,
    stale: nat,
    results: seq<nat>,
    up: seq<nat>)

  /** A new session of a worker with `width` permits, `stale` of them still in use. */
  function Started(width: nat, stale: nat, closeFirst: bool): State {
    State(closeFirst, Granted(width), width, false, false, seq(Granted(width), i => Idle), map[],
          [], [], None, [], 0, stale, [], [])
  }

  /** The same, torn down in the code's order. */
  function Fresh(width: nat, stale: nat): State {
    Started(width, stale, false)
  }

  function InUse(s: State): nat {
    |s.running| + s.lingering + s.stale
  }

  /** The orchestrator's I/O loop may still be running. */
  predicate Serving(s: State) {
    !s.cleared && !s.closed
  }

  datatype Step =
    | Lease(i: nat, job: nat)
    | Register(i: nat)
    | Send(i: nat)
    | Forward                 // orchestrator: channel to socket
    | Accept                  // worker: `dispatch` takes a job off the socket
    | Unpark                  // worker: a parked `dispatch` gets its permit
    | Reply(k: nat)           // worker: a finished analysis posts its result
    | Release                 // worker: a task that has replied drops its permit
    | StaleEnds               // worker: an earlier session's analysis ends
    | Drain                   // worker: result channel to socket
    | Route                   // orchestrator: a result frame reaches its waiter
    | Clear                   // orchestrator: the socket is gone, the waiter map is cleared
    | Close                   // orchestrator: the channel's receiver is dropped

  /** When a step can be taken. A loop may lease even after the session was cancelled: a read that is
      ready can still win the select. */
  predicate Enabled(s: State, step: Step) {
    match step
    case Lease(i, job) => i < |s.loops| && s.loops[i].Idle?
    case Register(i) => i < |s.loops| && s.loops[i].Leased?
    case Send(i) => i < |s.loops| && s.loops[i].Registered? && (!s.closed ==> |s.outbound| < s.slots)
    case Forward => Serving(s) && s.outbound != []
    case Accept => s.down != [] && s.parked.None?
    case Unpark => s.parked.Some? && InUse(s) < s.width
    case Reply(k) => k < |s.running| && |s.results| < s.width + 1
    case Release => s.lingering > 0
    case StaleEnds => s.stale > 0
    case Drain => s.results != [] && s.parked.None?
    case Route => Serving(s) && s.up != []
    case Clear => !s.cleared && (s.closeFirst ==> s.closed)
    case Close => !s.closed && (!s.closeFirst ==> s.cleared)
  }

  /** Replacing or removing a key drops the sender that the loop waiting under it listened to. */
  function Dropped(loops: seq<Loop>, pending: map<nat, nat>, job: nat): seq<Loop> {
    if job in pending && pending[job] < |loops| && loops[pending[job]].Waiting?
    then loops[pending[job] := Idle] else loops
  }

  function Unwaited(loops: seq<Loop>): seq<Loop> {
    seq(|loops|, i requires 0 <= i < |loops| => if loops[i].Waiting? then Idle else loops[i])
  }

  /** What a result frame for `job` does on the orchestrator, whoever sent it. */
  function Received(s: State, job: nat): State {
    if job in s.pending then
      var i := s.pending[job];
      s.(pending := s.pending - {job},
         loops := if i < |s.loops| && s.loops[i] == Waiting(job) then s.loops[i := Idle] else s.loops)
    else s
  }

  function Next(s: State, step: Step): State
    requires Enabled(s, step)
  {
    match step
    case Lease(i, job) => s.(loops := s.loops[i := Leased(job)])
    case Register(i) =>
      var job := s.loops[i].job;
      s.(loops := Dropped(s.loops, s.pending, job)[i := Registered(job)], pending := s.pending[job := i])
    case Send(i) =>
      var job := s.loops[i].job;
      if s.closed then
        s.(loops := Dropped(s.loops, s.pending, job)[i := Idle], pending := s.pending - {job})
      else
        var listening := job in s.pending && s.pending[job] == i;
        s.(outbound := s.outbound + [job], loops := s.loops[i := if listening then Waiting(job) else Idle])
    case Forward => s.(outbound := s.outbound[1..], down := s.down + [s.outbound[0]])
    case Accept =>
      if InUse(s) < s.width then s.(down := s.down[1..], running := s.running + [s.down[0]])
      else s.(down := s.down[1..], parked := Some(s.down[0]))
    case Unpark => s.(parked := None, running := s.running + [s.parked.value])
    case Reply(k) =>
      s.(running := s.running[..k] + s.running[k + 1..], results := s.results + [s.running[k]],
         lingering := s.lingering + 1)
    case Release => s.(lingering := s.lingering - 1)
    case StaleEnds => s.(stale := s.stale - 1)
    case Drain => s.(results := s.results[1..], up := s.up + [s.results[0]])
    case Route => Received(s.(up := s.up[1..]), s.up[0])
    case Clear => s.(cleared := true, pending := map[], loops := Unwaited(s.loops))
    case Close => s.(closed := true, outbound := [])
  }

  predicate Run(s: State, steps: seq<Step>)
    decreases |steps|
  {
    steps == [] || (Enabled(s, steps[0]) && Run(Next(s, steps[0]), steps[1..]))
  }

  function After(s: State, steps: seq<Step>): State
    requires Run(s, steps)
    decreases |steps|
  {
    if steps == [] then s else After(Next(s, steps[0]), steps[1..])
  }

  predicate Holding(l: Loop, job: nat) {
    !l.Idle? && l.job == job
  }

  predicate HeldByAny(s: State, job: nat) {
    exists k :: 0 <= k < |s.loops| && Holding(s.loops[k], job)
  }

  /** Not a lease of a job that a loop of this session already holds. */
  predicate Apart(s: State, step: Step) {
    step.Lease? ==> !HeldByAny(s, step.job)
  }

  /** A run in which no job is leased while a loop of this session holds it: what a queue lease
      guarantees as long as it has not lapsed. */
  predicate RunApart(s: State, steps: seq<Step>)
    decreases |steps|
  {
    steps == [] || (Enabled(s, steps[0]) && Apart(s, steps[0]) && RunApart(Next(s, steps[0]), steps[1..]))
  }

  lemma {:induction false} ApartIsRun(s: State, steps: seq<Step>)
    requires RunApart(s, steps)
    ensures Run(s, steps)
    decreases |steps|
  {
    if steps != [] {
      ApartIsRun(Next(s, steps[0]), steps[1..]);
    }
  }

  // ----- the pipe: every request or reply that is under way

  /** What to count: one job, or (`None`) all of them. */
  type Selection = Option<nat>

  function Hit(sel: Selection, job: nat): nat {
    if sel.None? || sel.value == job then 1 else 0
  }

  function Count(q: seq<nat>, sel: Selection): nat {
    if q == [] then 0 else Hit(sel, q[0]) + Count(q[1..], sel)
  }

  /** Requests and replies that have left the orchestrator and are not back yet. */
  function Abroad(s: State, sel: Selection): nat {
    Count(s.down, sel) + (if s.parked.Some? then Hit(sel, s.parked.value) else 0) +
    Count(s.running, sel) + Count(s.results, sel) + Count(s.up, sel)
  }

  /** Requests and replies under way, anywhere between the two sides. */
  function PipeCount(s: State, sel: Selection): nat {
    Count(s.outbound, sel) + Abroad(s, sel)
  }

  function Awaited(l: Loop, sel: Selection): nat {
    if l.Waiting? then Hit(sel, l.job) else 0
  }

  /** Loops waiting for a selected job. */
  function WaitingCount(loops: seq<Loop>, sel: Selection): nat {
    if loops == [] then 0 else Awaited(loops[0], sel) + WaitingCount(loops[1..], sel)
  }

  lemma {:induction false} CountConcat(a: seq<nat>, b: seq<nat>, sel: Selection)
    ensures Count(a + b, sel) == Count(a, sel) + Count(b, sel)
  {
    if a == [] {
      assert a + b == b;
    } else {
      assert (a + b)[1..] == a[1..] + b;
      CountConcat(a[1..], b, sel);
    }
  }

  lemma CountFirst(q: seq<nat>, sel: Selection)
    requires q != []
    ensures Count(q, sel) == Hit(sel, q[0]) + Count(q[1..], sel)
  {
  }

  lemma CountAppend(q: seq<nat>, job: nat, sel: Selection)
    ensures Count(q + [job], sel) == Count(q, sel) + Hit(sel, job)
  {
    CountConcat(q, [job], sel);
  }

  lemma CountRemove(q: seq<nat>, k: nat, sel: Selection)
    requires k < |q|
    ensures Count(q, sel) == Count(q[..k] + q[k + 1..], sel) + Hit(sel, q[k])
  {
    assert q == q[..k] + q[k..];
    assert q[k..][1..] == q[k + 1..];
    CountConcat(q[..k], q[k..], sel);
    CountConcat(q[..k], q[k + 1..], sel);
  }

  lemma {:induction false} CountAll(q: seq<nat>)
    ensures Count(q, None) == |q|
  {
    if q != [] {
      CountAll(q[1..]);
    }
  }

  lemma {:induction false} WaitingUpdate(loops: seq<Loop>, i: nat, l: Loop, sel: Selection)
    requires i < |loops|
    ensures WaitingCount(loops[i := l], sel) + Awaited(loops[i], sel) == WaitingCount(loops, sel) + Awaited(l, sel)
  {
    if i == 0 {
      assert loops[0 := l][1..] == loops[1..];
    } else {
      assert loops[i := l][1..] == loops[1..][i - 1 := l];
      WaitingUpdate(loops[1..], i - 1, l, sel);
    }
  }

  lemma {:induction false} WaitingSize(loops: seq<Loop>)
    ensures WaitingCount(loops, None) <= |loops|
  {
    if loops != [] {
      WaitingSize(loops[1..]);
    }
  }

  /** A loop that is not waiting leaves room for one more. */
  lemma WaitingRoom(loops: seq<Loop>, i: nat)
    requires i < |loops| && !loops[i].Waiting?
    ensures WaitingCount(loops, None) < |loops|
  {
    WaitingUpdate(loops, i, Waiting(0), None);
    WaitingSize(loops[i := Waiting(0)]);
  }

  lemma {:induction false} WaitingMember(loops: seq<Loop>, job: nat)
    requires WaitingCount(loops, Some(job)) > 0
    ensures exists i :: 0 <= i < |loops| && loops[i] == Waiting(job)
  {
    if loops[0] != Waiting(job) {
      WaitingMember(loops[1..], job);
      var i :| 0 <= i < |loops[1..]| && loops[1..][i] == Waiting(job);
      assert loops[i + 1] == Waiting(job);
    }
  }

  lemma {:induction false} NoWaiting(loops: seq<Loop>, sel: Selection)
    requires forall i :: 0 <= i < |loops| ==> !loops[i].Waiting?
    ensures WaitingCount(loops, sel) == 0
  {
    if loops != [] {
      NoWaiting(loops[1..], sel);
    }
  }

  // ----- the waiter map, in every run

  /** The loop's waiter is in the map. */
  predicate Keyed(s: State, i: nat)
    requires i < |s.loops| && !s.loops[i].Idle?
  {
    s.loops[i].job in s.pending && s.pending[s.loops[i].job] == i
  }

  /** Each key of the waiter map belongs to a loop that registered it and has not been answered; every
      waiting loop has its key. */
  ghost predicate KeysOk(s: State) {
    && (forall job :: job in s.pending ==>
          && s.pending[job] < |s.loops|
          && (s.loops[s.pending[job]] == Registered(job) || s.loops[s.pending[job]] == Waiting(job)))
    && (forall i: nat :: i < |s.loops| && s.loops[i].Waiting? ==> Keyed(s, i))
  }

  /** Registering a job gives its key to the loop and ends the wait of whoever waited for it before. */
  lemma RegisterReplaces(s: State, i: nat)
    requires KeysOk(s) && Enabled(s, Register(i))
    ensures var job, s' := s.loops[i].job, Next(s, Register(i));
      && |s'.loops| == |s.loops| && s'.loops[i] == Registered(job) && s'.pending == s.pending[job := i]
      && forall k: nat :: k < |s.loops| && k != i ==>
           s'.loops[k] == if s.loops[k] == Waiting(job) then Idle else s.loops[k]
  {
  }

  lemma RegisterKeepsKeys(s: State, i: nat)
    requires KeysOk(s) && Enabled(s, Register(i))
    ensures KeysOk(Next(s, Register(i)))
  {
    hide Dropped;
    RegisterReplaces(s, i);
  }

  lemma SentKeepsKeys(s: State, i: nat)
    requires KeysOk(s) && Enabled(s, Send(i)) && !s.closed
    ensures KeysOk(Next(s, Send(i)))
  {
  }

  /** A refused send takes the job's key away, whoever it belongs to. */
  lemma RefusedRemoves(s: State, i: nat)
    requires KeysOk(s) && Enabled(s, Send(i)) && s.closed
    ensures var job, s' := s.loops[i].job, Next(s, Send(i));
      && |s'.loops| == |s.loops| && s'.loops[i].Idle? && s'.pending == s.pending - {job}
      && forall k: nat :: k < |s.loops| && k != i ==>
           s'.loops[k] == if s.loops[k] == Waiting(job) then Idle else s.loops[k]
  {
  }

  lemma RefusedKeepsKeys(s: State, i: nat)
    requires KeysOk(s) && Enabled(s, Send(i)) && s.closed
    ensures KeysOk(Next(s, Send(i)))
  {
    hide Dropped;
    RefusedRemoves(s, i);
  }

  /** A result frame reaches at most one loop, the one whose wait for that very job it ends, and no other
      loop changes. Its key is consumed: nobody waits for the job any more, and the same frame again
      does nothing. */
  lemma FrameReachesItsWaiter(s: State, job: nat)
    requires KeysOk(s)
    ensures var s' := Received(s, job);
      && KeysOk(s') && s'.pending == s.pending - {job} && Received(s', job) == s' && |s'.loops| == |s.loops|
      && (forall i: nat :: i < |s.loops| ==>
            s'.loops[i] == if s.loops[i] == Waiting(job) then Idle else s.loops[i])
      && (forall i: nat :: i < |s.loops| && s.loops[i] == Waiting(job) ==> job in s.pending && s.pending[job] == i)
  {
    forall i: nat | i < |s.loops| && s.loops[i] == Waiting(job) ensures job in s.pending && s.pending[job] == i {
      assert Keyed(s, i);
    }
  }

  lemma LeaseKeepsKeys(s: State, i: nat, job: nat)
    requires KeysOk(s) && Enabled(s, Lease(i, job))
    ensures KeysOk(Next(s, Lease(i, job)))
  {
  }

  lemma ClearKeepsKeys(s: State)
    requires KeysOk(s) && Enabled(s, Clear)
    ensures KeysOk(Next(s, Clear))
  {
  }

  lemma SameKeys(s: State, s': State)
    requires KeysOk(s) && s'.loops == s.loops && s'.pending == s.pending
    ensures KeysOk(s')
  {
  }

  /** Every step of every task, whatever it leases. */
  lemma StepKeepsKeys(s: State, step: Step)
    requires KeysOk(s) && Enabled(s, step)
    ensures KeysOk(Next(s, step))
  {
    hide KeysOk, Received, Dropped;
    match step
    case Lease(i, job) => LeaseKeepsKeys(s, i, job);
    case Register(i) => RegisterKeepsKeys(s, i);
    case Send(i) =>
      if s.closed {
        RefusedKeepsKeys(s, i);
      } else {
        SentKeepsKeys(s, i);
      }
    case Route =>
      SameKeys(s, s.(up := s.up[1..]));
      FrameReachesItsWaiter(s.(up := s.up[1..]), s.up[0]);
    case Clear => ClearKeepsKeys(s);
    case _ => SameKeys(s, Next(s, step));
  }

  // ----- frames that nobody asked for

  /** A result frame changes nothing on the orchestrator exactly when nobody waits under its id. */
  lemma StrayIsHarmlessIff(s: State, job: nat)
    ensures Received(s, job) == s <==> job !in s.pending
  {
    if job in s.pending {
      assert job !in Received(s, job).pending;
    }
  }

  /** What reaches the orchestrator besides the steps of the two programs: late, repeated or invented
      result frames, with any id. */
  datatype Event = Real(step: Step) | Stray(job: nat)

  predicate Possible(s: State, event: Event) {
    match event
    case Real(step) => Enabled(s, step)
    case Stray(job) => Serving(s)
  }

  function Happened(s: State, event: Event): State
    requires Possible(s, event)
  {
    match event
    case Real(step) => Next(s, step)
    case Stray(job) => Received(s, job)
  }

  predicate NoisyRun(s: State, events: seq<Event>)
    decreases |events|
  {
    events == [] || (Possible(s, events[0]) && NoisyRun(Happened(s, events[0]), events[1..]))
  }

  function NoisyAfter(s: State, events: seq<Event>): State
    requires NoisyRun(s, events)
    decreases |events|
  {
    if events == [] then s else NoisyAfter(Happened(s, events[0]), events[1..])
  }

  lemma EventKeepsKeys(s: State, event: Event)
    requires KeysOk(s) && Possible(s, event)
    ensures KeysOk(Happened(s, event))
  {
    hide KeysOk, Received;
    match event
    case Real(step) => StepKeepsKeys(s, step);
    case Stray(job) => FrameReachesItsWaiter(s, job);
  }

  lemma {:induction false} NoiseKeepsKeys(s: State, events: seq<Event>)
    requires KeysOk(s) && NoisyRun(s, events)
    ensures KeysOk(NoisyAfter(s, events))
    decreases |events|
  {
    hide KeysOk;
    if events != [] {
      EventKeepsKeys(s, events[0]);
      NoiseKeepsKeys(Happened(s, events[0]), events[1..]);
    }
  }

  lemma {:induction false} RunKeepsKeys(s: State, steps: seq<Step>)
    requires KeysOk(s) && Run(s, steps)
    ensures KeysOk(After(s, steps))
    decreases |steps|
  {
    hide KeysOk;
    if steps != [] {
      StepKeepsKeys(s, steps[0]);
      RunKeepsKeys(Next(s, steps[0]), steps[1..]);
    }
  }

  /** In every run of a session, whatever jobs it leases however often and whatever frames come in, in
      either order of teardown: the map is sound, and a frame for a job reaches its own waiter only. */
  lemma ResultsReachTheirWaiters(width: nat, stale: nat, closeFirst: bool, events: seq<Event>, job: nat)
    requires NoisyRun(Started(width, stale, closeFirst), events)
    ensures var s := NoisyAfter(Started(width, stale, closeFirst), events);
      && KeysOk(s)
      && |Received(s, job).loops| == |s.loops|
      && (forall i: nat :: i < |s.loops| ==>
            Received(s, job).loops[i] == if s.loops[i] == Waiting(job) then Idle else s.loops[i])
      && (forall i: nat, k: nat :: i < |s.loops| && k < |s.loops| && s.loops[i] == s.loops[k] == Waiting(job) ==>
            i == k)
      && job !in Received(s, job).pending
  {
    NoiseKeepsKeys(Started(width, stale, closeFirst), events);
    FrameReachesItsWaiter(NoisyAfter(Started(width, stale, closeFirst), events), job);
  }

  /** The jobs that some loop registered and no frame has come in for since. */
  function Open(s: State, event: Event, jobs: set<nat>): set<nat>
    requires Possible(s, event)
  {
    match event
    case Stray(job) => jobs - {job}
    case Real(Route) => jobs - {s.up[0]}
    case Real(Register(i)) => jobs + {s.loops[i].job}
    case Real(_) => jobs
  }

  /** Whatever else happens, each stray frame is late, repeated or invented: a frame for its job was the
      last thing to happen to it, or no loop ever registered it. */
  predicate OnlyLate(s: State, events: seq<Event>, jobs: set<nat>)
    requires NoisyRun(s, events)
    decreases |events|
  {
    events == [] || (
      && (events[0].Stray? ==> events[0].job !in jobs)
      && OnlyLate(Happened(s, events[0]), events[1..], Open(s, events[0], jobs)))
  }

  lemma KeysAreOpen(s: State, event: Event, jobs: set<nat>)
    requires Possible(s, event) && s.pending.Keys <= jobs
    ensures Happened(s, event).pending.Keys <= Open(s, event, jobs)
  {
    hide Dropped, Unwaited;
    match event
    case Stray(job) =>
    case Real(Route) =>
    case Real(Register(i)) =>
    case Real(step) => OnlyRegisteringAddsKeys(s, step);
  }

  lemma OnlyRegisteringAddsKeys(s: State, step: Step)
    requires Enabled(s, step) && !step.Register?
    ensures Next(s, step).pending.Keys <= s.pending.Keys
  {
    hide Dropped, Unwaited;
  }

  function RealSteps(events: seq<Event>): seq<Step> {
    if events == [] then []
    else if events[0].Real? then [events[0].step] + RealSteps(events[1..])
    else RealSteps(events[1..])
  }

  /** Over runs of any length, whatever is leased: late, repeated and invented frames, however many and
      wherever, leave exactly the run without them. */
  lemma {:induction false} StrayFramesChangeNothing(s: State, events: seq<Event>, jobs: set<nat>)
    requires NoisyRun(s, events) && s.pending.Keys <= jobs && OnlyLate(s, events, jobs)
    ensures Run(s, RealSteps(events)) && NoisyAfter(s, events) == After(s, RealSteps(events))
    decreases |events|
  {
    hide Enabled, Next, Open;
    if events != [] {
      KeysAreOpen(s, events[0], jobs);
      StrayFramesChangeNothing(Happened(s, events[0]), events[1..], Open(s, events[0], jobs));
      match events[0]
      case Real(step) =>
        assert ([step] + RealSteps(events[1..]))[1..] == RealSteps(events[1..]);
      case Stray(job) =>
    }
  }

  // ----- the invariant (distinct jobs)

  /** Different loops hold different jobs. */
  ghost predicate HeldApart(s: State) {
    forall i, k :: 0 <= i < k < |s.loops| && !s.loops[i].Idle? && !s.loops[k].Idle? ==>
      s.loops[i].job != s.loops[k].job
  }

  /** With distinct jobs, every registered loop has its key too until the map is cleared. */
  ghost predicate WaitersOk(s: State) {
    KeysOk(s) && (!s.cleared ==> forall i: nat :: i < |s.loops| && s.loops[i].Registered? ==> Keyed(s, i))
  }

  /** While serving, what is under way is exactly what is waited for; what is abroad never exceeds
      the slots. */
  ghost predicate PipeOk(s: State) {
    && (Serving(s) ==> forall sel :: PipeCount(s, sel) == WaitingCount(s.loops, sel))
    && Abroad(s, None) <= s.slots
  }

  ghost predicate Sized(s: State) {
    && |s.loops| == s.slots
    && 1 <= s.slots <= s.width
    && InUse(s) <= s.width
  }

  ghost predicate Inv(s: State) {
    Sized(s) && HeldApart(s) && WaitersOk(s) && PipeOk(s)
  }

  lemma StartedInv(width: nat, stale: nat, closeFirst: bool)
    requires 1 <= width && stale <= width
    ensures Inv(Started(width, stale, closeFirst))
  {
    var s := Started(width, stale, closeFirst);
    forall sel ensures PipeCount(s, sel) == WaitingCount(s.loops, sel) {
      NoWaiting(s.loops, sel);
    }
  }

  lemma StepKeepsHeldApart(s: State, step: Step)
    requires HeldApart(s) && WaitersOk(s) && Enabled(s, step) && Apart(s, step)
    ensures HeldApart(Next(s, step))
  {
  }

  /** With distinct jobs the result at the head of the socket always finds a loop that waits for it. */
  lemma RouteFindsItsWaiter(s: State)
    requires Inv(s) && Enabled(s, Route)
    ensures var job := s.up[0];
      && job in s.pending && s.pending[job] < |s.loops| && s.loops[s.pending[job]] == Waiting(job)
      && (forall k :: 0 <= k < |s.loops| && k != s.pending[job] ==> !Holding(s.loops[k], job))
      && Next(s, Route).loops == s.loops[s.pending[job] := Idle]
  {
    assert PipeCount(s, Some(s.up[0])) > 0;
    WaitingMember(s.loops, s.up[0]);
  }

  lemma RegisterKeepsWaiters(s: State, i: nat)
    requires HeldApart(s) && WaitersOk(s) && Enabled(s, Register(i))
    ensures WaitersOk(Next(s, Register(i)))
  {
    hide Dropped;
    RegisterReplaces(s, i);
    RegisterKeepsKeys(s, i);
  }

  lemma SentKeepsWaiters(s: State, i: nat)
    requires WaitersOk(s) && Enabled(s, Send(i)) && !s.closed
    ensures WaitersOk(Next(s, Send(i)))
  {
    SentKeepsKeys(s, i);
  }

  lemma RefusedKeepsWaiters(s: State, i: nat)
    requires HeldApart(s) && WaitersOk(s) && Enabled(s, Send(i)) && s.closed
    ensures WaitersOk(Next(s, Send(i)))
  {
    hide Dropped;
    RefusedRemoves(s, i);
    RefusedKeepsKeys(s, i);
  }

  lemma RouteKeepsWaiters(s: State)
    requires Inv(s) && Enabled(s, Route)
    ensures WaitersOk(Next(s, Route))
  {
    hide PipeOk, Sized;
    RouteFindsItsWaiter(s);
    StepKeepsKeys(s, Route);
  }

  /** With distinct jobs the other half is kept too. */
  lemma StepKeepsWaiters(s: State, step: Step)
    requires Inv(s) && Enabled(s, step) && Apart(s, step)
    ensures WaitersOk(Next(s, step))
  {
    hide PipeOk, Sized, HeldApart, Apart, Received, Dropped, KeysOk;
    StepKeepsKeys(s, step);
    match step
    case Register(i) => RegisterKeepsWaiters(s, i);
    case Send(i) =>
      if s.closed {
        RefusedKeepsWaiters(s, i);
      } else {
        SentKeepsWaiters(s, i);
      }
    case Route => RouteKeepsWaiters(s);
    case _ =>
  }

  lemma StepKeepsSized(s: State, step: Step)
    requires Sized(s) && Enabled(s, step)
    ensures Sized(Next(s, step))
  {
  }

  /** Moving a job along the pipe neither adds nor removes anything. */
  lemma MovesKeepPipe(s: State, step: Step, sel: Selection)
    requires Enabled(s, step)
    requires step.Forward? || step.Accept? || step.Unpark? || step.Reply? || step.Drain?
    ensures PipeCount(Next(s, step), sel) == PipeCount(s, sel)
    ensures !step.Forward? ==> Abroad(Next(s, step), sel) == Abroad(s, sel)
  {
    hide Count, Hit;
    match step
    case Forward =>
      CountFirst(s.outbound, sel);
      CountAppend(s.down, s.outbound[0], sel);
    case Accept =>
      CountFirst(s.down, sel);
      CountAppend(s.running, s.down[0], sel);
    case Unpark => CountAppend(s.running, s.parked.value, sel);
    case Reply(k) =>
      CountRemove(s.running, k, sel);
      CountAppend(s.results, s.running[k], sel);
    case Drain =>
      CountFirst(s.results, sel);
      CountAppend(s.up, s.results[0], sel);
  }

  /** While serving, a loop about to send is still the one its job's key belongs to. */
  lemma SenderListens(s: State, i: nat)
    requires WaitersOk(s) && Serving(s) && Enabled(s, Send(i))
    ensures Next(s, Send(i)).loops == s.loops[i := Waiting(s.loops[i].job)]
  {
    assert Keyed(s, i);
  }

  lemma RegisterDropsNobody(s: State, i: nat)
    requires HeldApart(s) && WaitersOk(s) && Enabled(s, Register(i))
    ensures Dropped(s.loops, s.pending, s.loops[i].job) == s.loops
  {
  }

  lemma SendDropsNobody(s: State, i: nat)
    requires HeldApart(s) && WaitersOk(s) && Enabled(s, Send(i))
    ensures Dropped(s.loops, s.pending, s.loops[i].job) == s.loops
  {
  }

  lemma SendKeepsBalance(s: State, i: nat, sel: Selection)
    requires WaitersOk(s) && Serving(s) && Enabled(s, Send(i)) && PipeCount(s, sel) == WaitingCount(s.loops, sel)
    ensures PipeCount(Next(s, Send(i)), sel) == WaitingCount(Next(s, Send(i)).loops, sel)
  {
    hide Count, WaitersOk, WaitingCount;
    SenderListens(s, i);
    WaitingUpdate(s.loops, i, Waiting(s.loops[i].job), sel);
    CountAppend(s.outbound, s.loops[i].job, sel);
  }

  lemma RouteKeepsBalance(s: State, sel: Selection)
    requires Inv(s) && Enabled(s, Route)
    ensures PipeCount(Next(s, Route), sel) == WaitingCount(Next(s, Route).loops, sel)
  {
    hide Count, HeldApart, WaitersOk, WaitingCount, Sized;
    assert PipeCount(s, sel) == WaitingCount(s.loops, sel);
    RouteFindsItsWaiter(s);
    CountFirst(s.up, sel);
    WaitingUpdate(s.loops, s.pending[s.up[0]], Idle, sel);
  }

  /** The pipe and the waiting loops change together. */
  lemma StepKeepsBalance(s: State, step: Step, sel: Selection)
    requires Inv(s) && Serving(s) && Enabled(s, step) && !step.Clear? && !step.Close?
    ensures PipeCount(Next(s, step), sel) == WaitingCount(Next(s, step).loops, sel)
  {
    hide Count, HeldApart, WaitersOk, WaitingCount, Sized, Dropped, Received;
    assert PipeCount(s, sel) == WaitingCount(s.loops, sel);
    match step
    case Lease(i, job) => WaitingUpdate(s.loops, i, Leased(job), sel);
    case Register(i) =>
      RegisterDropsNobody(s, i);
      WaitingUpdate(s.loops, i, Registered(s.loops[i].job), sel);
    case Send(i) => SendKeepsBalance(s, i, sel);
    case Route => RouteKeepsBalance(s, sel);
    case Release =>
    case StaleEnds =>
    case _ => MovesKeepPipe(s, step, sel);
  }

  /** Once the I/O loop has ended nothing more goes abroad. */
  lemma NothingMoreAbroad(s: State, step: Step)
    requires Enabled(s, step) && !step.Forward? && !step.Route?
    ensures Abroad(Next(s, step), None) == Abroad(s, None)
  {
    if step.Accept? || step.Unpark? || step.Reply? || step.Drain? {
      MovesKeepPipe(s, step, None);
    }
  }

  lemma StepKeepsPipe(s: State, step: Step)
    requires Inv(s) && Enabled(s, step) && Apart(s, step)
    ensures PipeOk(Next(s, step))
  {
    hide HeldApart, WaitersOk, Count, WaitingCount, Apart;
    var s' := Next(s, step);
    if Serving(s) && !step.Clear? && !step.Close? {
      forall sel ensures PipeCount(s', sel) == WaitingCount(s'.loops, sel) {
        StepKeepsBalance(s, step, sel);
      }
      StepKeepsSized(s, step);
      WaitingSize(s'.loops);
    } else {
      NothingMoreAbroad(s, step);
    }
  }

  lemma StepKeepsInv(s: State, step: Step)
    requires Inv(s) && Enabled(s, step) && Apart(s, step)
    ensures Inv(Next(s, step))
  {
    StepKeepsHeldApart(s, step);
    StepKeepsWaiters(s, step);
    StepKeepsSized(s, step);
    StepKeepsPipe(s, step);
  }

  lemma {:induction false} RunKeepsInv(s: State, steps: seq<Step>)
    requires Inv(s) && RunApart(s, steps)
    ensures Run(s, steps) && Inv(After(s, steps))
    decreases |steps|
  {
    hide Inv;
    if steps != [] {
      StepKeepsInv(s, steps[0]);
      RunKeepsInv(Next(s, steps[0]), steps[1..]);
    }
  }

  // ----- what holds in every reachable state

  /** Slot safety: however the tasks interleave, jobs abroad never exceed the granted slots, nor, while
      the session serves, do all jobs under way; a loop about to send then finds room in the
      orchestrator's channel, and a finished analysis always finds room in the worker's. */
  lemma SlotSafety(width: nat, stale: nat, steps: seq<Step>)
    requires 1 <= width && stale <= width && RunApart(Fresh(width, stale), steps)
    ensures Run(Fresh(width, stale), steps)
    ensures var s := After(Fresh(width, stale), steps);
      && s.slots == Granted(width)
      && Abroad(s, None) <= s.slots <= Min(width, MAX_SLOTS)
      && InUse(s) <= width
      && (Serving(s) ==> PipeCount(s, None) <= s.slots)
      && (Serving(s) ==> forall i :: 0 <= i < |s.loops| && s.loops[i].Registered? ==> Enabled(s, Send(i)))
      && (forall k :: 0 <= k < |s.running| ==> Enabled(s, Reply(k)))
  {
    StartedInv(width, stale, false);
    RunKeepsInv(Fresh(width, stale), steps);
    var s := After(Fresh(width, stale), steps);
    SizesNeverChange(Fresh(width, stale), steps);
    if Serving(s) {
      RoomToSend(s);
      WaitingSize(s.loops);
    }
    RoomToReply(s);
  }

  lemma {:induction false} SizesNeverChange(s: State, steps: seq<Step>)
    requires Run(s, steps)
    ensures After(s, steps).slots == s.slots && After(s, steps).width == s.width
    ensures |After(s, steps).loops| == |s.loops| && After(s, steps).closeFirst == s.closeFirst
    decreases |steps|
  {
    if steps != [] {
      SizesNeverChange(Next(s, steps[0]), steps[1..]);
    }
  }

  lemma RoomToSend(s: State)
    requires Inv(s) && Serving(s)
    ensures forall i :: 0 <= i < |s.loops| && s.loops[i].Registered? ==> Enabled(s, Send(i))
  {
    forall i | 0 <= i < |s.loops| && s.loops[i].Registered? ensures |s.outbound| < s.slots {
      WaitingRoom(s.loops, i);
      CountAll(s.outbound);
      assert PipeCount(s, None) == WaitingCount(s.loops, None);
    }
  }

  lemma RoomToReply(s: State)
    requires Inv(s)
    ensures forall k :: 0 <= k < |s.running| ==> Enabled(s, Reply(k))
  {
    CountAll(s.results);
  }

  /** A job can only be made to wait for a permit by a task that has already replied, or by an
      analysis left over from an earlier session: without either, `dispatch` never parks. */
  lemma ParksOnlyBehindFinishedWork(s: State)
    requires Inv(s)
    ensures Enabled(s, Accept) && Next(s, Accept).parked.Some? ==> s.lingering + s.stale > 0
    ensures s.parked.Some? && !Enabled(s, Unpark) ==> s.lingering + s.stale > 0
  {
    CountAll(s.running);
    CountAll(s.down);
  }

  /** A parked `dispatch` blocks the worker's whole I/O loop, yet cannot deadlock it: it can go on at
      once, or some task holding a permit can give it back without waiting for anybody. */
  lemma ParkingNeverDeadlocks(s: State)
    requires Inv(s) && s.parked.Some?
    ensures Enabled(s, Unpark) || Enabled(s, Release) || Enabled(s, StaleEnds)
  {
    ParksOnlyBehindFinishedWork(s);
  }

  // ----- order

  /** What passed each end of the two channels, in order: requests put in and jobs dispatched; results
      posted and results routed. */
  datatype Log = Log(sent: seq<nat>, dispatched: seq<nat>, posted: seq<nat>, routed: seq<nat>)

  function Logged(s: State, step: Step, log: Log): Log
    requires Enabled(s, step)
  {
    match step
    case Send(i) => if s.closed then log else log.(sent := log.sent + [s.loops[i].job])
    case Accept => log.(dispatched := log.dispatched + [s.down[0]])
    case Reply(k) => log.(posted := log.posted + [s.running[k]])
    case Route => log.(routed := log.routed + [s.up[0]])
    case _ => log
  }

  function LogAfter(s: State, steps: seq<Step>, log: Log): Log
    requires Run(s, steps)
    decreases |steps|
  {
    if steps == [] then log else LogAfter(Next(s, steps[0]), steps[1..], Logged(s, steps[0], log))
  }

  /** Nothing is overtaken, lost or added between the two ends; closing the channel drops what is in it. */
  ghost predicate RequestsInLine(s: State, log: Log) {
    if s.closed then s.outbound == [] && log.dispatched + s.down <= log.sent
    else log.sent == log.dispatched + s.down + s.outbound
  }

  ghost predicate RepliesInLine(s: State, log: Log) {
    log.posted == log.routed + s.up + s.results
  }

  ghost predicate InLine(s: State, log: Log) {
    RequestsInLine(s, log) && RepliesInLine(s, log)
  }

  lemma RequestsStayInLine(s: State, step: Step, log: Log)
    requires RequestsInLine(s, log) && Enabled(s, step)
    ensures RequestsInLine(Next(s, step), Logged(s, step, log))
  {
    hide Dropped, Unwaited, Received;
    match step
    case Forward =>
      assert s.outbound == [s.outbound[0]] + s.outbound[1..];
    case Accept =>
      assert s.down == [s.down[0]] + s.down[1..];
      assert log.dispatched + s.down == (log.dispatched + [s.down[0]]) + s.down[1..];
    case Send(i) =>
      assert log.dispatched + s.down + (s.outbound + [s.loops[i].job])
          == log.dispatched + s.down + s.outbound + [s.loops[i].job];
    case Route => FramesMoveNothing(s.(up := s.up[1..]), s.up[0]);
    case _ =>
  }

  lemma FramesMoveNothing(s: State, job: nat)
    ensures Received(s, job) == s.(pending := Received(s, job).pending, loops := Received(s, job).loops)
  {
  }

  lemma RepliesStayInLine(s: State, step: Step, log: Log)
    requires RepliesInLine(s, log) && Enabled(s, step)
    ensures RepliesInLine(Next(s, step), Logged(s, step, log))
  {
    hide Dropped, Unwaited, Received;
    match step
    case Drain =>
      assert s.results == [s.results[0]] + s.results[1..];
    case Route =>
      FramesMoveNothing(s.(up := s.up[1..]), s.up[0]);
      assert s.up == [s.up[0]] + s.up[1..];
    case Reply(k) =>
      assert log.routed + s.up + (s.results + [s.running[k]]) == log.routed + s.up + s.results + [s.running[k]];
    case _ =>
  }

  lemma StepStaysInLine(s: State, step: Step, log: Log)
    requires InLine(s, log) && Enabled(s, step)
    ensures InLine(Next(s, step), Logged(s, step, log))
  {
    hide RequestsInLine, RepliesInLine, Next, Logged, Enabled;
    RequestsStayInLine(s, step, log);
    RepliesStayInLine(s, step, log);
  }

  lemma {:induction false} RunStaysInLine(s: State, steps: seq<Step>, log: Log)
    requires InLine(s, log) && Run(s, steps)
    ensures InLine(After(s, steps), LogAfter(s, steps, log))
    decreases |steps|
  {
    hide InLine, Logged, Next, Enabled;
    if steps != [] {
      StepStaysInLine(s, steps[0], log);
      RunStaysInLine(Next(s, steps[0]), steps[1..], Logged(s, steps[0], log));
    }
  }

  /** In every run the worker dispatches jobs in the order the loops sent them, and results are routed in
      the order the worker posted them: each is a prefix of what went in, and what lies between the two
      ends is the rest of it, but for what closing the channel dropped. */
  lemma ChannelsKeepOrder(width: nat, stale: nat, closeFirst: bool, steps: seq<Step>)
    requires Run(Started(width, stale, closeFirst), steps)
    ensures var s := After(Started(width, stale, closeFirst), steps);
      var log := LogAfter(Started(width, stale, closeFirst), steps, Log([], [], [], []));
      && log.dispatched <= log.sent && log.routed <= log.posted
      && (!s.closed ==> log.sent == log.dispatched + s.down + s.outbound)
      && log.posted == log.routed + s.up + s.results
  {
    hide Run, After, LogAfter;
    RunStaysInLine(Started(width, stale, closeFirst), steps, Log([], [], [], []));
  }

  // ----- teardown

  /** Clearing the map leaves no waiter of before unresolved: a waiting loop ends with an error, and a
      registered one does as soon as its send is over, whether the channel takes it or not. */
  lemma TeardownResolvesAll(s: State, i: nat)
    requires Enabled(s, Clear) && i < |s.loops|
    ensures var s' := Next(s, Clear);
      && s'.pending == map[]
      && (s.loops[i].Waiting? ==> s'.loops[i].Idle?)
      && (!s.loops[i].Waiting? ==> s'.loops[i] == s.loops[i])
      && (Enabled(s', Send(i)) ==> Next(s', Send(i)).loops[i].Idle?)
      && (Enabled(s', Close) && s'.loops[i].Registered? ==>
            Enabled(Next(s', Close), Send(i)) && Next(Next(s', Close), Send(i)).loops[i].Idle?)
  {
  }

  /** Teardown is over. */
  predicate TornDown(s: State) {
    s.cleared && s.closed
  }

  /** The step takes the job's key from whoever waits under it: a loop registers the job, or gives up on
      sending it. */
  predicate Takes(s: State, step: Step, job: nat) {
    match step
    case Register(k) => k < |s.loops| && Holding(s.loops[k], job)
    case Send(k) => s.closed && k < |s.loops| && Holding(s.loops[k], job)
    case _ => false
  }

  predicate Untaken(s: State, steps: seq<Step>, job: nat)
    requires Run(s, steps)
    decreases |steps|
  {
    steps == [] || (!Takes(s, steps[0], job) && Untaken(Next(s, steps[0]), steps[1..], job))
  }

  /** The loop, registered, sends before the channel is closed; nobody takes its key before or after. */
  predicate SendsThenWaits(s: State, steps: seq<Step>, i: nat, job: nat)
    requires Run(s, steps)
    decreases |steps|
  {
    && steps != []
    && !Takes(s, steps[0], job)
    && (if steps[0] == Send(i) then Untaken(Next(s, steps[0]), steps[1..], job)
        else SendsThenWaits(Next(s, steps[0]), steps[1..], i, job))
  }

  /** Some time after the map was cleared the loop registers, and then sends and waits. */
  predicate SlipsIn(s: State, steps: seq<Step>, i: nat)
    requires Run(s, steps)
    decreases |steps|
  {
    && steps != []
    && ((s.cleared && steps[0] == Register(i) &&
         SendsThenWaits(Next(s, steps[0]), steps[1..], i, s.loops[i].job))
        || SlipsIn(Next(s, steps[0]), steps[1..], i))
  }

  /** The loop waits, or is registered and has its key, although the map was cleared. */
  predicate LateWaiting(s: State, i: nat) {
    s.cleared && i < |s.loops| && s.loops[i].Waiting?
  }

  predicate LateRegistered(s: State, i: nat) {
    s.cleared && i < |s.loops| && s.loops[i].Registered? && Keyed(s, i)
  }

  /** Where the loop stands and what happens next decide whether it waits in the end. */
  predicate EndsWaiting(s: State, steps: seq<Step>, i: nat)
    requires Run(s, steps)
  {
    || (LateWaiting(s, i) && Untaken(s, steps, s.loops[i].job))
    || (LateRegistered(s, i) && SendsThenWaits(s, steps, i, s.loops[i].job))
    || SlipsIn(s, steps, i)
  }

  /** What a step does to a loop that is late. */
  lemma WaitingIsTaken(s: State, step: Step, i: nat)
    requires KeysOk(s) && Enabled(s, step) && LateWaiting(s, i)
    ensures var s', job := Next(s, step), s.loops[i].job;
      && s'.cleared && step != Register(i) && step != Send(i) && i < |s'.loops|
      && s'.loops[i] == if Takes(s, step, job) then Idle else Waiting(job)
  {
    assert Keyed(s, i);
  }

  lemma RegisteredIsTaken(s: State, step: Step, i: nat)
    requires KeysOk(s) && Enabled(s, step) && LateRegistered(s, i)
    ensures var s', job := Next(s, step), s.loops[i].job;
      && s'.cleared && step != Register(i) && i < |s'.loops|
      && (if Takes(s, step, job) then !LateWaiting(s', i) && !LateRegistered(s', i)
          else if step == Send(i) then s'.loops[i] == Waiting(job)
          else LateRegistered(s', i) && s'.loops[i] == Registered(job))
  {
  }

  lemma NotLateYet(s: State, step: Step, i: nat)
    requires KeysOk(s) && Enabled(s, step) && !LateWaiting(s, i) && !LateRegistered(s, i)
    ensures var s' := Next(s, step);
      if s.cleared && step == Register(i) then LateRegistered(s', i) && s'.loops[i].job == s.loops[i].job
      else !LateWaiting(s', i) && !LateRegistered(s', i)
  {
  }

  lemma StepEndsWaiting(s: State, steps: seq<Step>, i: nat)
    requires KeysOk(s) && Run(s, steps) && steps != []
    ensures EndsWaiting(s, steps, i) <==> EndsWaiting(Next(s, steps[0]), steps[1..], i)
  {
    hide KeysOk, Keyed, Takes, Next, Enabled;
    if LateWaiting(s, i) {
      WaitingIsTaken(s, steps[0], i);
    } else if LateRegistered(s, i) {
      RegisteredIsTaken(s, steps[0], i);
    } else {
      NotLateYet(s, steps[0], i);
    }
  }

  lemma {:induction false} LateDecides(s: State, steps: seq<Step>, i: nat)
    requires KeysOk(s) && Run(s, steps) && TornDown(After(s, steps)) && i < |s.loops|
    ensures i < |After(s, steps).loops| && (After(s, steps).loops[i].Waiting? <==> EndsWaiting(s, steps, i))
    decreases |steps|
  {
    hide KeysOk, EndsWaiting;
    if steps == [] {
      EndsWaitingNow(s, i);
    } else {
      StepKeepsKeys(s, steps[0]);
      StepEndsWaiting(s, steps, i);
      LateDecides(Next(s, steps[0]), steps[1..], i);
    }
  }

  lemma EndsWaitingNow(s: State, i: nat)
    requires s.cleared && i < |s.loops|
    ensures EndsWaiting(s, [], i) <==> s.loops[i].Waiting?
  {
  }

  /** In every run that has torn its session down, whatever it leased, a loop still waits exactly if it
      registered after the map was cleared, sent before the channel was closed, and no other loop took
      its key by registering or giving up on the same job. Any other loop is free, or is about to be:
      its send fails and removes the key. */
  lemma StrandedIsExact(width: nat, stale: nat, closeFirst: bool, steps: seq<Step>, i: nat)
    requires i < Granted(width) && Run(Started(width, stale, closeFirst), steps)
    requires TornDown(After(Started(width, stale, closeFirst), steps))
    ensures var s := After(Started(width, stale, closeFirst), steps);
      && i < |s.loops|
      && (s.loops[i].Waiting? <==> SlipsIn(Started(width, stale, closeFirst), steps, i))
      && (s.loops[i].Registered? ==>
            && Enabled(s, Send(i))
            && Next(s, Send(i)).loops[i].Idle? && s.loops[i].job !in Next(s, Send(i)).pending)
  {
    hide Run, After, SlipsIn;
    LateDecides(Started(width, stale, closeFirst), steps, i);
  }

  /** Once the session is torn down, a waiting loop waits on exactly until another loop takes its key. */
  lemma {:induction false} StrandedUntilTaken(s: State, steps: seq<Step>, i: nat)
    requires KeysOk(s) && TornDown(s) && Run(s, steps) && i < |s.loops| && s.loops[i].Waiting?
    ensures i < |After(s, steps).loops|
    ensures After(s, steps).loops[i].Waiting? <==> Untaken(s, steps, s.loops[i].job)
  {
    TornDownStays(s, steps);
    NoSlipAfterClose(s, steps, i);
    LateDecides(s, steps, i);
  }

  lemma {:induction false} TornDownStays(s: State, steps: seq<Step>)
    requires TornDown(s) && Run(s, steps)
    ensures TornDown(After(s, steps))
    decreases |steps|
  {
    if steps != [] {
      TornDownStays(Next(s, steps[0]), steps[1..]);
    }
  }

  /** A closed channel refuses the send, which gives the key back. */
  lemma {:induction false} NoSlipAfterClose(s: State, steps: seq<Step>, i: nat)
    requires s.closed && Run(s, steps)
    ensures !SlipsIn(s, steps, i)
    ensures i < |s.loops| && s.loops[i].Registered? ==> !SendsThenWaits(s, steps, i, s.loops[i].job)
    decreases |steps|
  {
    if steps != [] {
      NoSlipAfterClose(Next(s, steps[0]), steps[1..], i);
    }
  }

  /** With distinct jobs nobody else takes a key. */
  lemma NothingTakenApart(s: State, step: Step, i: nat)
    requires HeldApart(s) && Enabled(s, step) && i < |s.loops| && !s.loops[i].Idle?
    requires step != Register(i) && step != Send(i)
    ensures !Takes(s, step, s.loops[i].job)
  {
  }

  lemma {:induction false} ApartUntaken(s: State, steps: seq<Step>, i: nat)
    requires Inv(s) && RunApart(s, steps) && LateWaiting(s, i)
    ensures Run(s, steps) && Untaken(s, steps, s.loops[i].job)
    decreases |steps|
  {
    hide HeldApart, KeysOk, PipeOk, Takes, Sized, Next, Enabled, Keyed;
    if steps != [] {
      WaitingIsTaken(s, steps[0], i);
      NothingTakenApart(s, steps[0], i);
      StepKeepsInv(s, steps[0]);
      ApartUntaken(Next(s, steps[0]), steps[1..], i);
    }
  }

  /** The loop sends at step `k`, before the channel is closed. */
  ghost predicate SendsOpen(s: State, steps: seq<Step>, i: nat, k: nat) {
    k < |steps| && steps[k] == Send(i) && !s.closed && Close !in steps[..k]
  }

  lemma {:induction false} ApartSends(s: State, steps: seq<Step>, i: nat)
    requires Inv(s) && RunApart(s, steps) && LateRegistered(s, i)
    ensures Run(s, steps)
    ensures SendsThenWaits(s, steps, i, s.loops[i].job) <==> exists k: nat :: SendsOpen(s, steps, i, k)
    decreases |steps|
  {
    ApartIsRun(s, steps);
    if steps != [] {
      var s', rest := Next(s, steps[0]), steps[1..];
      RegisteredIsTaken(s, steps[0], i);
      StepKeepsInv(s, steps[0]);
      OnlyCloseCloses(s, steps[0]);
      hide HeldApart, KeysOk, PipeOk, Sized, Next, Enabled, Keyed;
      if steps[0] == Send(i) {
        if s.closed {
          NoSlipAfterClose(s, steps, i);
        } else {
          ApartUntaken(s', rest, i);
          assert SendsOpen(s, steps, i, 0);
        }
      } else {
        NothingTakenApart(s, steps[0], i);
        ApartSends(s', rest, i);
        ShiftedSends(s, s', steps, i);
      }
    }
  }

  lemma OnlyCloseCloses(s: State, step: Step)
    requires Enabled(s, step)
    ensures Next(s, step).closed <==> s.closed || step.Close?
    ensures Next(s, step).cleared <==> s.cleared || step.Clear?
  {
  }

  lemma InPrefix(steps: seq<Step>, k: nat, step: Step)
    requires k < |steps|
    ensures step in steps[..k + 1] <==> step == steps[0] || step in steps[1..][..k]
  {
    assert steps[..k + 1] == [steps[0]] + steps[1..][..k];
  }

  lemma ShiftedSends(s: State, s': State, steps: seq<Step>, i: nat)
    requires steps != [] && steps[0] != Send(i) && (s'.closed <==> s.closed || steps[0].Close?)
    ensures (exists k: nat :: SendsOpen(s, steps, i, k)) <==> exists k: nat :: SendsOpen(s', steps[1..], i, k)
  {
    if k: nat :| SendsOpen(s, steps, i, k) {
      InPrefix(steps, k - 1, Close);
      assert SendsOpen(s', steps[1..], i, k - 1);
    }
    if k: nat :| SendsOpen(s', steps[1..], i, k) {
      InPrefix(steps, k, Close);
      assert SendsOpen(s, steps, i, k + 1);
    }
  }

  /** The loop registers at step `r`, after the clear, and sends at step `k`, before the close. */
  ghost predicate SlipsBetween(s: State, steps: seq<Step>, i: nat, r: nat, k: nat) {
    && r < k && SendsOpen(s, steps, i, k)
    && steps[r] == Register(i) && (s.cleared || Clear in steps[..r])
  }

  lemma SlipsNow(s: State, s': State, steps: seq<Step>, i: nat)
    requires steps != [] && steps[0] == Register(i) && s.cleared && s'.closed == s.closed
    ensures (exists k: nat :: SlipsBetween(s, steps, i, 0, k)) <==> exists k: nat :: SendsOpen(s', steps[1..], i, k)
  {
    if k: nat :| SlipsBetween(s, steps, i, 0, k) {
      InPrefix(steps, k - 1, Close);
      assert SendsOpen(s', steps[1..], i, k - 1);
    }
    if k: nat :| SendsOpen(s', steps[1..], i, k) {
      InPrefix(steps, k, Close);
      assert SlipsBetween(s, steps, i, 0, k + 1);
    }
  }

  lemma SlipsLater(s: State, s': State, steps: seq<Step>, i: nat)
    requires steps != [] && (s'.closed <==> s.closed || steps[0].Close?)
    requires s'.cleared <==> s.cleared || steps[0].Clear?
    ensures (exists r: nat, k: nat :: 0 < r && SlipsBetween(s, steps, i, r, k))
       <==> exists r: nat, k: nat :: SlipsBetween(s', steps[1..], i, r, k)
  {
    if r: nat, k: nat :| 0 < r && SlipsBetween(s, steps, i, r, k) {
      InPrefix(steps, k - 1, Close);
      InPrefix(steps, r - 1, Clear);
      assert SlipsBetween(s', steps[1..], i, r - 1, k - 1);
    }
    if r: nat, k: nat :| SlipsBetween(s', steps[1..], i, r, k) {
      InPrefix(steps, k, Close);
      InPrefix(steps, r, Clear);
      assert SlipsBetween(s, steps, i, r + 1, k + 1);
    }
  }

  /** With distinct jobs the order of the loop's own two steps and the two steps of the teardown decides. */
  lemma {:induction false} SlippingIsOrder(s: State, steps: seq<Step>, i: nat)
    requires Inv(s) && RunApart(s, steps) && i < |s.loops|
    ensures Run(s, steps)
    ensures SlipsIn(s, steps, i) <==> exists r: nat, k: nat :: SlipsBetween(s, steps, i, r, k)
    decreases |steps|
  {
    ApartIsRun(s, steps);
    if steps != [] {
      var s', rest := Next(s, steps[0]), steps[1..];
      StepKeepsInv(s, steps[0]);
      OnlyCloseCloses(s, steps[0]);
      SizesNeverChange(s, [steps[0]]);
      if s.cleared && steps[0] == Register(i) {
        NotLateYet(s, steps[0], i);
        ApartSends(s', rest, i);
        SlipsNow(s, s', steps, i);
      }
      hide HeldApart, KeysOk, PipeOk, Sized, Next, Enabled, Keyed, SendsOpen, SendsThenWaits;
      SlippingIsOrder(s', rest, i);
      SlipsLater(s, s', steps, i);
    }
  }

  lemma StrandedBySlipping(width: nat, stale: nat, closeFirst: bool, steps: seq<Step>, i: nat)
    requires 1 <= width && stale <= width && i < Granted(width)
    requires RunApart(Started(width, stale, closeFirst), steps) && Run(Started(width, stale, closeFirst), steps)
    requires TornDown(After(Started(width, stale, closeFirst), steps))
    ensures var s := After(Started(width, stale, closeFirst), steps);
      i < |s.loops| &&
      (s.loops[i].Waiting? <==>
         exists r: nat, k: nat :: SlipsBetween(Started(width, stale, closeFirst), steps, i, r, k))
  {
    hide Run, RunApart, After, SlipsIn, SlipsBetween;
    StartedInv(width, stale, closeFirst);
    SlippingIsOrder(Started(width, stale, closeFirst), steps, i);
    StrandedIsExact(width, stale, closeFirst, steps, i);
  }

  /** Without a lapsed lease, no later step of any task frees a stranded loop. */
  lemma {:induction false} StrandedForever(s: State, steps: seq<Step>, i: nat)
    requires Inv(s) && TornDown(s) && RunApart(s, steps)
    requires i < |s.loops| && s.loops[i].Waiting?
    ensures Run(s, steps) && |After(s, steps).loops| == |s.loops| && After(s, steps).loops[i] == s.loops[i]
    decreases |steps|
  {
    hide HeldApart, KeysOk, PipeOk, Takes, Sized;
    if steps != [] {
      WaitingIsTaken(s, steps[0], i);
      NothingTakenApart(s, steps[0], i);
      StepKeepsInv(s, steps[0]);
      TornDownStays(s, [steps[0]]);
      StrandedForever(Next(s, steps[0]), steps[1..], i);
    }
  }

  predicate NobodyWaits(loops: seq<Loop>) {
    forall i :: 0 <= i < |loops| ==> !loops[i].Waiting?
  }

  /** No run of a session, with distinct jobs or whatever it leases, leaves a loop waiting after the
      teardown. */
  ghost predicate StrandsNobody(s: State, distinct: bool) {
    forall steps :: Run(s, steps) && (distinct ==> RunApart(s, steps)) && TornDown(After(s, steps)) ==>
      NobodyWaits(After(s, steps).loops)
  }

  lemma {:induction false} CloseFirstIsSafe(s: State, steps: seq<Step>)
    requires s.closeFirst && (s.cleared ==> s.closed && NobodyWaits(s.loops)) && Run(s, steps)
    ensures After(s, steps).cleared ==> NobodyWaits(After(s, steps).loops)
    decreases |steps|
  {
    if steps != [] {
      CloseFirstIsSafe(Next(s, steps[0]), steps[1..]);
    }
  }

  /** A loop slips in between: it registers after the clear and sends before the close. */
  const SLIP: seq<Step> := [Lease(0, 7), Clear, Register(0), Send(0), Close]

  lemma SlipStrands(width: nat, stale: nat)
    requires 1 <= width && stale <= width
    ensures RunApart(Fresh(width, stale), SLIP) && Run(Fresh(width, stale), SLIP)
    ensures var s := After(Fresh(width, stale), SLIP);
      TornDown(s) && |s.loops| == Granted(width) && s.loops[0] == Waiting(7)
  {
    var s := Fresh(width, stale);
    assert SLIP[1..] == [Clear, Register(0), Send(0), Close];
    assert [Clear, Register(0), Send(0), Close][1..] == [Register(0), Send(0), Close];
    assert [Register(0), Send(0), Close][1..] == [Send(0), Close];
    assert [Send(0), Close][1..] == [Close];
    assert [Close][1..] == [];
    var s1 := Next(s, Lease(0, 7));
    var s2 := Next(s1, Clear);
    var s3 := Next(s2, Register(0));
    var s4 := Next(s3, Send(0));
    var s5 := Next(s4, Close);
    assert After(s5, []) == s5;
    assert Run(s4, [Close]) && RunApart(s4, [Close]) && After(s4, [Close]) == s5;
    assert Run(s3, [Send(0), Close]) && RunApart(s3, [Send(0), Close]) && After(s3, [Send(0), Close]) == s5;
    var rest := [Register(0), Send(0), Close];
    assert Run(s2, rest) && RunApart(s2, rest) && After(s2, rest) == s5;
    assert Run(s1, SLIP[1..]) && RunApart(s1, SLIP[1..]) && After(s1, SLIP[1..]) == s5;
  }

  /** A teardown strands nobody exactly when it closes the channel before it clears the map. */
  lemma TeardownOrderIsExact(width: nat, stale: nat, closeFirst: bool, distinct: bool)
    requires 1 <= width && stale <= width
    ensures StrandsNobody(Started(width, stale, closeFirst), distinct) <==> closeFirst
  {
    hide Run, RunApart, After;
    var s := Started(width, stale, closeFirst);
    if closeFirst {
      forall steps | Run(s, steps) && TornDown(After(s, steps)) ensures NobodyWaits(After(s, steps).loops)
      {
        CloseFirstIsSafe(s, steps);
      }
    } else {
      SlipStrands(width, stale);
      assert s == Fresh(width, stale);
      assert After(s, SLIP).loops[0].Waiting?;
    }
  }

  // ----- what does not hold

  lemma {:induction false} RunThen(s: State, steps: seq<Step>, step: Step)
    requires Run(s, steps) && Enabled(After(s, steps), step)
    ensures Run(s, steps + [step]) && After(s, steps + [step]) == Next(After(s, steps), step)
    ensures RunApart(s, steps) && Apart(After(s, steps), step) ==> RunApart(s, steps + [step])
    decreases |steps|
  {
    if steps == [] {
      assert [step][1..] == [];
    } else {
      assert (steps + [step])[1..] == steps[1..] + [step];
      RunThen(Next(s, steps[0]), steps[1..], step);
    }
  }

  lemma EmptyRun(s: State)
    ensures Run(s, []) && RunApart(s, []) && After(s, []) == s
  {
  }

  /** A loop takes a job as far as the orchestrator's channel. */
  lemma Queued(s: State, steps: seq<Step>, i: nat, job: nat) returns (steps': seq<Step>)
    requires Run(s, steps)
    requires var t := After(s, steps);
      Serving(t) && i < |t.loops| && t.loops[i].Idle? && |t.outbound| < t.slots
    ensures Run(s, steps')
    ensures RunApart(s, steps) && !HeldByAny(After(s, steps), job) ==> RunApart(s, steps')
    ensures var t, t' := After(s, steps), After(s, steps');
      t' == t.(loops := Dropped(t.loops[i := Leased(job)], t.pending, job)[i := Waiting(job)],
               pending := t.pending[job := i],
               outbound := t.outbound + [job])
    ensures steps' == steps + [Lease(i, job), Register(i), Send(i)]
  {
    hide Run, RunApart, After;
    RunThen(s, steps, Lease(i, job));
    steps' := steps + [Lease(i, job)];
    RunThen(s, steps', Register(i));
    steps' := steps' + [Register(i)];
    RunThen(s, steps', Send(i));
    steps' := steps' + [Send(i)];
  }

  /** ... and on to the worker's dispatcher. */
  lemma Delivered(s: State, steps: seq<Step>, i: nat, job: nat) returns (steps': seq<Step>)
    requires Run(s, steps)
    requires var t := After(s, steps);
      Serving(t) && i < |t.loops| && t.loops[i].Idle? && t.outbound == [] && 1 <= t.slots
    ensures Run(s, steps')
    ensures RunApart(s, steps) && !HeldByAny(After(s, steps), job) ==> RunApart(s, steps')
    ensures var t, t' := After(s, steps), After(s, steps');
      t' == t.(loops := Dropped(t.loops[i := Leased(job)], t.pending, job)[i := Waiting(job)],
               pending := t.pending[job := i],
               down := t.down + [job])
    ensures steps <= steps' && forall k :: |steps| <= k < |steps'| ==> !steps'[k].Reply?
  {
    hide Run, RunApart, After, Dropped;
    steps' := Queued(s, steps, i, job);
    RunThen(s, steps', Forward);
    steps' := steps' + [Forward];
  }

  predicate NoReplies(steps: seq<Step>) {
    forall k :: 0 <= k < |steps| ==> !steps[k].Reply?
  }

  /** Every task gives its permit back as soon as it has posted its reply. */
  predicate Prompt(steps: seq<Step>) {
    forall k :: 0 <= k < |steps| - 1 && steps[k].Reply? ==> steps[k + 1].Release?
  }

  /** A loop takes a job all the way round, but the task that ran it keeps its permit. */
  lemma Lingers(s: State, steps: seq<Step>, job: nat) returns (steps': seq<Step>)
    requires Run(s, steps) && RunApart(s, steps)
    requires var t := After(s, steps);
      && Serving(t) && 0 < |t.loops| && (forall i :: 0 <= i < |t.loops| ==> t.loops[i].Idle?)
      && t.pending == map[] && t.outbound == [] && t.down == [] && t.parked.None? && t.running == []
      && t.results == [] && t.up == [] && 1 <= t.slots && InUse(t) < t.width
    ensures Run(s, steps') && RunApart(s, steps')
    ensures var t, t' := After(s, steps), After(s, steps'); t' == t.(lingering := t.lingering + 1)
  {
    hide Run, RunApart, After;
    steps' := Delivered(s, steps, 0, job);
    RunThen(s, steps', Accept);
    steps' := steps' + [Accept];
    RunThen(s, steps', Reply(0));
    steps' := steps' + [Reply(0)];
    RunThen(s, steps', Drain);
    steps' := steps' + [Drain];
    RunThen(s, steps', Route);
    steps' := steps' + [Route];
  }

  lemma {:induction false} AllLinger(width: nat, stale: nat, k: nat) returns (steps: seq<Step>)
    requires 1 <= width && stale + k <= width
    ensures Run(Fresh(width, stale), steps) && RunApart(Fresh(width, stale), steps)
    ensures After(Fresh(width, stale), steps) == Fresh(width, stale).(lingering := k)
  {
    hide Run, RunApart, After;
    if k == 0 {
      EmptyRun(Fresh(width, stale));
      steps := [];
    } else {
      steps := AllLinger(width, stale, k - 1);
      steps := Lingers(Fresh(width, stale), steps, 0);
    }
  }

  /** The first `k` loops each have their job running. */
  function Filled(width: nat, stale: nat, k: nat): State {
    Fresh(width, stale).(
      loops := seq(Granted(width), (i: nat) => if i < k then Waiting(i) else Idle),
      pending := OwnKeys(k),
      running := seq(k, (i: nat) => i))
  }

  function OwnKeys(k: nat): map<nat, nat> {
    if k == 0 then map[] else OwnKeys(k - 1)[k - 1 := k - 1]
  }

  lemma {:induction false} OwnKeysShape(k: nat, j: nat)
    ensures j in OwnKeys(k) <==> j < k
  {
    if k > 0 {
      OwnKeysShape(k - 1, j);
    }
  }

  lemma {:induction false} FillUp(width: nat, stale: nat, k: nat) returns (steps: seq<Step>)
    requires 1 <= width && stale + k <= width && k <= Granted(width)
    ensures Run(Fresh(width, stale), steps) && RunApart(Fresh(width, stale), steps) && NoReplies(steps)
    ensures After(Fresh(width, stale), steps) == Filled(width, stale, k)
  {
    hide Run, RunApart, After;
    var s := Fresh(width, stale);
    if k == 0 {
      EmptyRun(s);
      steps := [];
      assert Filled(width, stale, 0) == s;
    } else {
      steps := FillUp(width, stale, k - 1);
      var t := Filled(width, stale, k - 1);
      assert !HeldByAny(t, k - 1);
      OwnKeysShape(k - 1, k - 1);
      steps := Delivered(s, steps, k - 1, k - 1);
      RunThen(s, steps, Accept);
      steps := steps + [Accept];
      assert After(s, steps).loops == Filled(width, stale, k).loops;
      assert After(s, steps).pending == Filled(width, stale, k).pending;
      assert After(s, steps).running == Filled(width, stale, k).running;
    }
  }

  /** No run of a session that starts with `stale` permits held elsewhere ends with a parked job.
      With `prompt`, tasks give back their permits as they reply. */
  ghost predicate NeverParks(width: nat, stale: nat, prompt: bool) {
    forall steps ::
      Run(Fresh(width, stale), steps) && RunApart(Fresh(width, stale), steps) && (prompt ==> Prompt(steps)) ==>
        After(Fresh(width, stale), steps).parked.None?
  }

  lemma {:induction false} PromptNeverParks(s: State, steps: seq<Step>)
    requires Inv(s) && s.parked.None? && s.slots + s.stale <= s.width && RunApart(s, steps) && Prompt(steps)
    requires s.lingering == 0 || (s.lingering == 1 && (steps == [] || steps[0].Release?))
    ensures Run(s, steps) && After(s, steps).parked.None?
    decreases |steps|
  {
    hide Inv;
    if steps != [] {
      var s' := Next(s, steps[0]);
      StepKeepsInv(s, steps[0]);
      PromptStep(s, steps[0]);
      assert |steps| > 1 ==> steps[1..][0] == steps[1];
      assert Prompt(steps[1..]) by {
        forall k | 0 <= k < |steps[1..]| - 1 && steps[1..][k].Reply? ensures steps[1..][k + 1].Release? {
          assert steps[k + 1].Reply?;
        }
      }
      PromptNeverParks(s', steps[1..]);
    }
  }

  /** With no permit held past its reply, and permits for old and new work alike, a job that arrives
      finds one free. */
  lemma PromptStep(s: State, step: Step)
    requires Inv(s) && s.parked.None? && s.slots + s.stale <= s.width && Enabled(s, step)
    requires s.lingering == 0 || step.Release?
    ensures var s' := Next(s, step);
      && s'.parked.None? && s'.slots + s'.stale <= s'.width
      && s'.lingering == (if step.Reply? then 1 else if step.Release? then s.lingering - 1 else 0)
  {
    AbroadFits(s);
    hide Inv;
    CountAll(s.running);
    CountAll(s.down);
  }

  lemma AbroadFits(s: State)
    requires Inv(s)
    ensures Abroad(s, None) <= s.slots
  {
  }

  /** A session can park a job exactly when tasks may reply before they give back their permits, or
      permits still held by earlier sessions leave fewer than it was granted. */
  lemma ParkingIsExact(width: nat, stale: nat, prompt: bool)
    requires 1 <= width && stale <= width
    ensures NeverParks(width, stale, prompt) <==> prompt && Granted(width) + stale <= width
  {
    hide Inv, PipeCount, Run, RunApart, After, Prompt;
    var s := Fresh(width, stale);
    if prompt && Granted(width) + stale <= width {
      forall steps | Run(s, steps) && RunApart(s, steps) && Prompt(steps) ensures After(s, steps).parked.None? {
        StartedInv(width, stale, false);
        PromptNeverParks(s, steps);
      }
    } else if !prompt {
      var steps := ParksBehindReplies(width, stale);
      assert After(s, steps).parked.Some?;
    } else {
      var steps := ParksBehindOldWork(width, stale);
      assert After(s, steps).parked.Some?;
    }
  }

  /** A task posts its reply before it gives back its permit, so the answer can fetch the next job
      before the permit is free: even a fresh session can park. */
  lemma ParksBehindReplies(width: nat, stale: nat) returns (steps: seq<Step>)
    requires 1 <= width && stale <= width
    ensures Run(Fresh(width, stale), steps) && RunApart(Fresh(width, stale), steps)
    ensures After(Fresh(width, stale), steps).parked == Some(0)
  {
    hide Run, RunApart, After;
    var s := Fresh(width, stale);
    steps := AllLinger(width, stale, width - stale);
    steps := Delivered(s, steps, 0, 0);
    RunThen(s, steps, Accept);
    steps := steps + [Accept];
  }

  lemma ParksBehindOldWork(width: nat, stale: nat) returns (steps: seq<Step>)
    requires 1 <= width && stale <= width && Granted(width) + stale > width
    ensures Run(Fresh(width, stale), steps) && RunApart(Fresh(width, stale), steps) && Prompt(steps)
    ensures After(Fresh(width, stale), steps).parked.Some?
  {
    hide Run, RunApart, After;
    var s, k := Fresh(width, stale), width - stale;
    steps := FillUp(width, stale, k);
    assert !HeldByAny(Filled(width, stale, k), k);
    steps := Delivered(s, steps, k, k);
    RunThen(s, steps, Accept);
    steps := steps + [Accept];
  }

  // ----- one job on two loops

  /** How often a job is leased. */
  function Leases(steps: seq<Step>, job: nat): nat {
    if steps == [] then 0
    else (if steps[0].Lease? && steps[0].job == job then 1 else 0) + Leases(steps[1..], job)
  }

  /** No job is leased more often than a delivery may be analysed: `max_attempts` times. */
  ghost predicate Limited(steps: seq<Step>, limit: nat) {
    forall job :: Leases(steps, job) <= limit
  }

  lemma {:induction false} LeasesConcat(a: seq<Step>, b: seq<Step>, job: nat)
    ensures Leases(a + b, job) == Leases(a, job) + Leases(b, job)
  {
    if a == [] {
      assert a + b == b;
    } else {
      assert (a + b)[1..] == a[1..] + b;
      LeasesConcat(a[1..], b, job);
    }
  }

  lemma {:induction false} NoLease(steps: seq<Step>, job: nat)
    requires forall k :: 0 <= k < |steps| ==> !steps[k].Lease?
    ensures Leases(steps, job) == 0
  {
    if steps != [] {
      NoLease(steps[1..], job);
    }
  }

  /** Loop 0 leases job 1, then, that lease having lapsed, loop 1 does; loop 0 and loop 2 lease job 2,
      and so on: the loop and the job of each turn. */
  function TurnLoop(t: nat): nat {
    if t % 2 == 0 then 0 else t / 2 + 1
  }

  function TurnJob(t: nat): nat {
    t / 2 + 1
  }

  function Turn(t: nat): seq<Step> {
    [Lease(TurnLoop(t), TurnJob(t)), Register(TurnLoop(t)), Send(TurnLoop(t))]
  }

  function Turns(t: nat): seq<Step> {
    if t == 0 then [] else Turns(t - 1) + Turn(t - 1)
  }

  lemma TurnLeases(t: nat, job: nat)
    ensures Leases(Turn(t), job) == if job == TurnJob(t) then 1 else 0
  {
    NoLease(Turn(t)[1..], job);
  }

  lemma {:induction false} TurnsLease(t: nat, job: nat)
    ensures Leases(Turns(t), job) ==
      if 2 * job == t + 1 then 1 else if 1 <= job && 2 * job <= t then 2 else 0
  {
    if t > 0 {
      TurnsLease(t - 1, job);
      TurnLeases(t - 1, job);
      LeasesConcat(Turns(t - 1), Turn(t - 1), job);
    }
  }

  function TurnedKeys(t: nat): map<nat, nat> {
    if t == 0 then map[] else TurnedKeys(t - 1)[TurnJob(t - 1) := TurnLoop(t - 1)]
  }

  function TurnedLoop(t: nat, i: nat): Loop {
    if i == 0 then (if t % 2 == 0 then Idle else Waiting(t / 2 + 1))
    else if i <= t / 2 then Waiting(i)
    else Idle
  }

  /** After `t` turns: each pair of turns has put two requests into the channel and occupied one loop. */
  function Turned(width: nat, stale: nat, t: nat): State {
    Fresh(width, stale).(
      loops := seq(Granted(width), (i: nat) => TurnedLoop(t, i)),
      pending := TurnedKeys(t),
      outbound := seq(t, (i: nat) => TurnJob(i)))
  }

  lemma {:induction false} TurnedKeysShape(t: nat, job: nat)
    ensures job in TurnedKeys(t) <==> 1 <= job && 2 * job <= t + 1
    ensures job in TurnedKeys(t) ==> TurnedKeys(t)[job] == if 2 * job == t + 1 then 0 else job
  {
    if t > 0 {
      TurnedKeysShape(t - 1, job);
    }
  }

  lemma TurnedOnce(width: nat, stale: nat, t: nat)
    requires 2 <= Granted(width) && t < Granted(width)
    ensures var s, i, job := Turned(width, stale, t), TurnLoop(t), TurnJob(t);
      && i < |s.loops| && s.loops[i].Idle?
      && Dropped(s.loops[i := Leased(job)], s.pending, job)[i := Waiting(job)] == Turned(width, stale, t + 1).loops
      && s.outbound + [job] == Turned(width, stale, t + 1).outbound
  {
    TurnedKeysShape(t, TurnJob(t));
  }

  lemma {:induction false} TakeTurns(width: nat, stale: nat, t: nat)
    requires 2 <= Granted(width) && t <= Granted(width)
    ensures Run(Fresh(width, stale), Turns(t)) && After(Fresh(width, stale), Turns(t)) == Turned(width, stale, t)
  {
    hide Run, RunApart, After, Dropped, TurnedLoop, TurnLoop, TurnJob;
    var s := Fresh(width, stale);
    if t == 0 {
      EmptyRun(s);
      NoTurns(width, stale);
    } else {
      TakeTurns(width, stale, t - 1);
      TurnedOnce(width, stale, t - 1);
      var steps := Queued(s, Turns(t - 1), TurnLoop(t - 1), TurnJob(t - 1));
      assert steps == Turns(t);
    }
  }

  lemma NoTurns(width: nat, stale: nat)
    ensures Turned(width, stale, 0) == Fresh(width, stale)
  {
    assert Turned(width, stale, 0).loops == Fresh(width, stale).loops;
  }

  /** While the session serves, some loop about to send finds the channel full. */
  predicate SendBlocks(s: State) {
    Serving(s) && exists i :: 0 <= i < |s.loops| && s.loops[i].Registered? && !Enabled(s, Send(i))
  }

  /** With two slots or more, jobs leased twice each (the first lease having lapsed) fill the channel,
      and the next loop to send is blocked. */
  lemma RepeatedJobBlocks(width: nat, stale: nat) returns (steps: seq<Step>)
    requires Granted(width) >= 2
    ensures Limited(steps, 2)
    ensures Run(Fresh(width, stale), steps)
    ensures var s, i := After(Fresh(width, stale), steps), TurnLoop(Granted(width));
      && Serving(s) && i < |s.loops| && s.loops[i] == Registered(TurnJob(Granted(width))) && Keyed(s, i)
      && s.slots == Granted(width) && s.down == [] && s.outbound == Turned(width, stale, s.slots).outbound
      && SendBlocks(s)
  {
    hide Run, After, RunApart, TurnedLoop, Limited, Turns;
    var s, n := Fresh(width, stale), Granted(width);
    var i, job := TurnLoop(n), TurnJob(n);
    TakeTurns(width, stale, n);
    FullTurn(width, stale);
    RunThen(s, Turns(n), Lease(i, job));
    steps := Turns(n) + [Lease(i, job)];
    RunThen(s, steps, Register(i));
    steps := steps + [Register(i)];
    assert After(s, steps).loops[i].Registered? && !Enabled(After(s, steps), Send(i));
    assert steps == Turns(n) + Turn(n)[..2];
    TwiceEach(n);
  }

  lemma FullTurn(width: nat, stale: nat)
    requires 2 <= Granted(width)
    ensures TurnLoop(Granted(width)) < Granted(width)
    ensures Turned(width, stale, Granted(width)).loops[TurnLoop(Granted(width))].Idle?
  {
  }

  lemma TwiceEach(t: nat)
    ensures Limited(Turns(t) + Turn(t)[..2], 2)
  {
    hide Leases, TurnLoop, TurnJob;
    assert Turns(t + 1) == Turns(t) + Turn(t)[..2] + Turn(t)[2..];
    forall job ensures Leases(Turns(t) + Turn(t)[..2], job) <= 2 {
      TurnsLease(t + 1, job);
      LeasesConcat(Turns(t) + Turn(t)[..2], Turn(t)[2..], job);
    }
  }

  /** ... and so puts more jobs under way than the session has slots. */
  lemma RepeatedJobExceedsSlots(width: nat, stale: nat) returns (steps: seq<Step>)
    requires Granted(width) >= 2
    ensures Limited(steps, 2)
    ensures Run(Fresh(width, stale), steps)
    ensures var s := After(Fresh(width, stale), steps); Serving(s) && PipeCount(s, None) > s.slots
  {
    hide Run, After, RunApart, Dropped, Limited, TurnLoop, TurnJob;
    var s, i := Fresh(width, stale), TurnLoop(Granted(width));
    var blocked := RepeatedJobBlocks(width, stale);
    RunThen(s, blocked, Forward);
    steps := blocked + [Forward];
    RunThen(s, steps, Send(i));
    steps := steps + [Send(i)];
    var t := After(s, steps);
    CountAll(t.outbound);
    CountAll(t.down);
    LimitedMore(blocked, [Forward, Send(i)], 2);
    assert steps == blocked + [Forward, Send(i)];
  }

  lemma LimitedMore(a: seq<Step>, b: seq<Step>, limit: nat)
    requires Limited(a, limit) && forall k :: 0 <= k < |b| ==> !b[k].Lease?
    ensures Limited(a + b, limit)
  {
    forall job ensures Leases(a + b, job) <= limit {
      LeasesConcat(a, b, job);
      NoLease(b, job);
    }
  }

  lemma {:induction false} OneLoopIsApart(s: State, steps: seq<Step>)
    requires |s.loops| == 1 && Run(s, steps)
    ensures RunApart(s, steps)
    decreases |steps|
  {
    if steps != [] {
      OneLoopIsApart(Next(s, steps[0]), steps[1..]);
    }
  }

  /** No job that a loop holds is leased in this run. */
  ghost predicate HeldForGood(s: State, steps: seq<Step>) {
    forall i: nat :: i < |s.loops| && !s.loops[i].Idle? ==> Leases(steps, s.loops[i].job) == 0
  }

  /** Jobs leased once each are never leased while a loop holds them. */
  lemma {:induction false} OnceIsApart(s: State, steps: seq<Step>)
    requires Run(s, steps) && Limited(steps, 1) && HeldForGood(s, steps)
    ensures RunApart(s, steps)
    decreases |steps|
  {
    if steps != [] {
      OnceMore(s, steps);
      OnceIsApart(Next(s, steps[0]), steps[1..]);
    }
  }

  lemma OnceMore(s: State, steps: seq<Step>)
    requires Run(s, steps) && Limited(steps, 1) && HeldForGood(s, steps) && steps != []
    ensures Apart(s, steps[0]) && Limited(steps[1..], 1) && HeldForGood(Next(s, steps[0]), steps[1..])
  {
    var s' := Next(s, steps[0]);
    forall job ensures Leases(steps[1..], job) <= 1 {
      assert Leases(steps, job) <= 1;
    }
    forall i: nat | i < |s'.loops| && !s'.loops[i].Idle? ensures Leases(steps[1..], s'.loops[i].job) == 0 {
      HeldBefore(s, steps[0], i);
      assert Leases(steps, s'.loops[i].job) <= 1;
    }
  }

  lemma HeldBefore(s: State, step: Step, i: nat)
    requires Enabled(s, step) && i < |Next(s, step).loops| && !Next(s, step).loops[i].Idle?
    ensures i < |s.loops|
    ensures step == Lease(i, Next(s, step).loops[i].job) || Holding(s.loops[i], Next(s, step).loops[i].job)
  {
  }

  /** Whatever is leased, up to `limit` times each, no run makes a send wait for room. */
  ghost predicate NeverBlocks(width: nat, stale: nat, limit: nat) {
    forall steps :: Run(Fresh(width, stale), steps) && Limited(steps, limit) ==>
      !SendBlocks(After(Fresh(width, stale), steps))
  }

  ghost predicate NeverExceedsSlots(width: nat, stale: nat, limit: nat) {
    forall steps ::
      Run(Fresh(width, stale), steps) && Limited(steps, limit) && Serving(After(Fresh(width, stale), steps)) ==>
        PipeCount(After(Fresh(width, stale), steps), None) <= Granted(width)
  }

  /** One slot, or one lease per job. */
  lemma OneIsApart(width: nat, stale: nat, limit: nat, steps: seq<Step>)
    requires Granted(width) == 1 || limit <= 1
    requires Run(Fresh(width, stale), steps) && Limited(steps, limit)
    ensures RunApart(Fresh(width, stale), steps)
  {
    if Granted(width) == 1 {
      OneLoopIsApart(Fresh(width, stale), steps);
    } else {
      OnceIsApart(Fresh(width, stale), steps);
    }
  }

  /** Sends never block and the slots are respected in every run that leases no job twice at a time;
      in all runs that lease each job at most `limit` times, exactly when the session has a single slot or
      the limit is one. */
  lemma DistinctJobsIsExact(width: nat, stale: nat, limit: nat)
    requires 1 <= width && stale <= width
    ensures forall steps :: Run(Fresh(width, stale), steps) && RunApart(Fresh(width, stale), steps) ==>
      !SendBlocks(After(Fresh(width, stale), steps))
    ensures NeverBlocks(width, stale, limit) <==> Granted(width) == 1 || limit <= 1
    ensures NeverExceedsSlots(width, stale, limit) <==> Granted(width) == 1 || limit <= 1
  {
    hide Run, RunApart, After, PipeCount, Limited;
    var s := Fresh(width, stale);
    forall steps | RunApart(s, steps) ensures Run(s, steps) && !SendBlocks(After(s, steps)) {
      SlotSafety(width, stale, steps);
    }
    if Granted(width) == 1 || limit <= 1 {
      forall steps | Run(s, steps) && Limited(steps, limit)
        ensures !SendBlocks(After(s, steps))
        ensures Serving(After(s, steps)) ==> PipeCount(After(s, steps), None) <= Granted(width)
      {
        OneIsApart(width, stale, limit, steps);
        SlotSafety(width, stale, steps);
      }
    } else {
      RepeatsBreakIt(width, stale, limit);
    }
  }

  lemma RepeatsBreakIt(width: nat, stale: nat, limit: nat)
    requires Granted(width) >= 2 && limit >= 2
    ensures !NeverBlocks(width, stale, limit) && !NeverExceedsSlots(width, stale, limit)
  {
    hide Run, RunApart, After, PipeCount, SendBlocks, Turned, Keyed, TurnLoop, TurnJob, Serving;
    var s := Fresh(width, stale);
    var blocked := RepeatedJobBlocks(width, stale);
    assert Limited(blocked, limit) && SendBlocks(After(s, blocked));
    var exceeded := RepeatedJobExceedsSlots(width, stale);
    SizesNeverChange(s, exceeded);
    assert Limited(exceeded, limit) && PipeCount(After(s, exceeded), None) > Granted(width);
  }

  // ----- the two programs

  /** The code that runs on the two sides, over the fields it mutates. */
  class Connection {
    const slots: nat
    const width: nat
    var cleared: bool
    var closed: bool
    var loops: seq<Loop>
    var pending: map<nat, nat>
    var outbound: seq<nat>
    var down: seq<nat>
    var parked: Option<nat>
    var running: seq<nat>
    var lingering: nat
    var stale: nat
    var results: seq<nat>
    var up: seq<nat>

    ghost function Now(): State
      reads this
    {
      State(false, slots, width, cleared, closed, loops, pending, outbound, down, parked, running, lingering, stale,
            results, up)
    }

    /** A worker announces `width` permits, `stale` of which earlier sessions still hold. */
    constructor (width: nat, stale: nat)
      ensures Now() == Fresh(width, stale)
    {
      this.width := width;
      slots := Max(1, Min(width, MAX_SLOTS));
      cleared, closed, pending, outbound, down, parked, running := false, false, map[], [], [], None, [];
      lingering, this.stale, results, up := 0, stale, [], [];
      loops := seq(Max(1, Min(width, MAX_SLOTS)), i => Idle);
    }

    /** A key is replaced or removed: a loop waiting under it loses its sender. */
    method DropWaiter(job: nat)
      modifies this`loops
      ensures loops == Dropped(old(loops), pending, job)
    {
      if job in pending && pending[job] < |loops| && loops[pending[job]].Waiting? {
        loops := loops[pending[job] := Idle];
      }
    }

    method RegisterWaiter(i: nat)
      requires Enabled(Now(), Step.Register(i))
      modifies this`loops, this`pending
      ensures Now() == Next(old(Now()), Step.Register(i))
    {
      var job := loops[i].job;
      DropWaiter(job);
      pending := pending[job := i];
      loops := loops[i := Registered(job)];
    }

    method SendRequest(i: nat)
      requires Enabled(Now(), Step.Send(i))
      modifies this`loops, this`pending, this`outbound
      ensures Now() == Next(old(Now()), Step.Send(i))
    {
      var job := loops[i].job;
      if closed {
        DropWaiter(job);
        pending := pending - {job};
        loops := loops[i := Idle];
        return;
      }
      outbound := outbound + [job];
      var listening := job in pending && pending[job] == i;
      loops := loops[i := if listening then Waiting(job) else Idle];
    }

    /** `analyze`, up to the point where it awaits its outcome, with nothing happening in between: the
        request is the last in the channel and the loop waits under its own key, or, once the channel is
        closed, the loop is free and its key gone. */
    method Analyze(i: nat)
      requires i < |loops| && loops[i].Leased? && (!closed ==> |outbound| < slots)
      modifies this`loops, this`pending, this`outbound
      ensures |loops| == old(|loops|)
      ensures var job := old(loops[i].job);
        if closed then loops[i].Idle? && pending == old(pending) - {job} && outbound == old(outbound)
        else loops[i] == Waiting(job) && pending == old(pending)[job := i] && outbound == old(outbound) + [job]
      ensures forall k :: 0 <= k < |loops| && k != i && old(loops)[k] != Waiting(old(loops[i].job)) ==>
        loops[k] == old(loops)[k] || (old(loops)[k].Waiting? && loops[k].Idle?)
    {
      RegisterWaiter(i);
      SendRequest(i);
    }

    /** `complete_job`: the outcome goes to the id's waiter; without one it is dropped. */
    method CompleteJob(job: nat)
      modifies this`pending, this`loops
      ensures Now() == Received(old(Now()), job)
    {
      if job !in pending {
        return;
      }
      var i := pending[job];
      pending := pending - {job};
      if i < |loops| && loops[i] == Waiting(job) {
        loops := loops[i := Idle];
      }
    }

    /** `dispatch`: take a permit, or wait for one. */
    method Dispatch()
      requires Enabled(Now(), Step.Accept)
      modifies this`down, this`running, this`parked
      ensures Now() == Next(old(Now()), Step.Accept)
    {
      var job := down[0];
      down := down[1..];
      if |running| + lingering + stale < width {
        running := running + [job];
      } else {
        parked := Some(job);
      }
    }

    /** A finished analysis posts its result; its permit is still held. */
    method PostReply(k: nat)
      requires Enabled(Now(), Step.Reply(k))
      modifies this`running, this`results, this`lingering
      ensures Now() == Next(old(Now()), Step.Reply(k))
    {
      results := results + [running[k]];
      running := running[..k] + running[k + 1..];
      lingering := lingering + 1;
    }

    /** The socket is gone: the map is cleared, which ends every waiting `analyze`. */
    method ClearWaiters()
      requires Enabled(Now(), Step.Clear)
      modifies this`cleared, this`pending, this`loops
      ensures Now() == Next(old(Now()), Step.Clear)
    {
      cleared, pending := true, map[];
      var i := 0;
      ghost var before := loops;
      while i < |loops|
        invariant 0 <= i <= |loops| == |before|
        invariant forall k :: 0 <= k < i ==> loops[k] == if before[k].Waiting? then Idle else before[k]
        invariant forall k :: i <= k < |before| ==> loops[k] == before[k]
        invariant cleared && pending == map[]
      {
        loops := loops[i := if loops[i].Waiting? then Idle else loops[i]];
        i := i + 1;
      }
      assert loops == Unwaited(before);
    }

    /** The steps that move one job along, or change one flag or counter. */
    method Move(step: Step)
      requires Enabled(Now(), step)
      requires !step.Register? && !step.Send? && !step.Accept? && !step.Reply? && !step.Route? && !step.Clear?
      modifies this
      ensures Now() == Next(old(Now()), step)
    {
      match step {
        case Lease(i, job) => loops := loops[i := Leased(job)];
        case Forward => outbound, down := outbound[1..], down + [outbound[0]];
        case Unpark => running, parked := running + [parked.value], None;
        case Release => lingering := lingering - 1;
        case StaleEnds => stale := stale - 1;
        case Drain => results, up := results[1..], up + [results[0]];
        case Close => closed, outbound := true, [];
      }
    }

    /** The two programs in any interleaving: they do what the steps do, and with distinct jobs no
        channel ever holds more than its capacity nor the worker more than its width. */
    method Drive(steps: seq<Step>)
      requires Run(Now(), steps)
      modifies this
      ensures Now() == After(old(Now()), steps)
      ensures old(Inv(Now())) && RunApart(old(Now()), steps) ==>
        && |results| <= slots && |running| + lingering + stale <= width
        && (Serving(Now()) ==> |outbound| <= slots)
    {
      hide Inv, RunApart;
      ghost var start := Now();
      for n := 0 to |steps|
        invariant Run(Now(), steps[n..]) && After(Now(), steps[n..]) == After(start, steps)
      {
        var step := steps[n];
        assert steps[n..][0] == step && steps[n..][1..] == steps[n + 1..];
        match step {
          case Register(i) => RegisterWaiter(i);
          case Send(i) => SendRequest(i);
          case Accept => Dispatch();
          case Reply(k) => PostReply(k);
          case Route =>
            var job := up[0];
            up := up[1..];
            CompleteJob(job);
          case Clear => ClearWaiters();
          case _ => Move(step);
        }
      }
      assert steps[|steps|..] == [];
      if Inv(start) && RunApart(start, steps) {
        RunKeepsInv(start, steps);
        WithinCapacity(Now());
      }
    }
  }

  lemma WithinCapacity(s: State)
    requires Inv(s)
    ensures |s.results| <= s.slots && InUse(s) <= s.width
    ensures Serving(s) ==> |s.outbound| <= s.slots
  {
    CountAll(s.results);
    CountAll(s.outbound);
    WaitingSize(s.loops);
    assert Serving(s) ==> PipeCount(s, None) == WaitingCount(s.loops, None);
  }
}
