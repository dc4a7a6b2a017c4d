/** The visibility-timeout heartbeat: it re-arms a message's lock at half the timeout while its job
    runs. Times are in seconds. */
module HeartbeatLease {
  import opened Common

  const HEARTBEAT_DIVISOR := 2

  /** Whole seconds between two re-arms. */
  function Interval(vt: nat): nat {
    Max(vt, HEARTBEAT_DIVISOR) / HEARTBEAT_DIVISOR
  }

  /** Half the timeout in whole seconds, and never less than one. */
  lemma IntervalIsHalf(vt: nat)
    ensures 1 <= Interval(vt)
    ensures vt >= 2 ==> 2 * Interval(vt) <= vt < 2 * Interval(vt) + 2
    ensures vt < 2 ==> Interval(vt) == 1
  {
  }

  /** One re-arm: the instant the database applied it, and the instant the call returned. */
  datatype Beat = Beat(applied: real, returned: real)

  /** A message leased at `leased`, whose heartbeat was started at `started`. */
  datatype Guard = Guard(leased: real, started: real, beats: seq<Beat>)

  /** When the timer of re-arm number `k` is due: an interval after the start, or after the previous
      call returned. */
  function Due(g: Guard, vt: nat, k: nat): real
    requires k <= |g.beats|
  {
    (if k == 0 then g.started else g.beats[k - 1].returned) + Interval(vt) as real
  }

  /** The heartbeat starts within a quarter of the timeout, and every re-arm succeeds within a
      quarter of the timeout of being due. */
  ghost predicate Timely(g: Guard, vt: nat) {
    && g.leased <= g.started <= g.leased + vt as real / 4.0
    && forall k :: 0 <= k < |g.beats| ==>
         Due(g, vt, k) <= g.beats[k].applied <= g.beats[k].returned < Due(g, vt, k) + vt as real / 4.0
  }

  /** The instant the lock lapses once `k` re-arms have been applied. */
  function Expiry(g: Guard, vt: nat, k: nat): real
    requires k <= |g.beats|
  {
    (if k == 0 then g.leased else g.beats[k - 1].applied) + vt as real
  }

  /** `k` re-arms have been applied by time `t`, and no more. */
  predicate InForce(g: Guard, k: nat, t: real) {
    && k <= |g.beats|
    && (if k == 0 then g.leased else g.beats[k - 1].applied) <= t
    && (k < |g.beats| ==> t < g.beats[k].applied)
  }

  /** Another consumer can read the message at `t`. */
  ghost predicate Readable(g: Guard, vt: nat, t: real) {
    exists k: nat :: InForce(g, k, t) && Expiry(g, vt, k) <= t
  }

  /** `t` is covered by the re-arms recorded in `g`: a timely re-arm after the last of them could
      still be outstanding at `t`. */
  predicate Covered(g: Guard, vt: nat, t: real) {
    g.leased <= t < Due(g, vt, |g.beats|) + vt as real / 4.0
  }

  lemma IntervalIsAtMostHalf(vt: nat)
    requires vt >= 2
    ensures Interval(vt) as real <= vt as real / 2.0
  {
    var half := vt / 2;
    assert Interval(vt) == half;
    assert 2 * half <= vt;
    assert (2 * half) as real <= vt as real;
  }

  /** The next re-arm is due so early that, timely, it is applied before `t`. */
  lemma DueAfter(g: Guard, vt: nat, k: nat, t: real)
    requires Timely(g, vt) && Covered(g, vt, t) && InForce(g, k, t)
    ensures t < Due(g, vt, k) + vt as real / 4.0
  {
    if k < |g.beats| {
      assert g.beats[k].applied <= g.beats[k].returned < Due(g, vt, k) + vt as real / 4.0;
    }
  }

  /** The timer runs from at most a quarter of the timeout after the lock was last set. */
  lemma DueWithin(g: Guard, vt: nat, k: nat)
    requires Timely(g, vt) && k <= |g.beats|
    ensures Due(g, vt, k) <= Expiry(g, vt, k) - 3.0 * (vt as real / 4.0) + Interval(vt) as real
  {
    hide Interval;
    var quarter := vt as real / 4.0;
    if k > 0 {
      var last := g.beats[k - 1];
      assert Due(g, vt, k - 1) <= last.applied && last.returned < Due(g, vt, k - 1) + quarter;
    }
  }

  lemma HiddenInForce(g: Guard, vt: nat, k: nat, t: real)
    requires vt >= 2 && Timely(g, vt) && Covered(g, vt, t) && InForce(g, k, t)
    ensures t < Expiry(g, vt, k)
  {
    IntervalIsAtMostHalf(vt);
    DueAfter(g, vt, k, t);
    DueWithin(g, vt, k);
    hide Interval, Due, Expiry, Timely, Covered, InForce;
  }

  /** A timely heartbeat keeps the message hidden for as long as the guard lives, over runs of any
      length. */
  lemma NeverReadable(g: Guard, vt: nat, t: real)
    requires vt >= 2 && Timely(g, vt) && Covered(g, vt, t)
    ensures !Readable(g, vt, t)
  {
    forall k: nat | InForce(g, k, t) ensures t < Expiry(g, vt, k) {
      HiddenInForce(g, vt, k, t);
    }
  }

  /** Some number of re-arms is in force at every covered instant, so "not readable" is not vacuous. */
  lemma {:induction false} SomethingInForce(g: Guard, t: real, k: nat)
    requires g.leased <= t && k <= |g.beats|
    requires k < |g.beats| ==> t < g.beats[k].applied
    ensures exists j: nat :: j <= k && InForce(g, j, t)
  {
    if k == 0 || g.beats[k - 1].applied <= t {
      assert InForce(g, k, t);
    } else {
      SomethingInForce(g, t, k - 1);
    }
  }

  /** Every timely heartbeat with this timeout keeps its message hidden. */
  ghost predicate AlwaysHidden(vt: nat) {
    forall g: Guard, t: real :: Timely(g, vt) && Covered(g, vt, t) ==> !Readable(g, vt, t)
  }

  /** A lease of one second, or none: its first re-arm is due when, or after, it lapses. */
  const IDLE_GUARD := Guard(0.0, 0.0, [])

  lemma ShortLeaseLapses(vt: nat)
    requires vt < 2
    ensures Timely(IDLE_GUARD, vt) && Covered(IDLE_GUARD, vt, vt as real) && Readable(IDLE_GUARD, vt, vt as real)
  {
    assert InForce(IDLE_GUARD, 0, vt as real) && Expiry(IDLE_GUARD, vt, 0) <= vt as real;
  }

  /** Two seconds is the smallest timeout the heartbeat can protect: below it the one-second floor on
      the interval lets the lock lapse before the first re-arm. */
  lemma TwoSecondsIsExact(vt: nat)
    ensures AlwaysHidden(vt) <==> vt >= 2
  {
    if vt >= 2 {
      forall g: Guard, t: real | Timely(g, vt) && Covered(g, vt, t) ensures !Readable(g, vt, t) {
        NeverReadable(g, vt, t);
      }
    } else {
      ShortLeaseLapses(vt);
    }
  }
}
