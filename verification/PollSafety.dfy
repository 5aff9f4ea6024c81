/** The poll loop over whole runs: how often it asks, how long it takes, and what decides its result. */
module PollSafety {
  import opened Types
  import opened Keys
  import opened Ledger
  import opened Protocol

  /** The first status that is not `NotFound`: the specification of a poll. */
  function FirstFinal(polls: seq<GetReply>): Option<GetReply> {
    if polls == [] then None
    else if polls[0].NotFound? then FirstFinal(polls[1..])
    else Some(polls[0])
  }

  predicate AllNotFound(polls: seq<GetReply>) {
    forall i | 0 <= i < |polls| :: polls[i].NotFound?
  }

  lemma {:induction false} FirstFinalOfNotFound(polls: seq<GetReply>)
    requires AllNotFound(polls)
    ensures FirstFinal(polls) == None
  {
    if polls != [] { FirstFinalOfNotFound(polls[1..]); }
  }

  /** A poll stops at its first final status, so that status is the last one it saw. */
  lemma {:induction false} FirstFinalIsLast(polls: seq<GetReply>)
    requires polls != [] && AllNotFound(polls[..|polls| - 1]) && !polls[|polls| - 1].NotFound?
    ensures FirstFinal(polls) == Some(polls[|polls| - 1])
  {
    if |polls| > 1 {
      assert polls[..|polls| - 1][0].NotFound?;
      assert polls[1..][..|polls| - 2] == polls[..|polls| - 1][1..];
      FirstFinalIsLast(polls[1..]);
    }
  }

  /** `n` status calls are possible: all but the last two sleeps' worth of time fits before the deadline. */
  ghost predicate Affordable(ses: Session, n: nat) {
    n >= 2 ==> (n - 2) * ses.interval < ses.timeout
  }

  /** `n` full intervals have gone by since `start`. */
  ghost predicate Slept(t: Sys, start: nat, n: nat) {
    start == t.book.pollStart && start + n * t.ses.interval <= t.clock
  }

  ghost predicate PollStands(t: Sys) {
    var phase, polls, n := t.phase, t.book.polls, |t.book.polls|;
    && (phase.NeedSigner? ==> n == 0 && Sensible(phase.call))
    && (phase.Polling? ==> AllNotFound(polls) && Slept(t, phase.start, n) && Affordable(t.ses, n + 1))
    && (phase.Checking? ==> n > 0 && AllNotFound(polls) && Slept(t, phase.start, n - 1))
    && (phase.Sleeping? ==>
          n > 0 && AllNotFound(polls) && Slept(t, phase.start, n - 1) && Affordable(t.ses, n + 1))
    && (phase.Done? && phase.result == Err(Timeout) ==>
          n > 0 && AllNotFound(polls) && t.book.pollStart + t.ses.timeout <= t.book.pollEnd)
    && (phase.Done? && phase.result.Ok? && phase.result.value.Executed? ==> n > 0 && polls[n - 1].Success?)
    && (if phase.Done? && phase.result == Err(TransactionFailed) then n > 0 && polls[n - 1].Failed?
        else n > 0 ==> !polls[n - 1].Failed?)
  }

  ghost predicate PollInv(t: Sys) {
    var polls := t.book.polls;
    && (polls != [] ==> AllNotFound(polls[..|polls| - 1]))
    && Affordable(t.ses, |polls|)
    && PollStands(t)
  }

  lemma NotFoundStepKeeps(s: Sys, hash: Hash, dt: nat)
    requires PollInv(s) && ClientEnabled(s, Get(hash, NotFound), dt)
    ensures PollInv(ClientApply(s, Get(hash, NotFound), dt))
  {
    assert (s.book.polls + [NotFound])[..|s.book.polls|] == s.book.polls;
  }

  lemma FailedStepKeeps(s: Sys, hash: Hash, got: GetReply, dt: nat)
    requires PollInv(s) && ClientEnabled(s, Get(hash, got), dt) && (got.Failed? || got.GetFailed?)
    ensures PollInv(ClientApply(s, Get(hash, got), dt))
  {
    assert (s.book.polls + [got])[..|s.book.polls|] == s.book.polls;
  }

  /** Polling is over for a confirmed transaction, and neither failed nor timed out. */
  predicate Over(phase: Phase) {
    && !phase.NeedSigner? && !phase.Polling? && !phase.Checking? && !phase.Sleeping?
    && (phase.Done? && phase.result.Err? ==> phase.result.error != Timeout && phase.result.error != TransactionFailed)
  }

  lemma OverStands(s: Sys, t: Sys, ret: Option<ScVal>)
    requires PollInv(s) && s.phase.Polling? && t.ses == s.ses && Over(t.phase)
    requires t.book.polls == s.book.polls + [Success(ret)]
    ensures PollInv(t)
  {
    assert t.book.polls[..|s.book.polls|] == s.book.polls;
  }

  lemma SuccessStepKeeps(s: Sys, hash: Hash, ret: Option<ScVal>, dt: nat)
    requires PollInv(s) && ClientEnabled(s, Get(hash, Success(ret)), dt)
    ensures PollInv(ClientApply(s, Get(hash, Success(ret)), dt))
  {
    OverStands(s, ClientApply(s, Get(hash, Success(ret)), dt), ret);
  }

  lemma SleepStepKeeps(s: Sys, dt: nat)
    requires PollInv(s) && ClientEnabled(s, Sleep, dt)
    ensures PollInv(ClientApply(s, Sleep, dt))
  {
    var n, interval := |s.book.polls|, s.ses.interval;
    assert (n - 1) * interval + interval == n * interval;
  }

  lemma ReadClockStepKeeps(s: Sys, dt: nat)
    requires PollInv(s) && ClientEnabled(s, ReadClock, dt)
    ensures PollInv(ClientApply(s, ReadClock, dt))
  {
  }

  lemma OtherStepKeeps(s: Sys, e: ClientEvent, dt: nat)
    requires PollInv(s) && ClientEnabled(s, e, dt) && !e.Get? && !e.Sleep? && !e.ReadClock?
    ensures PollInv(ClientApply(s, e, dt))
  {
  }

  lemma EnvStepKeeps(s: Sys, e: EnvEvent)
    requires PollInv(s) && Enabled(s, Env(e))
    ensures PollInv(Apply(s, Env(e)))
  {
  }

  lemma PollStepKeeps(s: Sys, e: ClientEvent, dt: nat)
    requires PollInv(s) && ClientEnabled(s, e, dt)
    ensures PollInv(ClientApply(s, e, dt))
  {
    match e
    case Get(hash, NotFound) => NotFoundStepKeeps(s, hash, dt);
    case Get(hash, Success(ret)) => SuccessStepKeeps(s, hash, ret, dt);
    case Get(hash, got) => FailedStepKeeps(s, hash, got, dt);
    case Sleep => SleepStepKeeps(s, dt);
    case ReadClock => ReadClockStepKeeps(s, dt);
    case _ => OtherStepKeeps(s, e, dt);
  }

  lemma {:induction false} PollInvHolds(s: Sys, log: seq<Event>, t: Sys)
    requires Run(s, log, t)
    ensures PollInv(t)
  {
    if log != [] {
      var state, ev := Reach(s, log[..|log| - 1]).value, log[|log| - 1];
      PollInvHolds(s, log[..|log| - 1], state);
      match ev
      case Client(e, dt) => PollStepKeeps(state, e, dt);
      case Env(e) => EnvStepKeeps(state, e);
    }
  }

  function CeilDiv(a: nat, b: nat): nat
    requires b > 0
  {
    (a + b - 1) / b
  }

  lemma CeilDivAbove(k: nat, a: nat, b: nat)
    requires b > 0 && k * b < a
    ensures k + 1 <= CeilDiv(a, b)
  {
    var x, q := a + b - 1, CeilDiv(a, b);
    assert x == q * b + x % b;
    assert q <= k ==> q * b <= k * b;
  }

  /** The most status calls a poll can make: one, and one more for each interval begun before the deadline. */
  function MostPolls(ses: Session): nat
    requires ses.interval > 0 || ses.timeout == 0
  {
    1 + if ses.timeout == 0 then 0 else CeilDiv(ses.timeout, ses.interval)
  }

  /** With a positive interval a poll asks at most 1 + ceil(timeout / interval) times, and with a zero timeout just
      once, whatever the statuses and however long anything takes. */
  lemma PollCallsBounded(s: Sys, log: seq<Event>, t: Sys)
    requires Run(s, log, t) && (t.ses.interval > 0 || t.ses.timeout == 0)
    ensures |t.book.polls| <= MostPolls(t.ses)
    ensures t.ses.interval > 0 ==> |t.book.polls| <= 1 + CeilDiv(t.ses.timeout, t.ses.interval)
  {
    PollInvHolds(s, log, t);
    if |t.book.polls| >= 2 {
      CeilDivAbove(|t.book.polls| - 2, t.ses.timeout, t.ses.interval);
    }
  }

  /** `Timeout` is returned only when every status was `NotFound` and never before the deadline; a call
      fails with `TransactionFailed` exactly when the first final status was a failure; it is
      `Executed` only when that status was a success. */
  lemma PollVerdict(s: Sys, log: seq<Event>, t: Sys)
    requires Run(s, log, t) && t.phase.Done?
    ensures t.phase.result == Err(Timeout) ==>
              t.book.polls != [] && FirstFinal(t.book.polls) == None &&
              t.book.pollStart + t.ses.timeout <= t.book.pollEnd
    ensures t.phase.result == Err(TransactionFailed) <==> FirstFinal(t.book.polls) == Some(Failed)
    ensures t.phase.result.Ok? && t.phase.result.value.Executed? ==>
              FirstFinal(t.book.polls).Some? && FirstFinal(t.book.polls).value.Success?
  {
    PollInvHolds(s, log, t);
    if AllNotFound(t.book.polls) {
      FirstFinalOfNotFound(t.book.polls);
    } else {
      FirstFinalIsLast(t.book.polls);
    }
  }

  /** Clock reads take no time, sleeps exactly the interval, and status calls at most `latency`. */
  predicate Timely(latency: nat, s: Sys, ev: Event) {
    match ev
    case Client(Get(_, _), dt) => dt <= latency
    case Client(Sleep, dt) => dt == s.ses.interval
    case Client(ReadClock, dt) => dt == 0
    case _ => true
  }

  ghost predicate TimeInv(latency: nat, t: Sys) {
    var limit := t.ses.timeout + t.ses.interval;
    && t.book.pollEnd <= t.clock
    && t.book.pollEnd <= t.book.pollStart + limit + latency
    && match t.phase
       case Polling(_, _, start) => start == t.book.pollStart && t.clock <= start + limit
       case Checking(_, _, start) => start == t.book.pollStart && t.clock <= start + limit + latency
       case Sleeping(_, _, start) => start == t.book.pollStart && t.clock < start + t.ses.timeout
       case _ => true
  }

  lemma TimeStepKeeps(latency: nat, s: Sys, e: ClientEvent, dt: nat)
    requires TimeInv(latency, s) && ClientEnabled(s, e, dt) && Timely(latency, s, Client(e, dt))
    ensures TimeInv(latency, ClientApply(s, e, dt))
  {
  }

  /** A poll ends at most one interval and one status call after its deadline. */
  lemma {:induction false} PollEndsInTime(latency: nat, s: Sys, log: seq<Event>, t: Sys)
    requires Run(s, log, t) && RunsWithin(s, log, (u, ev) => Timely(latency, u, ev))
    ensures t.book.pollEnd <= t.book.pollStart + t.ses.timeout + t.ses.interval + latency
    ensures TimeInv(latency, t)
  {
    if log != [] {
      var state, ev := Reach(s, log[..|log| - 1]).value, log[|log| - 1];
      PollEndsInTime(latency, s, log[..|log| - 1], state);
      if ev.Client? { TimeStepKeeps(latency, state, ev.e, ev.dt); }
    }
  }
}
