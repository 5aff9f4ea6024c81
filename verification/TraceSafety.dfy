/** One automaton over the client's calls that the trace of every run satisfies, whichever operations it mixes. */
module TraceSafety {
  import opened Types
  import opened Ledger
  import opened Protocol

  /** What the automaton remembers: the account read since the last send, the transaction assembled by
      the last successful `prepare` since that read, the transaction signed if the last call was a signing,
      and the hash being awaited. */
  datatype Watch = Watch(account: Option<nat>, prepared: Option<Tx>, signed: Option<Tx>, awaiting: Option<Hash>)

  const UNWATCHED: Watch := Watch(None, None, None, None)

  /** The rules: a send only of the transaction just signed, numbered one past the account read for it, and
      prepared unless it is a restore; while a hash is awaited, only its status may be asked for. */
  predicate Allowed(w: Watch, e: ClientEvent) {
    match e
    case Start(_) => true
    case Send(tx, _, _) =>
      && w.awaiting.None? && w.signed == Some(tx)
      && w.account.Some? && tx.sequence == w.account.value + 1
      && (tx.op.RestoreFootprint? || w.prepared == Some(tx))
    case Get(hash, _) => w.awaiting == Some(hash)
    case Sleep => w.awaiting.Some?
    case ReadClock => w.awaiting.Some?
    case _ => w.awaiting.None?
  }

  function Advance(w: Watch, e: ClientEvent): Watch {
    match e
    case Start(_) => UNWATCHED
    case GetAccount(Some(n)) => Watch(Some(n), None, None, w.awaiting)
    case Prepare(tx, Prepared(added, data)) => w.(prepared := Some(Assemble(tx, added, data)), signed := None)
    case Sign(tx, true) => w.(signed := Some(tx))
    case Send(tx, _, _) => Watch(None, None, None, Some(Hash(tx)))
    case Get(hash, got) => w.(signed := None, awaiting := if got.Success? || got.Failed? then None else Some(hash))
    case _ => w.(signed := None)
  }

  /** The automaton's state after a trace; none when it rejects the trace. */
  ghost function Watched(log: seq<Event>): Option<Watch> {
    if log == [] then Some(UNWATCHED)
    else
      var before, ev := Watched(log[..|log| - 1]), log[|log| - 1];
      if ev.Env? || before.None? then before
      else if Allowed(before.value, ev.e) then Some(Advance(before.value, ev.e))
      else None
  }

  /** How the automaton's state and the client's phase correspond. */
  predicate Linked(phase: Phase, w: Watch) {
    match phase
    case NeedExtendOp(job, account) => job.Extend? && w.account == Some(account) && w.awaiting.None?
    case Preparing(job, tx) =>
      !job.Restore? && w.account.Some? && tx.sequence == w.account.value + 1 && w.awaiting.None?
    case Signing(job, tx, _) =>
      && w.account.Some? && tx.sequence == w.account.value + 1 && w.awaiting.None?
      && (tx.op.RestoreFootprint? || w.prepared == Some(tx))
    case Sending(job, tx, _) =>
      && w.account.Some? && tx.sequence == w.account.value + 1 && w.awaiting.None? && w.signed == Some(tx)
      && (tx.op.RestoreFootprint? || w.prepared == Some(tx))
    case Sent(_, tx) => w.awaiting == Some(Hash(tx))
    case Polling(_, tx, _) => w.awaiting == Some(Hash(tx))
    case Checking(_, tx, _) => w.awaiting == Some(Hash(tx))
    case Sleeping(_, tx, _) => w.awaiting == Some(Hash(tx))
    case Done(_, _) => true
    case _ => w.awaiting.None?
  }

  lemma StepLinked(s: Sys, e: ClientEvent, dt: nat, w: Watch)
    requires Linked(s.phase, w) && ClientEnabled(s, e, dt)
    ensures Allowed(w, e) && Linked(ClientApply(s, e, dt).phase, Advance(w, e))
  {
  }

  /** Every trace of every run is accepted. */
  lemma {:induction false} TracesAccepted(s: Sys, log: seq<Event>, t: Sys)
    requires Run(s, log, t)
    ensures Watched(log).Some? && Linked(t.phase, Watched(log).value)
  {
    if log != [] {
      var state, ev := Reach(s, log[..|log| - 1]).value, log[|log| - 1];
      TracesAccepted(s, log[..|log| - 1], state);
      if ev.Client? { StepLinked(state, ev.e, ev.dt, Watched(log[..|log| - 1]).value); }
    }
  }

  predicate IsRead(ev: Event) { ev.Client? && ev.e.GetAccount? && ev.e.sequence.Some? }

  predicate IsSend(ev: Event) { ev.Client? && ev.e.Send? }

  predicate Assembles(ev: Event, tx: Tx) {
    ev.Client? && ev.e.Prepare? && ev.e.prepared.Prepared? &&
    Assemble(ev.e.tx, ev.e.prepared.added, ev.e.prepared.data) == tx
  }

  /** The account was last read as `n`, and nothing was sent since. */
  ghost predicate ReadBefore(log: seq<Event>, n: nat) {
    exists j :: 0 <= j < |log| && IsRead(log[j]) && log[j].e.sequence == Some(n) &&
                forall k | j < k < |log| :: !IsRead(log[k]) && !IsSend(log[k])
  }

  /** A `prepare` returned `tx`, and the account was neither read nor anything sent since. */
  ghost predicate PreparedBefore(log: seq<Event>, tx: Tx) {
    exists j :: 0 <= j < |log| && Assembles(log[j], tx) &&
                forall k | j < k < |log| :: !IsRead(log[k]) && !IsSend(log[k])
  }

  /** The client's last call was the signing of `tx`. */
  ghost predicate SignedBefore(log: seq<Event>, tx: Tx) {
    exists j :: 0 <= j < |log| && log[j].Client? && log[j].e == Sign(tx, true) &&
                forall k | j < k < |log| :: log[k].Env?
  }

  ghost predicate WatchMeans(log: seq<Event>, w: Watch) {
    && (w.account.Some? ==> ReadBefore(log, w.account.value))
    && (w.prepared.Some? ==> PreparedBefore(log, w.prepared.value))
    && (w.signed.Some? ==> SignedBefore(log, w.signed.value))
  }

  lemma ReadMeansStep(log: seq<Event>, ev: Event, n: nat)
    requires if IsRead(ev) then ev.e.sequence == Some(n) else !IsSend(ev) && ReadBefore(log, n)
    ensures ReadBefore(log + [ev], n)
  {
    var now := log + [ev];
    if IsRead(ev) {
      assert now[|log|] == ev;
    } else {
      var i :| 0 <= i < |log| && IsRead(log[i]) && log[i].e.sequence == Some(n) &&
               forall k | i < k < |log| :: !IsRead(log[k]) && !IsSend(log[k]);
      assert now[i] == log[i];
    }
  }

  lemma PreparedMeansStep(log: seq<Event>, ev: Event, tx: Tx)
    requires Assembles(ev, tx) || (!IsRead(ev) && !IsSend(ev) && PreparedBefore(log, tx))
    ensures PreparedBefore(log + [ev], tx)
  {
    var now := log + [ev];
    if Assembles(ev, tx) {
      assert now[|log|] == ev;
    } else {
      var i :| 0 <= i < |log| && Assembles(log[i], tx) &&
               forall k | i < k < |log| :: !IsRead(log[k]) && !IsSend(log[k]);
      assert now[i] == log[i];
    }
  }

  lemma SignedMeansStep(log: seq<Event>, ev: Event, tx: Tx)
    requires if ev.Client? then ev.e == Sign(tx, true) else SignedBefore(log, tx)
    ensures SignedBefore(log + [ev], tx)
  {
    var now := log + [ev];
    if ev.Client? {
      assert now[|log|] == ev;
    } else {
      var i :| 0 <= i < |log| && log[i].Client? && log[i].e == Sign(tx, true) &&
               forall k | i < k < |log| :: log[k].Env?;
      assert now[i] == log[i];
    }
  }

  lemma WatchMeansStep(log: seq<Event>, ev: Event, w: Watch)
    requires WatchMeans(log, w)
    ensures WatchMeans(log + [ev], if ev.Env? then w else Advance(w, ev.e))
  {
    var v := if ev.Env? then w else Advance(w, ev.e);
    if v.account.Some? { ReadMeansStep(log, ev, v.account.value); }
    if v.prepared.Some? { PreparedMeansStep(log, ev, v.prepared.value); }
    if v.signed.Some? { SignedMeansStep(log, ev, v.signed.value); }
  }

  lemma {:induction false} WatchMeansHolds(log: seq<Event>)
    requires Watched(log).Some?
    ensures WatchMeans(log, Watched(log).value)
  {
    if log != [] {
      var before, ev := log[..|log| - 1], log[|log| - 1];
      WatchMeansHolds(before);
      WatchMeansStep(before, ev, Watched(before).value);
      assert before + [ev] == log;
    }
  }

  lemma {:induction false} ReachPrefix(s: Sys, log: seq<Event>, i: nat)
    requires Reach(s, log).Some? && i <= |log|
    ensures Reach(s, log[..i]).Some?
  {
    if i == |log| {
      assert log[..i] == log;
    } else {
      ReachPrefix(s, log[..|log| - 1], i);
      assert log[..|log| - 1][..i] == log[..i];
    }
  }

  /** The automaton allows every call of every run where it is made. */
  lemma EventAllowed(s: Sys, log: seq<Event>, t: Sys, i: nat)
    requires Run(s, log, t) && i < |log| && log[i].Client?
    ensures Watched(log[..i]).Some? && Allowed(Watched(log[..i]).value, log[i].e)
  {
    ReachPrefix(s, log, i + 1);
    var now := log[..i + 1];
    assert now[..i] == log[..i];
    TracesAccepted(s, now, Reach(s, now).value);
  }

  /** The automaton read off the trace: at every send in every run, the client's previous call signed that same
      transaction, its number is one past the account as last read, with no send of the client in between, and
      `prepare` returned exactly that transaction after the read, unless it is a restore. */
  lemma EverySendIsReadPreparedAndSigned(s: Sys, log: seq<Event>, t: Sys, i: nat)
    requires Run(s, log, t) && i < |log| && IsSend(log[i])
    ensures SignedBefore(log[..i], log[i].e.tx)
    ensures log[i].e.tx.sequence > 0 && ReadBefore(log[..i], log[i].e.tx.sequence - 1)
    ensures log[i].e.tx.op.RestoreFootprint? || PreparedBefore(log[..i], log[i].e.tx)
  {
    EventAllowed(s, log, t, i);
    WatchMeansHolds(log[..i]);
  }

  /** The call ends, or a final status is reported. */
  predicate Settles(ev: Event) {
    ev.Client? && (ev.e.Start? || (ev.e.Get? && (ev.e.got.Success? || ev.e.got.Failed?)))
  }

  lemma {:induction false} AwaitingHolds(log: seq<Event>, i: nat)
    requires Watched(log).Some? && i < |log| && IsSend(log[i])
    requires forall k | i < k < |log| :: !Settles(log[k])
    ensures Watched(log).value.awaiting == Some(Hash(log[i].e.tx))
  {
    if i < |log| - 1 {
      AwaitingHolds(log[..|log| - 1], i);
      assert !Settles(log[|log| - 1]);
    }
  }

  /** And after a send, until its status is final or the next call starts, the client only reads its clock, sleeps,
      and asks for the status of that one transaction: it neither builds nor sends another. */
  lemma OnlyItsStatusAfterSend(s: Sys, log: seq<Event>, t: Sys, i: nat, j: nat)
    requires Run(s, log, t) && i < j < |log| && IsSend(log[i]) && log[j].Client?
    requires forall k | i < k < j :: !Settles(log[k])
    ensures log[j].e.Start? || log[j].e.ReadClock? || log[j].e.Sleep? ||
            (log[j].e.Get? && log[j].e.hash == Hash(log[i].e.tx))
  {
    EventAllowed(s, log, t, j);
    AwaitingHolds(log[..j], i);
  }
}
