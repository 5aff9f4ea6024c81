/** Outstanding transactions over whole runs: what holds as long as no call follows one that gave up. */
module Settling {
  import opened Types
  import opened Ledger
  import opened Protocol

  /** No call starts after one that gave up on a transaction it may have sent (`Timeout`, or an RPC error from the
      send or from the polling). */
  predicate SettledStarts(s: Sys, ev: Event) {
    ev.Client? && ev.e.Start? && s.phase.Done? ==> !s.phase.dangling
  }

  /** Nobody else sends from the account. */
  predicate SoleSender(s: Sys, ev: Event) {
    ev.Env? && ev.env.Foreign? ==> ev.env.source != s.ses.me
  }

  /** Account reads are up to date. */
  predicate FreshReads(s: Sys, ev: Event) {
    ev.Client? && ev.e.GetAccount? && ev.e.sequence.Some? ==> ev.e.sequence.value == SequenceOf(s.chain, s.ses.me)
  }

  /** A transaction of the client has been handed over and its fate not yet observed. */
  predicate InFlight(phase: Phase) {
    phase.Sent? || phase.Polling? || phase.Checking? || phase.Sleeping? || (phase.Done? && phase.dangling)
  }

  predicate Recorded(c: Chain, tx: Tx) { Hash(tx) in c.receipts }

  function Last(b: Book): Tx
    requires b.sent != []
  {
    b.sent[|b.sent| - 1].tx
  }

  /** The transaction whose fate is being watched. */
  function Watched(phase: Phase): Option<Tx> {
    match phase
    case Sent(_, tx) => Some(tx)
    case Polling(_, tx, _) => Some(tx)
    case Checking(_, tx, _) => Some(tx)
    case Sleeping(_, tx, _) => Some(tx)
    case _ => None
  }

  /** Every transaction sent is recorded, but for the one in flight; it is the last one that is watched; and what the
      pool holds of the account was sent by the client. */
  ghost predicate Tidy(t: Sys) {
    && (forall i | 0 <= i < |t.book.sent| ::
          (InFlight(t.phase) && i == |t.book.sent| - 1) || Recorded(t.chain, t.book.sent[i].tx))
    && (Watched(t.phase).Some? ==> t.book.sent != [] && Last(t.book) == Watched(t.phase).value)
    && (forall tx | tx in t.chain.pending && tx.source == t.ses.me :: SentBy(t.book.sent, tx))
  }

  lemma SendStepTidy(s: Sys, tx: Tx, accepted: bool, ok: bool, dt: nat)
    requires Tidy(s) && ClientEnabled(s, Send(tx, accepted, ok), dt)
    ensures Tidy(ClientApply(s, Send(tx, accepted, ok), dt))
  {
    var t := ClientApply(s, Send(tx, accepted, ok), dt);
    assert t.book.sent[|s.book.sent|].tx == tx;
    forall other | SentBy(s.book.sent, other) ensures SentBy(t.book.sent, other) {
      var i :| 0 <= i < |s.book.sent| && s.book.sent[i].tx == other;
      assert t.book.sent[i].tx == other;
    }
  }

  lemma GetStepTidy(s: Sys, hash: Hash, got: GetReply, dt: nat)
    requires Tidy(s) && ClientEnabled(s, Get(hash, got), dt)
    ensures Tidy(ClientApply(s, Get(hash, got), dt))
  {
    assert !got.NotFound? && !got.GetFailed? ==> Recorded(s.chain, Last(s.book));
  }

  lemma OtherStepTidy(s: Sys, e: ClientEvent, dt: nat)
    requires Tidy(s) && ClientEnabled(s, e, dt) && SettledStarts(s, Client(e, dt)) && !e.Send? && !e.Get?
    ensures Tidy(ClientApply(s, e, dt))
  {
    var t := ClientApply(s, e, dt);
    assert InFlight(t.phase) == InFlight(s.phase) && (Watched(t.phase).Some? ==> Watched(t.phase) == Watched(s.phase));
  }

  lemma EnvStepTidy(s: Sys, e: EnvEvent)
    requires Tidy(s) && Enabled(s, Env(e))
    ensures Tidy(Apply(s, Env(e)))
  {
    EnvGrows(s.chain, e);
  }

  lemma {:induction false} TidyHolds(s: Sys, log: seq<Event>, t: Sys)
    requires Run(s, log, t) && RunsWithin(s, log, SettledStarts)
    ensures Tidy(t)
  {
    if log != [] {
      var state, ev := Reach(s, log[..|log| - 1]).value, log[|log| - 1];
      TidyHolds(s, log[..|log| - 1], state);
      match ev
      case Env(e) => EnvStepTidy(state, e);
      case Client(Send(tx, accepted, ok), dt) => SendStepTidy(state, tx, accepted, ok, dt);
      case Client(Get(hash, got), dt) => GetStepTidy(state, hash, got, dt);
      case Client(e, dt) => OtherStepTidy(state, e, dt);
    }
  }

  lemma UnrecordedIsInFlight(t: Sys, i: nat)
    requires Tidy(t) && i < |t.book.sent| && !Recorded(t.chain, t.book.sent[i].tx)
    ensures i == |t.book.sent| - 1 && InFlight(t.phase)
  {
  }

  /** However stale the account reads and whoever else sends from the account: the client never has two unrecorded
      transactions of its own, in the pool or lost, and has none at all unless it is watching one or has just given
      up on one; so every call starts with none. All else of the account that is still in the pool is recorded
      already. */
  lemma AtMostOneOutstanding(s: Sys, log: seq<Event>, t: Sys, i: nat, j: nat)
    requires Run(s, log, t) && RunsWithin(s, log, SettledStarts)
    requires i < |t.book.sent| && !Recorded(t.chain, t.book.sent[i].tx)
    requires j < |t.book.sent| && !Recorded(t.chain, t.book.sent[j].tx)
    ensures i == j == |t.book.sent| - 1 && InFlight(t.phase)
    ensures forall tx | tx in t.chain.pending && tx.source == t.ses.me ::
              tx == t.book.sent[i].tx || Recorded(t.chain, tx)
  {
    TidyHolds(s, log, t);
    UnrecordedIsInFlight(t, i);
    UnrecordedIsInFlight(t, j);
  }

  /** A call that returns without giving up leaves nothing of its own open: everything sent is recorded, and so is
      everything of the account that is still in the pool. */
  lemma ReturnedCallsAreSettled(s: Sys, log: seq<Event>, t: Sys)
    requires Run(s, log, t) && RunsWithin(s, log, SettledStarts) && !InFlight(t.phase)
    ensures forall sub | sub in t.book.sent :: Recorded(t.chain, sub.tx)
    ensures forall tx | tx in t.chain.pending && tx.source == t.ses.me :: Recorded(t.chain, tx)
  {
    TidyHolds(s, log, t);
  }

  lemma StepGrows(s: Sys, ev: Event)
    requires Enabled(s, ev)
    ensures |s.book.sent| <= |Apply(s, ev).book.sent| && Grows(s.chain, Apply(s, ev).chain)
    ensures forall a :: SequenceOf(s.chain, a) <= SequenceOf(Apply(s, ev).chain, a)
  {
  }

  /** Along a run sends and records are only added to, and no account number falls. */
  lemma {:induction false} RunsGrow(s: Sys, log: seq<Event>, t: Sys, k: nat, u: Sys)
    requires Run(s, log, t) && k <= |log| && Run(s, log[..k], u)
    ensures |u.book.sent| <= |t.book.sent| && Grows(u.chain, t.chain)
    ensures forall a :: SequenceOf(u.chain, a) <= SequenceOf(t.chain, a)
    decreases |log|
  {
    if k == |log| {
      assert log[..k] == log;
    } else {
      var before := log[..|log| - 1];
      assert before[..k] == log[..k];
      RunsGrow(s, before, Reach(s, before).value, k, u);
      StepGrows(Reach(s, before).value, log[|log| - 1]);
    }
  }

  /** The account's history is the same, and nothing of it is new in the pool. */
  ghost predicate SameHistory(me: Account, c: Chain, d: Chain) {
    && Grows(c, d)
    && (forall h | h in d.receipts && h.tx.source == me :: h in c.receipts)
    && (forall tx | tx in d.pending && tx.source == me :: tx in c.pending)
  }

  /** Nothing was sent, and of the account the pool holds only what is recorded, which cannot land again. */
  lemma UnsentStep(c: Chain, s: Sys, ev: Event)
    requires Enabled(s, ev) && SameHistory(s.ses.me, c, s.chain)
    requires forall tx | tx in c.pending && tx.source == s.ses.me :: Recorded(c, tx)
    requires |Apply(s, ev).book.sent| == |s.book.sent|
    ensures SameHistory(s.ses.me, c, Apply(s, ev).chain)
    ensures SoleSender(s, ev) ==> SequenceOf(Apply(s, ev).chain, s.ses.me) == SequenceOf(s.chain, s.ses.me)
  {
    StepGrows(s, ev);
  }

  lemma {:induction false} UnsentLeavesNoTrace(s: Sys, log: seq<Event>, t: Sys, k: nat, u: Sys)
    requires Run(s, log, t) && k <= |log| && Run(s, log[..k], u)
    requires |t.book.sent| == |u.book.sent|
    requires forall tx | tx in u.chain.pending && tx.source == u.ses.me :: Recorded(u.chain, tx)
    ensures t.ses == u.ses && SameHistory(t.ses.me, u.chain, t.chain)
    ensures RunsWithin(s, log, SoleSender) ==> SequenceOf(t.chain, t.ses.me) == SequenceOf(u.chain, t.ses.me)
    decreases |log|
  {
    if k == |log| {
      assert log[..k] == log;
    } else {
      var before, ev := log[..|log| - 1], log[|log| - 1];
      var state := Reach(s, before).value;
      assert before[..k] == log[..k];
      RunsGrow(s, before, state, k, u);
      StepGrows(state, ev);
      UnsentLeavesNoTrace(s, before, state, k, u);
      UnsentStep(u.chain, state, ev);
    }
  }

  /** A call that sends nothing, such as a no-op invoke or a refused simulation, leaves no trace: from any point between
      calls (after `k` events) until something is sent again the account's history is unchanged and nothing of it enters
      the pool, and with no other sender its sequence number is unchanged too. */
  lemma SilentCallsLeaveNoTrace(s: Sys, log: seq<Event>, t: Sys, k: nat, u: Sys)
    requires Run(s, log, t) && k <= |log| && Run(s, log[..k], u) && RunsWithin(s, log[..k], SettledStarts)
    requires !InFlight(u.phase) && |t.book.sent| == |u.book.sent|
    ensures SameHistory(t.ses.me, u.chain, t.chain)
    ensures RunsWithin(s, log, SoleSender) ==> SequenceOf(t.chain, t.ses.me) == SequenceOf(u.chain, t.ses.me)
  {
    ReturnedCallsAreSettled(s, log[..k], u);
    UnsentLeavesNoTrace(s, log, t, k, u);
  }
}
