/** Sequence numbers over whole runs of calls made one after the other. */
module Sequencing {
  import opened Types
  import opened Ledger
  import opened Protocol
  import opened CallSafety
  import opened Settling
  import opened Freshness

  /** The pool holds no transaction of the account but the one in flight, while it has not landed; what the client works
      on is numbered past all that is recorded; and nothing was sent that was recorded already. */
  ghost predicate AllNew(t: Sys) {
    && (forall tx | tx in t.chain.pending && tx.source == t.ses.me ::
          InFlight(t.phase) && t.book.sent != [] && tx == Last(t.book) && !Recorded(t.chain, tx))
    && (InHand(t.phase).Some? && !InFlight(t.phase) ==>
          && InHand(t.phase).value.source == t.ses.me
          && PastRecords(t.chain, t.ses.me, InHand(t.phase).value.sequence))
    && (t.phase.NeedExtendOp? ==> PastRecords(t.chain, t.ses.me, t.phase.account + 1))
    && (forall i | 0 <= i < |t.book.sent| :: !t.book.sent[i].already)
  }

  ghost predicate PastRecords(c: Chain, me: Account, sequence: nat) {
    forall h | h in c.receipts && h.tx.source == me :: h.tx.sequence < sequence
  }

  lemma EnvStepNew(s: Sys, e: EnvEvent)
    requires AllNew(s) && Enabled(s, Env(e))
    ensures AllNew(Apply(s, Env(e)))
  {
    if e.Land? && e.tx.source == s.ses.me {
      assert InFlight(s.phase);
    }
  }

  lemma SendStepNew(s: Sys, tx: Tx, accepted: bool, ok: bool, dt: nat)
    requires AllNew(s) && ClientEnabled(s, Send(tx, accepted, ok), dt)
    ensures AllNew(ClientApply(s, Send(tx, accepted, ok), dt))
  {
    assert Hash(tx) !in s.chain.receipts;
  }

  lemma ReadStepNew(s: Sys, sequence: Option<nat>, dt: nat)
    requires AllNew(s) && ChainInv(s.chain)
    requires ClientEnabled(s, GetAccount(sequence), dt) && FreshReads(s, Client(GetAccount(sequence), dt))
    ensures AllNew(ClientApply(s, GetAccount(sequence), dt))
  {
  }

  /** From one phase to the next, neither reading the account nor sending: what is in hand keeps its number. */
  predicate Carries(me: Account, p: Phase, q: Phase) {
    && (InFlight(q) ==> InFlight(p)) && !q.NeedExtendOp?
    && (InHand(q).Some? && !InFlight(q) ==>
          if p.NeedExtendOp? then InHand(q).value.source == me && InHand(q).value.sequence == p.account + 1
          else !InFlight(p) && InHand(p).Some? && InHand(q).value.source == InHand(p).value.source &&
               InHand(q).value.sequence == InHand(p).value.sequence)
  }

  lemma OtherStepCarries(s: Sys, e: ClientEvent, dt: nat)
    requires ClientEnabled(s, e, dt) && SettledStarts(s, Client(e, dt)) && !e.Send? && !e.GetAccount?
    ensures Carries(s.ses.me, s.phase, ClientApply(s, e, dt).phase)
  {
  }

  lemma OtherStepNew(s: Sys, t: Sys)
    requires AllNew(s) && Tidy(t) && Carries(s.ses.me, s.phase, t.phase)
    requires t.chain == s.chain && t.ses == s.ses && t.book.sent == s.book.sent
    ensures AllNew(t)
  {
  }

  lemma {:induction false} AllNewHolds(s: Sys, log: seq<Event>, t: Sys)
    requires Run(s, log, t) && RunsWithin(s, log, SettledStarts) && RunsWithin(s, log, FreshReads)
    ensures AllNew(t)
  {
    if log != [] {
      var before, ev := log[..|log| - 1], log[|log| - 1];
      var state := Reach(s, before).value;
      AllNewHolds(s, before, state);
      match ev
      case Env(e) => EnvStepNew(state, e);
      case Client(Send(tx, accepted, ok), dt) => SendStepNew(state, tx, accepted, ok, dt);
      case Client(GetAccount(sequence), dt) =>
        ChainInvHolds(s, before, state);
        ReadStepNew(state, sequence, dt);
      case Client(e, dt) =>
        TidyHolds(s, log, t);
        OtherStepCarries(state, e, dt);
        OtherStepNew(state, t);
    }
  }

  /** With up-to-date reads and settled starts, whoever else sends from the account: the client never sends what is
      recorded already, and the pool holds nothing of the account but the one transaction in flight, while it has
      not landed. */
  lemma SendsAreNew(s: Sys, log: seq<Event>, t: Sys)
    requires Run(s, log, t) && RunsWithin(s, log, SettledStarts) && RunsWithin(s, log, FreshReads)
    ensures forall sub | sub in t.book.sent :: !sub.already
    ensures forall tx | tx in t.chain.pending && tx.source == t.ses.me ::
              InFlight(t.phase) && t.book.sent != [] && tx == Last(t.book) && !Recorded(t.chain, tx)
  {
    AllNewHolds(s, log, t);
  }

  /** The runs in which numbers are exact: account reads are up to date, nobody else sends from the account, and no call
      starts after one that gave up. */
  ghost predicate Disciplined(s: Sys, log: seq<Event>) {
    RunsWithin(s, log, SettledStarts) && RunsWithin(s, log, FreshReads) && RunsWithin(s, log, SoleSender)
  }

  /** The transactions sent so far are numbered from `base` up, without a gap; the account's number counts exactly those
      that landed; and what the client works on carries the next number. */
  ghost predicate Orderly(t: Sys, base: nat) {
    var q, n := SequenceOf(t.chain, t.ses.me), |t.book.sent|;
    && (forall i | 0 <= i < n :: t.book.sent[i].tx.source == t.ses.me && t.book.sent[i].tx.sequence == base + 1 + i)
    && (if !InFlight(t.phase) then q == base + n
        else n > 0 && q == base + n - (if Recorded(t.chain, Last(t.book)) then 0 else 1))
    && (InHand(t.phase).Some? && !InFlight(t.phase) ==>
          InHand(t.phase).value.source == t.ses.me && InHand(t.phase).value.sequence == q + 1)
    && (t.phase.NeedExtendOp? ==> t.phase.account == q)
  }

  lemma EnvStepOrderly(s: Sys, e: EnvEvent, base: nat)
    requires Orderly(s, base) && AllNew(s) && Enabled(s, Env(e)) && SoleSender(s, Env(e))
    ensures Orderly(Apply(s, Env(e)), base)
  {
    if e.Land? && e.tx.source == s.ses.me {
      assert e.tx == Last(s.book);
    }
  }

  lemma SendStepOrderly(s: Sys, tx: Tx, accepted: bool, ok: bool, dt: nat, base: nat)
    requires Orderly(s, base) && AllNew(s) && ClientEnabled(s, Send(tx, accepted, ok), dt)
    ensures Orderly(ClientApply(s, Send(tx, accepted, ok), dt), base)
  {
    assert Hash(tx) !in s.chain.receipts;
  }

  lemma ReadStepOrderly(s: Sys, sequence: Option<nat>, dt: nat, base: nat)
    requires Orderly(s, base)
    requires ClientEnabled(s, GetAccount(sequence), dt) && FreshReads(s, Client(GetAccount(sequence), dt))
    ensures Orderly(ClientApply(s, GetAccount(sequence), dt), base)
  {
  }

  lemma OtherStepOrderly(s: Sys, t: Sys, base: nat)
    requires Orderly(s, base) && Tidy(t) && Carries(s.ses.me, s.phase, t.phase)
    requires t.chain == s.chain && t.ses == s.ses && t.book.sent == s.book.sent
    ensures Orderly(t, base)
  {
  }

  lemma {:induction false} OrderlyHolds(s: Sys, log: seq<Event>, t: Sys)
    requires Run(s, log, t) && Disciplined(s, log)
    ensures Orderly(t, SequenceOf(s.chain, s.ses.me))
  {
    if log != [] {
      var base := SequenceOf(s.chain, s.ses.me);
      var before, ev := log[..|log| - 1], log[|log| - 1];
      var state := Reach(s, before).value;
      OrderlyHolds(s, before, state);
      AllNewHolds(s, before, state);
      match ev
      case Env(e) => EnvStepOrderly(state, e, base);
      case Client(Send(tx, accepted, ok), dt) => SendStepOrderly(state, tx, accepted, ok, dt, base);
      case Client(GetAccount(sequence), dt) => ReadStepOrderly(state, sequence, dt, base);
      case Client(e, dt) =>
        TidyHolds(s, log, t);
        OtherStepCarries(state, e, dt);
        OtherStepOrderly(state, t, base);
    }
  }

  /** Sequence freshness: every transaction the client sends carries exactly the account's sequence number
      plus one at that moment, so over the whole run its transactions are numbered one after the other
      across restores, extends, deploys and invokes, and a call uses one number for each transaction it sends. */
  lemma SequencesAreGapFree(s: Sys, log: seq<Event>, t: Sys)
    requires Run(s, log, t) && Disciplined(s, log)
    ensures forall i | 0 <= i < |t.book.sent| ::
              && t.book.sent[i].tx.source == s.ses.me
              && t.book.sent[i].tx.sequence == SequenceOf(s.chain, s.ses.me) + 1 + i
    ensures t.phase.Sending? ==> t.phase.tx.sequence == SequenceOf(t.chain, s.ses.me) + 1
    ensures !InFlight(t.phase) ==>
              SequenceOf(t.chain, s.ses.me) == SequenceOf(s.chain, s.ses.me) + |t.book.sent|
  {
    OrderlyHolds(s, log, t);
    ChainInvHolds(s, log, t);
  }
}
