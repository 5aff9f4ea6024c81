/** What up-to-date account reads are worth: when an `Executed` outcome names a new transaction. */
module Freshness {
  import opened Types
  import opened Ledger
  import opened Protocol
  import opened CallSafety
  import opened Settling
  import TraceSafety

  /** The transaction the client works on or watches. */
  function InHand(phase: Phase): Option<Tx> {
    match phase
    case Preparing(_, tx) => Some(tx)
    case Signing(_, tx, _) => Some(tx)
    case Sending(_, tx, _) => Some(tx)
    case _ => Watched(phase)
  }

  /** What the client works on or watches, and what it just returned as `Executed`, is the account's, numbered
      one past `read`. */
  predicate NumberedAfter(me: Account, phase: Phase, read: Option<nat>) {
    && (InHand(phase).Some? ==>
          InHand(phase).value.source == me && read.Some? && InHand(phase).value.sequence == read.value + 1)
    && (phase.NeedExtendOp? ==> read == Some(phase.account))
    && (phase.Done? && phase.result.Ok? && phase.result.value.Executed? ==>
          var tx := phase.result.value.hash.tx;
          tx.source == me && read.Some? && tx.sequence == read.value + 1)
  }

  /** The position of the last account read. */
  ghost function LastRead(log: seq<Event>): (k: Option<nat>)
    ensures k.Some? ==> k.value < |log| && TraceSafety.IsRead(log[k.value])
  {
    if log == [] then None
    else if TraceSafety.IsRead(log[|log| - 1]) then Some(|log| - 1)
    else LastRead(log[..|log| - 1])
  }

  ghost function ReadNumber(log: seq<Event>): Option<nat> {
    if LastRead(log).Some? then log[LastRead(log).value].e.sequence else None
  }

  lemma NumberStep(s: Sys, e: ClientEvent, dt: nat, read: Option<nat>)
    requires ClientEnabled(s, e, dt) && NumberedAfter(s.ses.me, s.phase, read)
    ensures NumberedAfter(s.ses.me, ClientApply(s, e, dt).phase,
                          if e.GetAccount? && e.sequence.Some? then e.sequence else read)
  {
  }

  lemma {:induction false} NumberHolds(s: Sys, log: seq<Event>, t: Sys)
    requires Run(s, log, t)
    ensures NumberedAfter(t.ses.me, t.phase, ReadNumber(log))
  {
    if log != [] {
      var before, ev := log[..|log| - 1], log[|log| - 1];
      NumberHolds(s, before, Reach(s, before).value);
      if ev.Client? { NumberStep(Reach(s, before).value, ev.e, ev.dt, ReadNumber(before)); }
    }
  }

  /** A number the account has used up never lands again. */
  lemma {:induction false} UsedNumbersNeverLand(s: Sys, log: seq<Event>, t: Sys, k: nat, u: Sys, hash: Hash)
    requires Run(s, log, t) && k <= |log| && Run(s, log[..k], u)
    requires hash !in u.chain.receipts && hash.tx.sequence <= SequenceOf(u.chain, hash.tx.source)
    ensures hash !in t.chain.receipts
    decreases |log|
  {
    if k == |log| {
      assert log[..k] == log;
    } else {
      var before := log[..|log| - 1];
      assert before[..k] == log[..k];
      RunsGrow(s, before, Reach(s, before).value, k, u);
      UsedNumbersNeverLand(s, before, Reach(s, before).value, k, u, hash);
    }
  }

  /** Let the account stand at `n` or above in `u`, and let a transaction numbered `n + 1` be recorded later. It was
      recorded after `u` exactly if the account stood at `n`. */
  lemma RecordedLaterIffFresh(s: Sys, log: seq<Event>, t: Sys, k: nat, u: Sys, n: nat, hash: Hash)
    requires Run(s, log, t) && k <= |log| && Run(s, log[..k], u)
    requires hash in t.chain.receipts && hash.tx.sequence == n + 1 && n <= SequenceOf(u.chain, hash.tx.source)
    ensures hash !in u.chain.receipts <==> n == SequenceOf(u.chain, hash.tx.source)
  {
    ChainInvHolds(s, log[..k], u);
    if hash !in u.chain.receipts && n < SequenceOf(u.chain, hash.tx.source) {
      UsedNumbersNeverLand(s, log, t, k, u, hash);
    }
  }

  /** For every `Executed` outcome the account was read. */
  lemma ExecutedHasRead(s: Sys, log: seq<Event>, t: Sys, hash: Hash)
    requires Run(s, log, t) && t.phase.Done? && t.phase.result == Ok(Executed(hash))
    ensures LastRead(log).Some? && Reach(s, log[..LastRead(log).value]).Some?
  {
    NumberHolds(s, log, t);
    TraceSafety.ReachPrefix(s, log, LastRead(log).value);
  }

  lemma EventEnabled(s: Sys, log: seq<Event>, k: nat, u: Sys)
    requires Reach(s, log).Some? && k < |log| && Reach(s, log[..k]) == Some(u)
    ensures Enabled(u, log[k])
  {
    TraceSafety.ReachPrefix(s, log, k + 1);
    assert log[..k + 1][..k] == log[..k];
  }

  /** The exact worth of an `Executed` outcome, in every run: the transaction it names landed after the account was last
      read exactly if that read was up to date. After a stale read it names an old landing, which can be the one an
      earlier outcome named. */
  lemma ExecutedIsNewIffReadIsFresh(s: Sys, log: seq<Event>, t: Sys, hash: Hash)
    requires Run(s, log, t) && t.phase.Done? && t.phase.result == Ok(Executed(hash))
    ensures LastRead(log).Some? && Reach(s, log[..LastRead(log).value]).Some?
    ensures var k := LastRead(log).value;
            var u := Reach(s, log[..k]).value;
            && hash in t.chain.receipts && hash.tx.source == u.ses.me
            && (hash !in u.chain.receipts <==> FreshReads(u, log[k]))
  {
    ExecutedHasRead(s, log, t, hash);
    NumberHolds(s, log, t);
    var k := LastRead(log).value;
    var u := Reach(s, log[..k]).value;
    CallInvHolds(s, log, t);
    ChainInvHolds(s, log, t);
    ChainInvHolds(s, log[..k], u);
    EventEnabled(s, log, k, u);
    RecordedLaterIffFresh(s, log, t, k, u, log[k].e.sequence.value, hash);
  }

  /** The outcomes so far, in order, are recorded transactions of the account with rising numbers, all below the
      number in hand. */
  ghost predicate Rising(t: Sys) {
    && (forall i, j | 0 <= i < j < |t.book.executed| ::
          t.book.executed[i].tx.sequence < t.book.executed[j].tx.sequence)
    && (forall i | 0 <= i < |t.book.executed| ::
          && t.book.executed[i] in t.chain.receipts && t.book.executed[i].tx.source == t.ses.me
          && (InHand(t.phase).Some? ==> t.book.executed[i].tx.sequence < InHand(t.phase).value.sequence)
          && (t.phase.NeedExtendOp? ==> t.book.executed[i].tx.sequence <= t.phase.account))
  }

  lemma ReadStepRising(s: Sys, sequence: Option<nat>, dt: nat)
    requires Rising(s) && ChainInv(s.chain)
    requires ClientEnabled(s, GetAccount(sequence), dt) && FreshReads(s, Client(GetAccount(sequence), dt))
    ensures Rising(ClientApply(s, GetAccount(sequence), dt))
  {
  }

  lemma GetStepRising(s: Sys, hash: Hash, got: GetReply, dt: nat)
    requires Rising(s) && ClientEnabled(s, Get(hash, got), dt) && s.phase.tx.source == s.ses.me
    ensures Rising(ClientApply(s, Get(hash, got), dt))
  {
  }

  lemma QuietStepRising(s: Sys, e: ClientEvent, dt: nat)
    requires Rising(s) && ClientEnabled(s, e, dt) && !e.GetAccount? && !e.Get?
    ensures Rising(ClientApply(s, e, dt))
  {
    var t := ClientApply(s, e, dt);
    assert !t.phase.NeedExtendOp? && t.book.executed == s.book.executed;
    assert InHand(t.phase).Some? ==>
        if s.phase.NeedExtendOp? then InHand(t.phase).value.sequence == s.phase.account + 1
        else InHand(s.phase).Some? && InHand(t.phase).value.sequence == InHand(s.phase).value.sequence;
  }

  lemma ClientStepRising(s: Sys, e: ClientEvent, dt: nat, read: Option<nat>)
    requires Rising(s) && ChainInv(s.chain) && NumberedAfter(s.ses.me, s.phase, read)
    requires ClientEnabled(s, e, dt) && FreshReads(s, Client(e, dt))
    ensures Rising(ClientApply(s, e, dt))
  {
    match e
    case GetAccount(sequence) => ReadStepRising(s, sequence, dt);
    case Get(hash, got) => GetStepRising(s, hash, got, dt);
    case _ => QuietStepRising(s, e, dt);
  }

  /** With up-to-date account reads alone, whoever else sends from the account and whichever calls gave up before: all
      `Executed` outcomes of a run name distinct transactions, in sequence order. */
  lemma {:induction false} ExecutedHashesDistinct(s: Sys, log: seq<Event>, t: Sys)
    requires Run(s, log, t) && RunsWithin(s, log, FreshReads)
    ensures forall i, j | 0 <= i < j < |t.book.executed| ::
              t.book.executed[i].tx.sequence < t.book.executed[j].tx.sequence
    ensures Rising(t)
  {
    if log != [] {
      var before, ev := log[..|log| - 1], log[|log| - 1];
      var state := Reach(s, before).value;
      ExecutedHashesDistinct(s, before, state);
      match ev
      case Client(e, dt) =>
        ChainInvHolds(s, before, state);
        NumberHolds(s, before, state);
        ClientStepRising(state, e, dt, ReadNumber(before));
      case Env(e) => EnvGrows(state.chain, e);
    }
  }
}
