/** Where the obvious claims stop: runs in which an `Executed` extend has no effect, a poll asks without end, and a hash
    comes back although nothing has landed. */
module Limits {
  import opened Types
  import opened Keys
  import opened Fees
  import opened Ledger
  import opened Protocol
  import opened CallSafety
  import opened FeeSafety
  import opened Outcomes
  import opened PollSafety
  import opened Transparency

  lemma StepRun(s: Sys, log: seq<Event>, t: Sys, ev: Event)
    requires Run(s, log, t) && Enabled(t, ev)
    ensures Run(s, log + [ev], Apply(t, ev))
  {
    var now := log + [ev];
    assert now[..|now| - 1] == log && now[|now| - 1] == ev;
    assert Reach(s, now) == Some(Apply(t, ev));
  }

  /** The extend a client builds when told the account stands at `n` and `prepare` adds `added` and `data`. */
  function ExtendTx(ses: Session, key: LedgerKey, extendTo: nat, n: nat, added: nat, data: SorobanData): Tx {
    Assemble(Build(ses, Extend(key, extendTo, false), n, MIN_BASE_FEE), added, data)
  }

  function ExtendScript(ses: Session, key: LedgerKey, extendTo: nat, n: nat, added: nat, data: SorobanData,
                        accepted: bool): seq<ClientEvent> {
    var tx := ExtendTx(ses, key, extendTo, n, added, data);
    [Start(ExtendCall(Ok(key), extendTo)), BuildSigner(true), GetAccount(Some(n)), BuildOp(true),
     Prepare(Build(ses, Extend(key, extendTo, false), n, MIN_BASE_FEE), Prepared(added, data)),
     Sign(tx, true), Send(tx, accepted, true), ReadClock]
  }

  /** After each event of the script, in order. */
  function ExtendPhases(ses: Session, key: LedgerKey, extendTo: nat, n: nat, added: nat, data: SorobanData,
                        clock: nat): seq<Phase> {
    var tx, job := ExtendTx(ses, key, extendTo, n, added, data), Extend(key, extendTo, false);
    [NeedSigner(ExtendCall(Ok(key), extendTo)), NeedAccount(job, MIN_BASE_FEE), NeedExtendOp(job, n),
     Preparing(job, Build(ses, job, n, MIN_BASE_FEE)), Signing(job, tx, MIN_BASE_FEE),
     Phase.Sending(job, tx, MIN_BASE_FEE), Phase.Sent(job, tx), Polling(job, tx, clock)]
  }

  /** `u` is `t` after the first `i` events of the script. */
  ghost predicate ScriptAt(t: Sys, key: LedgerKey, extendTo: nat, n: nat, added: nat, data: SorobanData, accepted: bool,
                           i: nat, u: Sys)
    requires i <= 8
  {
    var tx := ExtendTx(t.ses, key, extendTo, n, added, data);
    && u.ses == t.ses && u.clock == t.clock
    && u.phase == (if i == 0 then t.phase else ExtendPhases(t.ses, key, extendTo, n, added, data, t.clock)[i - 1])
    && u.chain == (if i >= 7 && accepted then t.chain.(pending := t.chain.pending + {tx}) else t.chain)
    && u.book.executed == t.book.executed
    && (i > 0 ==> u.book.call == Some(ExtendCall(Ok(key), extendTo)) && u.book.polls == [])
  }

  lemma ScriptStep(t: Sys, key: LedgerKey, extendTo: nat, n: nat, added: nat, data: SorobanData, accepted: bool,
                   i: nat, u: Sys)
    requires i < 8 && ScriptAt(t, key, extendTo, n, added, data, accepted, i, u)
    requires (t.phase.Idle? || t.phase.Done?) && data.footprint == Footprint([key], [])
    requires t.ses.me in t.chain.sequences && n <= t.chain.sequences[t.ses.me]
    ensures var ev := Client(ExtendScript(t.ses, key, extendTo, n, added, data, accepted)[i], 0);
            Enabled(u, ev) && ScriptAt(t, key, extendTo, n, added, data, accepted, i + 1, Apply(u, ev))
  {
  }

  /** From any point between calls, an undisturbed extend of a live key comes to its first status call. */
  lemma ExtendStarts(s: Sys, log: seq<Event>, t: Sys, key: LedgerKey, extendTo: nat, n: nat, added: nat,
                     data: SorobanData, accepted: bool)
    returns (more: seq<Event>, u: Sys)
    requires Run(s, log, t) && (t.phase.Idle? || t.phase.Done?)
    requires t.ses.me in t.chain.sequences && n <= t.chain.sequences[t.ses.me]
    requires data.footprint == Footprint([key], [])
    ensures Run(s, log + more, u) && ScriptAt(t, key, extendTo, n, added, data, accepted, 8, u)
  {
    var script := ExtendScript(t.ses, key, extendTo, n, added, data, accepted);
    more, u := [], t;
    assert log + more == log;
    for i := 0 to 8
      invariant Run(s, log + more, u) && ScriptAt(t, key, extendTo, n, added, data, accepted, i, u)
    {
      var ev := Client(script[i], 0);
      ScriptStep(t, key, extendTo, n, added, data, accepted, i, u);
      StepRun(s, log + more, u, ev);
      assert log + (more + [ev]) == log + more + [ev];
      more, u := more + [ev], Apply(u, ev);
    }
  }

  /** A first extend on a ledger that holds its key until now, brought to its first status call. */
  lemma ExtendInFlight(ses: Session, key: LedgerKey, extendTo: nat) returns (s: Sys, log: seq<Event>, t: Sys)
    ensures Run(s, log, t) && t.ses == ses && t.book.polls == [] && t.phase.Polling? && t.phase.start == t.clock
    ensures t.phase.job == Extend(key, extendTo, false)
    ensures var tx := t.phase.tx;
            && tx in t.chain.pending && tx.source in t.chain.sequences
            && tx.sequence == t.chain.sequences[tx.source] + 1 && Hash(tx) !in t.chain.receipts
            && tx.op == ExtendFootprintTtl(extendTo)
            && tx.data.Some? && tx.data.value.footprint == Footprint([key], [])
    ensures key in t.chain.entries && t.chain.entries[key].liveUntil == t.chain.now
    ensures t.book.call == Some(ExtendCall(Ok(key), extendTo))
  {
    var chain := Chain(7, map[ses.me := 3], map[key := Entry(Data(Void), 7)], {}, map[]);
    s := Sys(ses, chain, 0, Idle, Book([], [], None, 0, map[], {}, 0, 0, 0, FeeError, 0, 0, []));
    log, t := ExtendStarts(s, [], s, key, extendTo, 3, 0, ExtendFootprintData(key), true);
    assert [] + log == log;
  }

  /** The entry expires while the extend is in flight, which then lands without effect. */
  lemma ExpiredLanding(ses: Session, key: LedgerKey, extendTo: nat) returns (s: Sys, log: seq<Event>, t: Sys)
    ensures Run(s, log, t) && t.ses == ses && t.phase.Polling? && t.phase.job == Extend(key, extendTo, false)
    ensures t.book.call == Some(ExtendCall(Ok(key), extendTo)) && Landed(t.chain, t.phase.tx)
    ensures !LiveAt(t.chain.entries, key, t.chain.receipts[Hash(t.phase.tx)].ledger)
  {
    var log0, t0;
    s, log0, t0 := ExtendInFlight(ses, key, extendTo);
    StepRun(s, log0, t0, Env(Close));
    var log1, t1 := log0 + [Env(Close)], Apply(t0, Env(Close));
    var land := Land(t0.phase.tx, true, None, t1.chain.entries);
    StepRun(s, log1, t1, Env(land));
    log, t := log1 + [Env(land)], Apply(t1, Env(land));
  }

  /** Why the reach results ask that the key is live as the extend lands: if it expires after `prepare`, the
      call still returns `Executed`, and the entry stays as expired as it was. */
  lemma ExpiryDefeatsExtend(ses: Session, key: LedgerKey, extendTo: nat)
    ensures exists s, log, t, hash ::
              && Run(s, log, t) && t.ses == ses && t.phase == Done(Ok(Executed(hash)), false)
              && t.book.call == Some(ExtendCall(Ok(key), extendTo))
              && hash in t.chain.receipts && !Reached(t.chain.entries, key, t.chain.receipts[hash].ledger, extendTo)
  {
    var s, log, t := ExpiredLanding(ses, key, extendTo);
    var got := Client(Get(Hash(t.phase.tx), Success(None)), 0);
    StepRun(s, log, t, got);
    assert Run(s, log + [got], Apply(t, got)) && Apply(t, got).phase == Done(Ok(Executed(Hash(t.phase.tx))), false);
  }

  /** Why the call bound asks for a positive interval: with interval zero and a clock that stands still,
      one poll may ask any number of times. */
  lemma {:induction false} ZeroIntervalIsUnbounded(ses: Session, key: LedgerKey, extendTo: nat, n: nat)
    requires ses.interval == 0 && ses.timeout > 0
    ensures exists s, log, t ::
              && Run(s, log, t) && t.ses == ses && |t.book.polls| == n
              && t.phase.Polling? && t.clock == t.phase.start
  {
    if n == 0 {
      var s, log, t := ExtendInFlight(ses, key, extendTo);
    } else {
      ZeroIntervalIsUnbounded(ses, key, extendTo, n - 1);
      var s, log0, t0 :| Run(s, log0, t0) && t0.ses == ses && |t0.book.polls| == n - 1 &&
                         t0.phase.Polling? && t0.clock == t0.phase.start;
      var get, read, sleep :=
        Client(Get(Hash(t0.phase.tx), NotFound), 0), Client(ReadClock, 0), Client(Sleep, 0);
      StepRun(s, log0, t0, get);
      var log1, t1 := log0 + [get], Apply(t0, get);
      StepRun(s, log1, t1, read);
      var log2, t2 := log1 + [read], Apply(t1, read);
      StepRun(s, log2, t2, sleep);
      assert Run(s, log2 + [sleep], Apply(t2, sleep));
    }
  }

  /** No run of this client makes more than `bound` status calls in one poll. */
  ghost predicate PollsAtMost(ses: Session, bound: nat) {
    forall s, log, t | Run(s, log, t) && t.ses == ses :: |t.book.polls| <= bound
  }

  /** Exactly when one poll has a bound on its status calls: some time must pass between two, or none may be left. */
  lemma PollBoundExact(ses: Session)
    ensures (exists bound: nat :: PollsAtMost(ses, bound)) <==> ses.interval > 0 || ses.timeout == 0
  {
    if ses.interval > 0 || ses.timeout == 0 {
      forall s, log, t | Run(s, log, t) && t.ses == ses ensures |t.book.polls| <= MostPolls(ses) {
        PollCallsBounded(s, log, t);
      }
      assert PollsAtMost(ses, MostPolls(ses));
    } else if bound: nat :| PollsAtMost(ses, bound) {
      ZeroIntervalIsUnbounded(ses, WasmLedgerKey([]), 0, bound + 1);
    }
  }

  lemma ExecutedTransaction(s: Sys, log: seq<Event>, t: Sys, hash: Hash)
    requires Run(s, log, t) && t.phase.Done? && t.phase.result == Ok(Executed(hash))
    requires t.book.call.Some? && t.book.call.value.ExtendCall?
    ensures t.book.call.value.key.Ok? && Landed(t.chain, hash.tx)
    ensures var tx, key := hash.tx, t.book.call.value.key.value;
            && tx.source == t.ses.me && tx.sequence > 0 && tx.fee >= 100
            && tx.op == ExtendFootprintTtl(t.book.call.value.extendTo)
            && tx.data.Some? && tx.data.value.footprint == Footprint([key], [])
            && tx.source in t.chain.sequences && tx.sequence <= t.chain.sequences[tx.source]
  {
    ExecutedIsSound(s, log, t, hash);
    CallInvHolds(s, log, t);
    ChainInvHolds(s, log, t);
    BidsAreFair(s, log, t);
    MineShaped(t);
  }

  /** Why distinct hashes need up-to-date account reads: after any `Executed` TTL call, the same call made
      again may be told the old account number, and then returns the same hash once more, `Executed`,
      although nothing has landed and the ledger is exactly as it was. */
  lemma StaleReadRepeatsHash(s: Sys, log: seq<Event>, t: Sys, hash: Hash)
    requires Run(s, log, t) && t.phase == Done(Ok(Executed(hash)), false)
    requires t.book.call.Some? && t.book.call.value.ExtendCall?
    ensures exists more, u ::
              && Run(s, log + more, u) && u.phase == Done(Ok(Executed(hash)), false)
              && u.chain == t.chain && u.book.executed == t.book.executed + [hash]
  {
    ExecutedTransaction(s, log, t, hash);
    var key, extendTo, tx := t.book.call.value.key.value, t.book.call.value.extendTo, hash.tx;
    var more, u := ExtendStarts(s, log, t, key, extendTo, tx.sequence - 1, tx.fee - 100, tx.data.value, false);
    assert u.phase.tx == tx;
    var got := Client(Get(hash, Success(None)), 0);
    StepRun(s, log + more, u, got);
    assert log + (more + [got]) == log + more + [got];
    assert Run(s, log + (more + [got]), Apply(u, got));
  }
}
