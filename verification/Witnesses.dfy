/** Runs that reach the good ends: the restore path, the invoke and the deploy are really taken. */
module Witnesses {
  import opened Types
  import opened Keys
  import opened Fees
  import opened Ledger
  import opened Protocol
  import opened CallSafety
  import opened Transparency
  import opened Limits

  /** A run goes on by one client event that takes no time. */
  lemma Do(s: Sys, log: seq<Event>, t: Sys, e: ClientEvent) returns (log': seq<Event>, t': Sys)
    requires Run(s, log, t) && ClientEnabled(t, e, 0)
    ensures Run(s, log', t') && t' == ClientApply(t, e, 0)
  {
    StepRun(s, log, t, Client(e, 0));
    log', t' := log + [Client(e, 0)], ClientApply(t, e, 0);
  }

  /** The transaction just sent lands successfully, leaves the entries `after`, and is polled once. */
  lemma LandAndPoll(s: Sys, log: seq<Event>, t: Sys, ret: Option<ScVal>, after: Entries)
    returns (log': seq<Event>, t': Sys)
    requires Run(s, log, t) && t.phase.Sent? && t.phase.tx in t.chain.pending && SentBy(Mine(t.book), t.phase.tx)
    requires EnvEnabled(t.chain, Land(t.phase.tx, true, ret, after))
    ensures Run(s, log', t') && t'.ses == t.ses && t'.phase == Confirmed(t.phase.job, t.phase.tx, ret)
    ensures t'.chain == EnvApply(t.chain, Land(t.phase.tx, true, ret, after))
    ensures t'.book.sent == t.book.sent && t'.book.mark == t.book.mark && t'.book.moved == t.book.moved
    ensures t'.book.call == t.book.call
    ensures Counts(t'.book, t.book.signers, t.book.prepares, t.book.signs)
  {
    var land := Env(Land(t.phase.tx, true, ret, after));
    StepRun(s, log, t, land);
    var log1, t1 := log + [land], Apply(t, land);
    var log2, t2 := Do(s, log1, t1, ReadClock);
    log', t' := Do(s, log2, t2, Get(Hash(t.phase.tx), Success(ret)));
  }

  lemma SignAndSend(s: Sys, log: seq<Event>, t: Sys) returns (log': seq<Event>, t': Sys)
    requires Run(s, log, t) && t.phase.Signing?
    ensures var tx := t.phase.tx;
            var sub := Submission(t.phase.job, tx, t.phase.bid, t.book.quote, Hash(tx) in t.chain.receipts);
            && Run(s, log', t') && t'.ses == t.ses && t'.phase == Phase.Sent(t.phase.job, tx)
            && t'.chain == t.chain.(pending := t.chain.pending + {tx})
            && t'.book == t.book.(sent := t.book.sent + [sub], signs := t.book.signs + 1)
  {
    log', t' := Do(s, log, t, Sign(t.phase.tx, true));
    log', t' := Do(s, log', t', Send(t.phase.tx, true, true));
  }

  /** A first call of a fresh client, up to its first phase after the signer. */
  lemma Called(s: Sys, call: Call) returns (log: seq<Event>, t: Sys)
    requires Init(s) && Sensible(call)
    ensures Run(s, log, t) && t.ses == s.ses && t.chain == s.chain && t.phase == FirstPhase(call)
    ensures t.book.call == Some(call) && t.book.sent == [] && t.book.mark == 0 && t.book.moved == {}
    ensures Counts(t.book, 1, 0, 0)
  {
    log, t := Do(s, [], s, Start(call));
    log, t := Do(s, log, t, BuildSigner(true));
  }

  /** A client with account number 3 at ledger 7, on a ledger with these entries and nothing else. */
  function Beginning(ses: Session, entries: Entries): Sys {
    Sys(ses, Chain(7, map[ses.me := 3], entries, {}, map[]), 0, Idle,
        Book([], [], None, 0, map[], {}, 0, 0, 0, FeeError, 0, 0, []))
  }

  /** An extend job from its account read, at number `n`, to its signing. */
  lemma ExtendToSign(s: Sys, log: seq<Event>, t: Sys, n: nat, added: nat, data: SorobanData)
    returns (log': seq<Event>, t': Sys)
    requires Run(s, log, t) && t.phase.NeedAccount? && t.phase.job.Extend? && t.phase.bid == MIN_BASE_FEE
    requires t.ses.me in t.chain.sequences && n == t.chain.sequences[t.ses.me]
    requires data.footprint == Footprint([t.phase.job.key], [])
    ensures var job := t.phase.job;
            && Run(s, log', t') && t'.ses == t.ses && t'.chain == t.chain
            && t'.phase == Signing(job, Assemble(Build(t.ses, job, n, MIN_BASE_FEE), added, data), MIN_BASE_FEE)
            && t'.book == t.book.(prepares := t.book.prepares + 1)
  {
    log', t' := Do(s, log, t, GetAccount(Some(n)));
    log', t' := Do(s, log', t', BuildOp(true));
    log', t' := Do(s, log', t', Prepare(Build(t.ses, t.phase.job, n, MIN_BASE_FEE), Prepared(added, data)));
  }

  /** A first extend, told that its entry, expired one ledger ago, has to be restored. */
  lemma ToldToRestore(ses: Session, key: LedgerKey, extendTo: nat, fee: int, data: SorobanData)
    returns (s: Sys, log: seq<Event>, t: Sys)
    requires -TWO_63 <= fee < TWO_63 && data.footprint.readWrite == [key]
    ensures s == Beginning(ses, map[key := Entry(Data(Void), 6)])
    ensures Run(s, log, t) && t.ses == ses && t.chain == s.chain
    ensures t.phase == NeedOp(Restore(key, extendTo, fee, data))
    ensures t.book.call == Some(ExtendCall(Ok(key), extendTo)) && t.book.sent == [] && t.book.mark == 0
    ensures t.book.moved == {} && Counts(t.book, 1, 1, 0)
  {
    s := Beginning(ses, map[key := Entry(Data(Void), 6)]);
    log, t := Called(s, ExtendCall(Ok(key), extendTo));
    log, t := Do(s, log, t, GetAccount(Some(3)));
    log, t := Do(s, log, t, BuildOp(true));
    log, t := Do(s, log, t, Prepare(Build(ses, Extend(key, extendTo, false), 3, MIN_BASE_FEE),
                                    RestorationRequired(fee, data)));
  }

  lemma RestoreSent(ses: Session, key: LedgerKey, extendTo: nat, fee: int, data: SorobanData)
    returns (s: Sys, log: seq<Event>, t: Sys)
    requires -TWO_63 <= fee < TWO_63 && data.footprint.readWrite == [key]
    ensures s == Beginning(ses, map[key := Entry(Data(Void), 6)]) && Run(s, log, t) && t.ses == ses
    ensures var job := Restore(key, extendTo, fee, data);
            var tx := Tx(ses.me, 4, Min(100 + Max(fee, 0), TWO_32 - 1), RestoreFootprint, Some(data));
            && t.phase == Phase.Sent(job, tx)
            && t.chain == Chain(7, map[ses.me := 3], map[key := Entry(Data(Void), 6)], {tx}, map[])
            && |t.book.sent| == 1 && t.book.sent[0].tx == tx && !t.book.sent[0].already
    ensures t.book.call == Some(ExtendCall(Ok(key), extendTo)) && t.book.mark == 0 && t.book.moved == {}
    ensures Counts(t.book, 1, 1, 1)
  {
    s, log, t := ToldToRestore(ses, key, extendTo, fee, data);
    RestoreFeeExact(fee);
    log, t := Do(s, log, t, BuildOp(true));
    log, t := Do(s, log, t, GetAccount(Some(3)));
    log, t := SignAndSend(s, log, t);
  }

  /** The restore lands and makes the entry live, and the extend is retried. */
  lemma Restored(ses: Session, key: LedgerKey, extendTo: nat, fee: int, data: SorobanData)
    returns (s: Sys, log: seq<Event>, t: Sys)
    requires Restorable(key) && -TWO_63 <= fee < TWO_63 && data.footprint.readWrite == [key]
    ensures s == Beginning(ses, map[key := Entry(Data(Void), 6)]) && Run(s, log, t) && t.ses == ses
    ensures t.phase == NeedAccount(Extend(key, extendTo, true), MIN_BASE_FEE)
    ensures t.chain.now == 7 && t.chain.sequences == map[ses.me := 4]
    ensures t.chain.entries == map[key := Entry(Data(Void), 7)]
    ensures forall h | h in t.chain.receipts :: h.tx.op == RestoreFootprint
    ensures t.book.call == Some(ExtendCall(Ok(key), extendTo)) && t.book.mark == 0 && t.book.moved == {}
    ensures |t.book.sent| == 1 && !t.book.sent[0].already && Counts(t.book, 1, 1, 1)
    ensures t.book.sent[0].tx == Tx(ses.me, 4, Min(100 + Max(fee, 0), TWO_32 - 1), RestoreFootprint, Some(data))
  {
    s, log, t := RestoreSent(ses, key, extendTo, fee, data);
    assert Mine(t.book)[0].tx == t.phase.tx;
    log, t := LandAndPoll(s, log, t, None, map[key := Entry(Data(Void), 7)]);
  }

  /** The restore path is really taken, for every client, restorable key and target, every resource fee and data of
      the preamble, and everything the retry's `prepare` adds: there is a run in which one call restores an expired
      entry and extends it, with nobody else changing anything and with both transactions new. Its one signer signs
      twice, the restore is the preamble's at the fee it calls for, and `extendTo` is reached. */
  lemma RestoredCallSignsTwice(ses: Session, key: LedgerKey, extendTo: nat, fee: int, data: SorobanData,
                               added: nat, resources: SorobanData)
    requires Restorable(key) && -TWO_63 <= fee < TWO_63 && data.footprint.readWrite == [key]
    requires resources.footprint == Footprint([key], [])
    ensures exists s, log, t, hash ::
              && Run(s, log, t) && t.ses == ses && t.phase == Done(Ok(Executed(hash)), false)
              && t.book.call == Some(ExtendCall(Ok(key), extendTo)) && !LiveAt(s.chain.entries, key, s.chain.now)
              && Counts(t.book, 1, 2, 2) && |Mine(t.book)| == 2 && t.book.moved == {}
              && !Mine(t.book)[0].already && !Mine(t.book)[1].already
              && Mine(t.book)[0].tx ==
                   Tx(ses.me, 4, Min(100 + Max(fee, 0), TWO_32 - 1), RestoreFootprint, Some(data))
              && Mine(t.book)[1].tx ==
                   Tx(ses.me, 5, 100 + added, ExtendFootprintTtl(extendTo), Some(resources))
              && Reached(t.chain.entries, key, t.chain.now, extendTo)
  {
    var s, log, t := Restored(ses, key, extendTo, fee, data);
    log, t := ExtendToSign(s, log, t, 4, added, resources);
    log, t := SignAndSend(s, log, t);
    assert Mine(t.book) == t.book.sent && t.book.sent[1].tx == t.phase.tx;
    var hash := Hash(t.phase.tx);
    log, t := LandAndPoll(s, log, t, None, map[key := Entry(Data(Void), Max(7, extendTo))]);
    assert Mine(t.book) == t.book.sent;
    assert Run(s, log, t) && t.phase == Done(Ok(Executed(hash)), false);
  }

  /** A deploy or invoke job from its fee quote to its send, at account number `n`. */
  lemma QuoteToSend(s: Sys, log: seq<Event>, t: Sys, n: nat, quote: FeeReply, added: nat, data: SorobanData)
    returns (log': seq<Event>, t': Sys)
    requires Run(s, log, t) && t.phase.NeedQuote? && (t.phase.job.Invoke? || t.phase.job.Upload? || t.phase.job.Create?)
    requires t.ses.me in t.chain.sequences && n == t.chain.sequences[t.ses.me]
    ensures var job := t.phase.job;
            var tx := Tx(t.ses.me, n + 1, InclusionFee(quote) + added, OpOf(t.ses.me, job), Some(data));
            && Run(s, log', t') && t'.ses == t.ses && t'.phase == Phase.Sent(job, tx)
            && t'.chain == t.chain.(pending := t.chain.pending + {tx})
            && |t'.book.sent| == |t.book.sent| + 1 && t'.book.sent[|t.book.sent|].tx == tx
            && t'.book.sent[..|t.book.sent|] == t.book.sent && t'.book.mark == t.book.mark
            && t'.book.call == t.book.call && t'.book.moved == t.book.moved
  {
    var tx := Build(t.ses, t.phase.job, n, InclusionFee(quote));
    log', t' := Do(s, log, t, FeeStats(quote));
    log', t' := Do(s, log', t', GetAccount(Some(n)));
    log', t' := Do(s, log', t', Prepare(tx, Prepared(added, data)));
    log', t' := SignAndSend(s, log', t');
  }

  /** A state-changing invoke really is submitted, for every call, fee quote, and everything `prepare` adds. */
  lemma InvokeExecutes(ses: Session, contract: ScAddress, name: string, args: seq<ScVal>, quote: FeeReply,
                       added: nat, data: SorobanData)
    ensures exists s, log, t, hash ::
              && Run(s, log, t) && t.ses == ses && t.phase == Done(Ok(Executed(hash)), false)
              && t.book.call == Some(InvokeCall(contract, name, args))
              && hash.tx == Tx(ses.me, 4, InclusionFee(quote) + added, InvokeContract(contract, name, args), Some(data))
  {
    var s := Beginning(ses, map[]);
    var job := Invoke(contract, name, args);
    var log, t := Called(s, InvokeCall(contract, name, args));
    log, t := Do(s, log, t, BuildOp(true));
    log, t := Do(s, log, t, GetAccount(Some(3)));
    log, t := Do(s, log, t, Simulate(Build(ses, job, 3, MIN_BASE_FEE), StateChange));
    log, t := QuoteToSend(s, log, t, 3, quote, added, data);
    assert Mine(t.book)[0].tx == t.phase.tx;
    var hash := Hash(t.phase.tx);
    log, t := LandAndPoll(s, log, t, None, map[]);
    assert Run(s, log, t) && t.phase == Done(Ok(Executed(hash)), false);
  }

  lemma UploadSent(ses: Session, call: Call, wasm: seq<byte>, deploy: Option<seq<ScVal>>, quote: FeeReply, added: nat,
                   data: SorobanData)
    returns (s: Sys, log: seq<Event>, t: Sys)
    requires FirstPhase(call) == NeedOp(Upload(wasm, deploy)) && !call.ExtendCall?
    ensures s == Beginning(ses, map[]) && Run(s, log, t) && t.ses == ses && t.book.call == Some(call)
    ensures var tx := Tx(ses.me, 4, InclusionFee(quote) + added, UploadWasm(wasm), Some(data));
            && t.phase == Phase.Sent(Upload(wasm, deploy), tx)
            && t.chain == Chain(7, map[ses.me := 3], map[], {tx}, map[])
            && t.book.mark == 0 && |t.book.sent| == 1 && t.book.sent[0].tx == tx
  {
    s := Beginning(ses, map[]);
    log, t := Called(s, call);
    log, t := Do(s, log, t, BuildOp(true));
    log, t := QuoteToSend(s, log, t, 3, quote, added, data);
  }

  /** An upload that lands, up to what follows on its confirmation. */
  lemma UploadLands(ses: Session, call: Call, wasm: seq<byte>, deploy: Option<seq<ScVal>>, hash: seq<byte>,
                    quote: FeeReply, added: nat, data: SorobanData)
    returns (s: Sys, log: seq<Event>, t: Sys)
    requires FirstPhase(call) == NeedOp(Upload(wasm, deploy)) && !call.ExtendCall? && |hash| == 32
    ensures s == Beginning(ses, map[]) && Run(s, log, t) && t.ses == ses && t.book.call == Some(call)
    ensures t.phase == if deploy.None? then Done(Ok(Uploaded(hash)), false) else NeedCreateSigner(hash, deploy.value)
    ensures t.chain.now == 7 && t.chain.sequences == map[ses.me := 4]
    ensures t.chain.entries == map[WasmLedgerKey(hash) := Entry(CodeBytes(wasm), 7)]
    ensures forall h | h in t.chain.receipts :: h.tx.op == UploadWasm(wasm)
    ensures t.book.mark == 0 && |t.book.sent| == 1
  {
    s, log, t := UploadSent(ses, call, wasm, deploy, quote, added, data);
    var after := map[WasmLedgerKey(hash) := Entry(CodeBytes(wasm), 7)];
    assert Mine(t.book)[0].tx == t.phase.tx;
    assert Uploads(7, wasm, Some(Bytes(hash)), map[], after);
    log, t := LandAndPoll(s, log, t, Some(Bytes(hash)), after);
  }

  /** A deploy really returns, for every blob, hash, arguments and address, and everything the network quotes and
      adds. */
  lemma DeployReturns(ses: Session, wasm: seq<byte>, args: seq<ScVal>, hash: seq<byte>, address: ScAddress,
                      quote: FeeReply, added: nat, data: SorobanData)
    requires |hash| == 32
    ensures exists s, log, t ::
              && Run(s, log, t) && t.ses == ses && t.phase == Done(Ok(Deployed(address, hash)), false)
              && t.book.call == Some(DeployCall(wasm, args)) && |Mine(t.book)| == 2
  {
    var s, log, t := UploadLands(ses, DeployCall(wasm, args), wasm, Some(args), hash, quote, added, data);
    log, t := Do(s, log, t, BuildSigner(true));
    log, t := Do(s, log, t, BuildOp(true));
    log, t := QuoteToSend(s, log, t, 4, quote, added, data);
    assert Mine(t.book)[1].tx == t.phase.tx;
    var instance := Entry(Data(ContractInstance(Wasm(hash))), 7);
    log, t := LandAndPoll(s, log, t, Some(Address(address)), t.chain.entries[InstanceLedgerKey(address) := instance]);
    assert Run(s, log, t) && t.phase == Done(Ok(Deployed(address, hash)), false);
  }

  /** And an upload on its own. */
  lemma UploadReturns(ses: Session, wasm: seq<byte>, hash: seq<byte>, quote: FeeReply, added: nat, data: SorobanData)
    requires |hash| == 32
    ensures exists s, log, t ::
              && Run(s, log, t) && t.ses == ses && t.phase == Done(Ok(Uploaded(hash)), false)
              && t.book.call == Some(UploadCall(wasm))
  {
    var s, log, t := UploadLands(ses, UploadCall(wasm), wasm, None, hash, quote, added, data);
    assert Run(s, log, t) && t.phase == Done(Ok(Uploaded(hash)), false);
  }
}
