/** The TTL calls: extend one ledger key, restoring it first when the simulation says so. */
module Ttl {
  import opened Types
  import opened Keys
  import opened Fees
  import opened Ledger
  import opened Protocol
  import opened CallSafety
  import opened Outcomes
  import opened Transparency
  import opened Net
  import opened Poll
  import opened TxBuilder

  /** Sign, send and poll an assembled TTL transaction. */
  method Submit(net: Network, prepared: Tx) returns (r: Result<Outcome>)
    requires net.Valid() && net.phase.Signing? && prepared == net.phase.tx && TtlJob(net.phase.job)
    modifies net
    ensures net.Valid() && SameCall(old(net.book), net.book)
    ensures r.Ok? ==> r.value == Executed(Hash(prepared)) && net.phase == Confirmed(old(net.phase).job, prepared, None)
    ensures r.Ok? ==> OnlySent(old(net.book), net.book, prepared) && Landed(net.chain, prepared)
    ensures r.Err? ==> |net.book.sent| <= |old(net.book.sent)| + 1
    ensures r.Err? ==> net.phase.Done? && net.phase.result == Err(r.error)
  {
    var signed :- net.SignTransaction(prepared);
    var hash := Hash(signed);
    var _ :- net.SendTransaction(signed);
    var _ :- PollTransactionStatus(net, hash);
    r := Ok(Executed(hash));
  }

  /** Submit the restore, with the preamble's data as it is and a fee computed by hand, without `prepare`. */
  method RestoreEntry(net: Network, resourceFee: int, restoreData: SorobanData) returns (r: Result<()>)
    requires net.Valid() && net.phase.NeedOp? && net.phase.job.Restore?
    requires net.phase.job.resourceFee == resourceFee && net.phase.job.data == restoreData
    modifies net
    ensures net.Valid() && SameCall(old(net.book), net.book)
    ensures var job := old(net.phase).job;
            r.Ok? ==> net.phase == NeedAccount(Extend(job.key, job.extendTo, true), MIN_BASE_FEE)
    ensures r.Ok? ==> exists tx ::
              && OnlySent(old(net.book), net.book, tx) && Landed(net.chain, tx)
              && tx.op == RestoreFootprint && tx.fee == RestoreFee(resourceFee) && tx.data == Some(restoreData)
    ensures r.Err? ==> |net.book.sent| <= |old(net.book.sent)| + 1
    ensures r.Err? ==> net.phase.Done? && net.phase.result == Err(r.error)
  {
    var restoreOp :- net.BuildOperation(RestoreFootprint);
    var totalFee := RestoreFee(resourceFee);
    var sequence :- net.GetAccount();
    var source := new SourceAccount(net.ses.me, sequence);
    var tx := BuildTransaction(source, restoreOp, totalFee, Some(restoreData));
    var _ :- Submit(net, tx);
    r := Ok(());
  }

  /** One attempt at the extend: read the account, build, prepare. */
  method PrepareExtend(net: Network, data: SorobanData, extendTo: nat) returns (r: Result<(Tx, PrepareReply)>)
    requires net.Valid() && net.phase.NeedAccount? && net.phase.job.Extend? && net.phase.bid == MIN_BASE_FEE
    requires net.phase.job.extendTo == extendTo && data == ExtendFootprintData(net.phase.job.key)
    modifies net
    ensures net.Valid() && NothingSent(old(net.book), net.book)
    ensures if r.Ok? then net.phase == AfterPrepare(old(net.phase).job, r.value.0, r.value.1)
            else net.phase == Stop(r.error)
    ensures r.Ok? ==> var tx := r.value.0;
              tx == Tx(net.ses.me, tx.sequence, MIN_BASE_FEE, ExtendFootprintTtl(extendTo), Some(data))
  {
    var sequence :- net.GetAccount();
    var source := new SourceAccount(net.ses.me, sequence);
    var op :- net.BuildOperation(ExtendFootprintTtl(extendTo));
    var tx := BuildTransaction(source, op, MIN_BASE_FEE, Some(data));
    var reply := net.PrepareTransaction(tx);
    r := Ok((tx, reply));
  }

  /** The transaction's footprint is exactly this key, to be read. */
  predicate Touches(tx: Tx, key: LedgerKey) {
    tx.data.Some? && tx.data.value.footprint == Footprint([key], [])
  }

  /** What an extend returns: when `Executed`, the named transaction is the extend, it is recorded as successful,
      it touched no other entry and no value, and the key reached `extendTo` exactly if it was live then. */
  ghost predicate ExtendReturned(c: Chain, key: LedgerKey, extendTo: nat, r: Result<Outcome>) {
    r.Ok? ==>
      && r.value.Executed? && r.value.hash in c.receipts && r.value.hash.tx.op == ExtendFootprintTtl(extendTo)
      && Touches(r.value.hash.tx, key)
      && var receipt := c.receipts[r.value.hash];
         && receipt.success && RaisesOnly(receipt.before, receipt.after, key)
         && (Reached(receipt.after, key, receipt.ledger, extendTo) <==> LiveAt(receipt.before, key, receipt.ledger))
  }

  method ExtendLedgerKeyTtl(net: Network, key: LedgerKey, extendTo: nat) returns (r: Result<Outcome>)
    requires net.Valid() && net.phase == NeedAccount(Extend(key, extendTo, false), MIN_BASE_FEE)
    modifies net
    ensures net.Valid() && SameCall(old(net.book), net.book)
    ensures net.phase.Done? && net.phase.result == r
    ensures ExtendReturned(net.chain, key, extendTo, r)
  {
    CallInvHolds(net.init, net.log, net.State());
    r := ExtendOrRestore(net, key, extendTo);
    if r.Ok? {
      ExecutedExtendReaches(net.init, net.log, net.State(), r.value.hash);
      ExecutedIsSound(net.init, net.log, net.State(), r.value.hash);
    }
  }

  /** The restore-then-retry core of `extend_ledger_key_ttl`: two sends at the most. */
  method ExtendOrRestore(net: Network, key: LedgerKey, extendTo: nat) returns (r: Result<Outcome>)
    requires net.Valid() && net.phase == NeedAccount(Extend(key, extendTo, false), MIN_BASE_FEE)
    modifies net
    ensures net.Valid() && SameCall(old(net.book), net.book)
    ensures net.phase.Done? && net.phase.result == r && |net.book.sent| <= |old(net.book.sent)| + 2
    ensures r.Ok? ==> r.value.Executed? && Landed(net.chain, r.value.hash.tx)
  {
    var data := ExtendFootprintData(key);
    var first :- PrepareExtend(net, data, extendTo);
    match first.1 {
      case Prepared(added, resources) =>
        r := Submit(net, Assemble(first.0, added, resources));
      case RestorationRequired(resourceFee, restoreData) =>
        var _ :- RestoreEntry(net, resourceFee, restoreData);
        var second :- PrepareExtend(net, data, extendTo);
        if !second.1.Prepared? {
          return Err(Simulation);
        }
        r := Submit(net, Assemble(second.0, second.1.added, second.1.data));
      case PrepareFailed =>
        r := Err(Simulation);
    }
  }

  /** `wasm_hash_of`: `None` for a contract that is absent, archived or not a wasm one. */
  method WasmHashOfContract(net: Network, contract: ScAddress) returns (r: Result<Option<seq<byte>>>)
    requires net.Valid()
    modifies net
    ensures net.Valid() && net.phase == old(net.phase) && (r.Err? ==> r.error == Rpc)
    ensures r.Ok? ==> r.value == WasmHashOf(net.chain.entries, net.chain.now, contract)
    ensures r.Ok? ==> forall hash ::
              r.value == Some(hash) <==>
              var key := ContractData(contract, LedgerKeyContractInstance, Persistent);
              && LiveAt(net.chain.entries, key, net.chain.now)
              && net.chain.entries[key].value == Data(ContractInstance(Wasm(hash)))
  {
    var entry :- net.ReadEntry(InstanceLedgerKey(contract));
    match entry {
      case Some(Entry(Data(ContractInstance(Wasm(hash))), _)) => r := Ok(Some(hash));
      case _ => r := Ok(None);
    }
  }

  /** `live_until_ledger`: an absent and an archived entry look the same. */
  method LiveUntilLedger(net: Network, key: LedgerKey) returns (r: Result<Option<nat>>)
    requires net.Valid()
    modifies net
    ensures net.Valid() && net.phase == old(net.phase) && (r.Err? ==> r.error == Rpc)
    ensures r.Ok? ==> (r.value.Some? <==> LiveAt(net.chain.entries, key, net.chain.now))
    ensures r.Ok? && r.value.Some? ==> r.value.value == net.chain.entries[key].liveUntil
  {
    var entry :- net.ReadEntry(key);
    r := Ok(if entry.Some? then Some(entry.value.liveUntil) else None);
  }
}
