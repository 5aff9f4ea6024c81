/** What a call may send and what a returned outcome means on the ledger, for every run. */
module Outcomes {
  import opened Types
  import opened Keys
  import opened Ledger
  import opened Protocol
  import opened CallSafety

  /** `ttl::wasm_hash_of` on the entries of a ledger: the hash a live wasm instance runs. */
  function WasmHashOf(entries: Entries, now: nat, contract: ScAddress): Option<seq<byte>> {
    var key := InstanceLedgerKey(contract);
    if !LiveAt(entries, key, now) then None
    else match entries[key].value
      case Data(ContractInstance(Wasm(hash))) => Some(hash)
      case _ => None
  }

  /** A hash is found exactly if the contract's instance entry is live and runs that wasm; for every other contract,
      a Stellar asset one among them, there is none. */
  lemma WasmHashOfExact(entries: Entries, now: nat, contract: ScAddress, hash: seq<byte>)
    ensures WasmHashOf(entries, now, contract) == Some(hash) <==>
            var key := ContractData(contract, LedgerKeyContractInstance, Persistent);
            && key in entries && now <= entries[key].liveUntil
            && entries[key].value == Data(ContractInstance(Wasm(hash)))
  {
  }

  /** The job whose transaction is still to be sent. */
  function JobAhead(phase: Phase): Option<Job> {
    match phase
    case NeedOp(job) => Some(job)
    case NeedQuote(job) => Some(job)
    case NeedAccount(job, _) => Some(job)
    case NeedExtendOp(job, _) => Some(job)
    case Preparing(job, _) => Some(job)
    case Signing(job, _, _) => Some(job)
    case Sending(job, _, _) => Some(job)
    case _ => None
  }

  predicate Retrying(phase: Phase) {
    JobAhead(phase).Some? && JobAhead(phase).value.Extend? && JobAhead(phase).value.retry
  }

  predicate Creating(phase: Phase) {
    JobAhead(phase).Some? && JobAhead(phase).value.Create?
  }

  lemma MineShaped(t: Sys)
    requires CallInv(t)
    ensures AllShaped(t.ses.me, Mine(t.book))
  {
    forall i | 0 <= i < |Mine(t.book)| ensures Shaped(t.ses.me, Mine(t.book)[i].job, Mine(t.book)[i].tx) {
      assert Mine(t.book)[i] == t.book.sent[t.book.mark + i];
    }
  }

  /** `Executed { tx_hash }` names the last transaction this very call sent, that transaction does what
      the call asked (for a TTL call it is the extend, never the restore), and the ledger records it
      as successful. No send status is trusted: they are arbitrary in every run. */
  lemma ExecutedIsSound(s: Sys, log: seq<Event>, t: Sys, hash: Hash)
    requires Run(s, log, t) && t.phase.Done? && t.phase.result == Ok(Executed(hash))
    ensures Mine(t.book) != [] && Hash(Mine(t.book)[|Mine(t.book)| - 1].tx) == hash && hash.tx.source == t.ses.me
    ensures hash in t.chain.receipts && t.chain.receipts[hash].success
    ensures t.book.call.Some?
    ensures match t.book.call.value
            case ExtendCall(Ok(key), extendTo) =>
              && hash.tx.op == ExtendFootprintTtl(extendTo)
              && hash.tx.data.Some? && hash.tx.data.value.footprint == Footprint([key], [])
            case InvokeCall(contract, name, args) => hash.tx.op == InvokeContract(contract, name, args)
            case _ => false
  {
    CallInvHolds(s, log, t);
    MineShaped(t);
  }

  /** At any moment of a TTL call, finished or not: at most two `prepare` calls and two sends. A retry is
      not even built before the restore is recorded as successful, and two sends are always that
      restore and then the extend, so a failed restore leg means no extend is ever sent. */
  lemma ExtendRetriesOnce(s: Sys, log: seq<Event>, t: Sys)
    requires Run(s, log, t) && t.book.call.Some? && t.book.call.value.ExtendCall?
    ensures t.book.prepares <= 2 && |Mine(t.book)| <= 2
    ensures |Mine(t.book)| == 2 ==> Mine(t.book)[1].tx.op == ExtendFootprintTtl(t.book.call.value.extendTo)
    ensures |Mine(t.book)| == 2 || Retrying(t.phase) ==>
              |Mine(t.book)| > 0 && Mine(t.book)[0].tx.op == RestoreFootprint && Landed(t.chain, Mine(t.book)[0].tx)
  {
    CallInvHolds(s, log, t);
    MineShaped(t);
  }

  /** An extend whose first `prepare` fails otherwise than by asking for a restore ends there, as a plain simulation
      error: nothing was signed or sent. */
  lemma PlainRefusalSendsNothing(s: Sys, log: seq<Event>, u: Sys, tx: Tx, dt: nat)
    requires Run(s, log, u) && u.phase.Preparing? && u.phase.job.Extend? && !u.phase.job.retry
    requires ClientEnabled(u, Prepare(tx, PrepareFailed), dt)
    ensures var t := ClientApply(u, Prepare(tx, PrepareFailed), dt);
            && t.phase == Done(Err(Simulation), false)
            && Mine(t.book) == [] && t.book.signs == 0 && t.book.prepares == 1
  {
    CallInvHolds(s, log, u);
    assert Mine(ClientApply(u, Prepare(tx, PrepareFailed), dt).book) == Mine(u.book);
  }

  /** The retry gets one chance: whatever its `prepare` refuses with, another demand to restore included, the call
      ends there with a simulation error, having sent nothing but the restore. */
  lemma SecondRefusalIsFinal(s: Sys, log: seq<Event>, u: Sys, tx: Tx, prepared: PrepareReply, dt: nat)
    requires Run(s, log, u) && Retrying(u.phase) && !prepared.Prepared?
    requires ClientEnabled(u, Prepare(tx, prepared), dt)
    ensures var t := ClientApply(u, Prepare(tx, prepared), dt);
            && t.phase == Done(Err(Simulation), false) && t.book.prepares == 2
            && |Mine(t.book)| == 1 && Mine(t.book)[0].tx.op == RestoreFootprint
  {
    CallInvHolds(s, log, u);
    MineShaped(u);
    assert Mine(ClientApply(u, Prepare(tx, prepared), dt).book) == Mine(u.book);
  }

  /** At any moment of a TTL call, however it ends: one signer at the most, which signs a second time only after a
      restore is recorded, to send the retried extend. A returned call has sent all that was signed, so it signed
      twice exactly when it sent a restore and an extend; an `Executed` one exactly when the entry had to be
      restored. */
  lemma SignerSignsTwiceIffRestored(s: Sys, log: seq<Event>, t: Sys)
    requires Run(s, log, t) && t.book.call.Some? && t.book.call.value.ExtendCall?
    ensures t.book.signers <= 1 && t.book.signs <= 2
    ensures t.book.signs == 2 ==>
              |Mine(t.book)| > 0 && Mine(t.book)[0].tx.op == RestoreFootprint && Landed(t.chain, Mine(t.book)[0].tx)
    ensures t.phase.Done? ==> t.book.signs == |Mine(t.book)|
    ensures t.phase.Done? ==>
              (t.book.signs == 2 <==> |Mine(t.book)| == 2 && Mine(t.book)[0].tx.op == RestoreFootprint &&
                                      Mine(t.book)[1].tx.op == ExtendFootprintTtl(t.book.call.value.extendTo))
    ensures t.phase.Done? && t.phase.result.Ok? ==>
              |Mine(t.book)| > 0 && t.book.signers == 1 &&
              (t.book.signs == 2 <==> Mine(t.book)[0].tx.op == RestoreFootprint)
  {
    CallInvHolds(s, log, t);
    MineShaped(t);
  }

  /** One signer, one signature, at any moment of any call, however it ends: only a TTL call that has restored its entry
      ever has a second one. */
  lemma ExtraSignatureMeansRestored(s: Sys, log: seq<Event>, t: Sys)
    requires Run(s, log, t) && t.book.call.Some?
    ensures t.book.signs > t.book.signers ==>
              && t.book.call.value.ExtendCall? && t.book.signs == 2 && t.book.signers == 1 && |Mine(t.book)| > 0
              && Mine(t.book)[0].tx.op == RestoreFootprint && Landed(t.chain, Mine(t.book)[0].tx)
  {
    CallInvHolds(s, log, t);
    MineShaped(t);
  }

  /** An invoke sends at most one transaction. It is `Executed` only with exactly one prepare, one
      signature and one send; a no-op or a simulation error comes back with nothing signed or sent. */
  lemma InvokeSubmitsAtMostOnce(s: Sys, log: seq<Event>, t: Sys)
    requires Run(s, log, t) && t.book.call.Some? && t.book.call.value.InvokeCall?
    ensures |Mine(t.book)| <= 1 && t.book.signs <= 1
    ensures t.phase.Done? && t.phase.result.Ok? ==>
              if t.phase.result.value.SkippedNoStateChange?
              then Mine(t.book) == [] && t.book.signs == 0 && t.book.prepares == 0
              else t.phase.result.value.Executed? && |Mine(t.book)| == 1 && t.book.signs == 1 && t.book.prepares == 1
    ensures t.phase.Done? && t.phase.result == Err(Simulation) ==> Mine(t.book) == [] && t.book.signs == 0
  {
    CallInvHolds(s, log, t);
  }

  /** At any moment of a deploy: no creation is built, signed or sent unless the upload sent before it is
      recorded as successful, and the creation uses exactly the hash that upload returned. */
  lemma DeployUploadsFirst(s: Sys, log: seq<Event>, t: Sys)
    requires Run(s, log, t) && t.book.call.Some? && t.book.call.value.DeployCall?
    ensures |Mine(t.book)| <= 2
    ensures |Mine(t.book)| >= 1 ==> Mine(t.book)[0].tx.op == UploadWasm(t.book.call.value.wasm)
    ensures |Mine(t.book)| == 2 || Creating(t.phase) ==>
              |Mine(t.book)| > 0 && Landed(t.chain, Mine(t.book)[0].tx)
    ensures Creating(t.phase) ==>
              t.chain.receipts[Hash(Mine(t.book)[0].tx)].ret == Some(Bytes(JobAhead(t.phase).value.wasmHash))
    ensures |Mine(t.book)| == 2 ==>
              var ret := t.chain.receipts[Hash(Mine(t.book)[0].tx)].ret;
              && ret.Some? && ret.value.Bytes?
              && Mine(t.book)[1].tx.op == CreateContract(t.ses.me, ret.value.bytes, t.book.call.value.args)
  {
    CallInvHolds(s, log, t);
    MineShaped(t);
  }

  /** An upload that returns a hash stored the blob under it, in the one transaction it sent. */
  lemma UploadIsSound(s: Sys, log: seq<Event>, t: Sys, hash: seq<byte>)
    requires Run(s, log, t) && t.phase.Done? && t.phase.result == Ok(Uploaded(hash))
    ensures t.book.call.Some? && t.book.call.value.UploadCall? && |Mine(t.book)| == 1 && |hash| == 32
    ensures var tx, key := Mine(t.book)[0].tx, WasmLedgerKey(hash);
            && tx.op == UploadWasm(t.book.call.value.wasm) && Landed(t.chain, tx)
            && var r := t.chain.receipts[Hash(tx)];
               LiveAt(r.after, key, r.ledger) && r.after[key].value == CodeBytes(t.book.call.value.wasm)
  {
    CallInvHolds(s, log, t);
    MineShaped(t);
    ChainInvHolds(s, log, t);
    assert Lands(Mine(t.book)[0].tx, t.chain.receipts[Hash(Mine(t.book)[0].tx)]);
  }

  lemma CreateEffect(c: Chain, tx: Tx, hash: seq<byte>, address: ScAddress)
    requires ChainInv(c) && Landed(c, tx) && tx.op.CreateContract? && tx.op.wasmHash == hash
    requires c.receipts[Hash(tx)].ret == Some(Address(address))
    ensures var r := c.receipts[Hash(tx)];
            && LiveAt(r.before, WasmLedgerKey(hash), r.ledger)
            && WasmHashOf(r.before, r.ledger, address) == None
            && WasmHashOf(r.after, r.ledger, address) == Some(hash)
  {
    assert Lands(tx, c.receipts[Hash(tx)]);
  }

  /** A creation that returns an address ran the asked code there, in the one transaction it sent. */
  lemma CreateIsSound(s: Sys, log: seq<Event>, t: Sys, address: ScAddress)
    requires Run(s, log, t) && t.phase.Done? && t.phase.result == Ok(Created(address))
    ensures t.book.call.Some? && t.book.call.value.CreateCall? && |Mine(t.book)| == 1
    ensures var tx, call := Mine(t.book)[0].tx, t.book.call.value;
            && tx.op == CreateContract(t.ses.me, call.wasmHash, call.args) && Landed(t.chain, tx)
            && var r := t.chain.receipts[Hash(tx)];
               && LiveAt(r.before, WasmLedgerKey(call.wasmHash), r.ledger)
               && WasmHashOf(r.before, r.ledger, address) == None
               && WasmHashOf(r.after, r.ledger, address) == Some(call.wasmHash)
  {
    CallInvHolds(s, log, t);
    MineShaped(t);
    ChainInvHolds(s, log, t);
    CreateEffect(t.chain, Mine(t.book)[0].tx, t.book.call.value.wasmHash, address);
  }

  /** A deploy that returns an address and a hash: the blob is stored under that hash, the creation ran on
      it while its code was live, and looking the address up where the creation landed gives the hash. */
  lemma DeployIsCoherent(s: Sys, log: seq<Event>, t: Sys, address: ScAddress, hash: seq<byte>)
    requires Run(s, log, t) && t.phase.Done? && t.phase.result == Ok(Deployed(address, hash))
    ensures t.book.call.Some? && t.book.call.value.DeployCall? && |Mine(t.book)| == 2 && |hash| == 32
    ensures Landed(t.chain, Mine(t.book)[0].tx) && Landed(t.chain, Mine(t.book)[1].tx)
    ensures var upload, create :=
              t.chain.receipts[Hash(Mine(t.book)[0].tx)], t.chain.receipts[Hash(Mine(t.book)[1].tx)];
            && WasmLedgerKey(hash) in upload.after
            && upload.after[WasmLedgerKey(hash)].value == CodeBytes(t.book.call.value.wasm)
            && LiveAt(create.before, WasmLedgerKey(hash), create.ledger)
            && WasmHashOf(create.before, create.ledger, address) == None
            && WasmHashOf(create.after, create.ledger, address) == Some(hash)
  {
    CallInvHolds(s, log, t);
    MineShaped(t);
    ChainInvHolds(s, log, t);
    var mine := Mine(t.book);
    assert Lands(mine[0].tx, t.chain.receipts[Hash(mine[0].tx)]);
    CreateEffect(t.chain, mine[1].tx, hash, address);
  }
}
