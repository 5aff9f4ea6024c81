/** What a call's last landing left behind still stands when the call returns, where nobody else changed it. */
module Aftermath {
  import opened Types
  import opened Keys
  import opened Ledger
  import opened Protocol
  import opened CallSafety
  import opened Outcomes
  import opened Transparency

  /** Every entry nobody else changed since the call began is as the call's last landing left it. */
  ghost predicate LastStands(t: Sys) {
    var mine := Mine(t.book);
    && t.book.mark <= |t.book.sent|
    && (mine != [] && LandedSince(mine[|mine| - 1], t.chain) ==>
          forall k | k !in t.book.moved ::
            SameEntry(t.chain.receipts[Hash(mine[|mine| - 1].tx)].after, t.chain.entries, k))
  }

  /** What a call has sent and is not yet recorded can only be the transaction it sent last. */
  lemma OpenIsLast(call: Call, mine: seq<Submission>, c: Chain, tx: Tx)
    requires WellSent(call, mine, c) && SentBy(mine, tx) && Hash(tx) !in c.receipts
    ensures mine != [] && mine[|mine| - 1].tx == tx
  {
  }

  lemma OwnLandingStands(s: Sys, e: EnvEvent)
    requires LastStands(s) && CallInv(s) && e.Land? && EnvEnabled(s.chain, e) && SentBy(Mine(s.book), e.tx)
    ensures LastStands(s.(chain := EnvApply(s.chain, e)))
  {
    OpenIsLast(s.book.call.value, Mine(s.book), s.chain, e.tx);
  }

  lemma OtherMoveStands(s: Sys, t: Sys)
    requires LastStands(s) && Grows(s.chain, t.chain)
    requires forall i | 0 <= i < |Mine(s.book)| ::
               Hash(Mine(s.book)[i].tx) in t.chain.receipts ==> Hash(Mine(s.book)[i].tx) in s.chain.receipts
    requires s.book.moved <= t.book.moved && Changed(s.chain.entries, t.chain.entries) <= t.book.moved
    requires t.book == s.book.(moved := t.book.moved)
    ensures LastStands(t)
  {
    assert Mine(t.book) == Mine(s.book);
    ChangedIsExact(s.chain.entries, t.chain.entries);
  }

  lemma EnvKeepsLast(s: Sys, e: EnvEvent)
    requires LastStands(s) && CallInv(s) && Enabled(s, Env(e))
    ensures LastStands(Apply(s, Env(e)))
  {
    var t := Apply(s, Env(e));
    if e.Land? && SentBy(Mine(s.book), e.tx) {
      OwnLandingStands(s, e);
    } else {
      if !e.Land? && !e.Foreign? { ChangedIsExact(s.chain.entries, t.chain.entries); }
      OtherMoveStands(s, t);
    }
  }

  lemma ClientKeepsLast(s: Sys, e: ClientEvent, dt: nat)
    requires LastStands(s) && ClientEnabled(s, e, dt)
    ensures LastStands(ClientApply(s, e, dt))
  {
    var t := ClientApply(s, e, dt);
    if e.Send? {
      var sub := Submission(s.phase.job, e.tx, s.phase.bid, s.book.quote, Hash(e.tx) in s.chain.receipts);
      MineGrows(s.book, t.book, sub);
    } else if e.Start? {
      assert Mine(t.book) == [];
    } else {
      assert Mine(t.book) == Mine(s.book);
    }
  }

  lemma {:induction false} LastStandsHolds(s: Sys, log: seq<Event>, t: Sys)
    requires Run(s, log, t)
    ensures LastStands(t)
  {
    if log != [] {
      var before := log[..|log| - 1];
      var state, ev := Reach(s, before).value, log[|log| - 1];
      LastStandsHolds(s, before, state);
      match ev
      case Client(e, dt) => ClientKeepsLast(state, e, dt);
      case Env(e) =>
        CallInvHolds(s, before, state);
        EnvKeepsLast(state, e);
    }
  }

  /** The returned address can be looked up: if the creation was not recorded before it was sent and nobody else changed
      the instance since the call began, then on the ledger as the call returns `wasm_hash_of` gives the hash exactly
      while the instance is live. */
  ghost predicate LooksUp(t: Sys, address: ScAddress, hash: seq<byte>) {
    var mine, key := Mine(t.book), InstanceLedgerKey(address);
    mine != [] && !mine[|mine| - 1].already && key !in t.book.moved ==>
      && key in t.chain.entries
      && WasmHashOf(t.chain.entries, t.chain.now, address) ==
           if LiveAt(t.chain.entries, key, t.chain.now) then Some(hash) else None
  }

  lemma CreationLooksUp(t: Sys, tx: Tx, address: ScAddress, hash: seq<byte>)
    requires LastStands(t) && Landed(t.chain, tx) && Mine(t.book) != [] && Mine(t.book)[|Mine(t.book)| - 1].tx == tx
    requires tx.op.CreateContract? && tx.op.wasmHash == hash && Lands(tx, t.chain.receipts[Hash(tx)])
    requires t.chain.receipts[Hash(tx)].ret == Some(Address(address))
    ensures LooksUp(t, address, hash)
  {
  }

  /** In every run a deploy that returned can be looked up at its end. */
  lemma DeployedLooksUp(s: Sys, log: seq<Event>, t: Sys, address: ScAddress, hash: seq<byte>)
    requires Run(s, log, t) && t.phase.Done? && t.phase.result == Ok(Deployed(address, hash))
    ensures Mine(t.book) != [] && LooksUp(t, address, hash)
  {
    CallInvHolds(s, log, t);
    ChainInvHolds(s, log, t);
    MineShaped(t);
    LastStandsHolds(s, log, t);
    CreationLooksUp(t, Mine(t.book)[|Mine(t.book)| - 1].tx, address, hash);
  }

  /** And so can a creation on its own. */
  lemma CreatedLooksUp(s: Sys, log: seq<Event>, t: Sys, address: ScAddress)
    requires Run(s, log, t) && t.phase.Done? && t.phase.result == Ok(Created(address))
    ensures Mine(t.book) != [] && t.book.call.Some? && t.book.call.value.CreateCall?
    ensures LooksUp(t, address, t.book.call.value.wasmHash)
  {
    CallInvHolds(s, log, t);
    ChainInvHolds(s, log, t);
    MineShaped(t);
    LastStandsHolds(s, log, t);
    CreationLooksUp(t, Mine(t.book)[|Mine(t.book)| - 1].tx, address, t.book.call.value.wasmHash);
  }

  /** The uploaded blob is still stored at the end of its upload, unless somebody else changed the entry. */
  lemma UploadedIsStored(s: Sys, log: seq<Event>, t: Sys, hash: seq<byte>)
    requires Run(s, log, t) && t.phase.Done? && t.phase.result == Ok(Uploaded(hash))
    requires WasmLedgerKey(hash) !in t.book.moved
    ensures Mine(t.book) != [] && t.book.call.Some? && t.book.call.value.UploadCall?
    ensures !Mine(t.book)[|Mine(t.book)| - 1].already ==>
              && WasmLedgerKey(hash) in t.chain.entries
              && t.chain.entries[WasmLedgerKey(hash)].value == CodeBytes(t.book.call.value.wasm)
  {
    UploadIsSound(s, log, t, hash);
    LastStandsHolds(s, log, t);
  }
}
