/** `Client`: every call builds a fresh signer and hands over to the operation. */
module Clients {
  import opened Types
  import opened Keys
  import opened Ledger
  import opened Protocol
  import opened CallSafety
  import opened Outcomes
  import opened Net
  import Reference
  import Agreement
  import opened Aftermath
  import opened Ttl
  import Operations

  /** What a successful deploy leaves behind: a recorded upload that stored the blob under the hash, and a recorded
      creation by which the address ran it. */
  ghost predicate DeployReturned(c: Chain, me: Account, wasm: seq<byte>, args: seq<ScVal>,
                                 address: ScAddress, hash: seq<byte>) {
    exists upload, create ::
      && Landed(c, upload) && upload.op == Op.UploadWasm(wasm)
      && Landed(c, create) && create.op == CreateContract(me, hash, args)
      && var stored, made := c.receipts[Hash(upload)], c.receipts[Hash(create)];
         && WasmLedgerKey(hash) in stored.after && stored.after[WasmLedgerKey(hash)].value == CodeBytes(wasm)
         && WasmHashOf(made.after, made.ledger, address) == Some(hash)
  }

  /** What a returned upload leaves behind: a recorded transaction that stored the blob under the hash. */
  ghost predicate UploadReturned(c: Chain, wasm: seq<byte>, hash: seq<byte>) {
    exists tx ::
      && Landed(c, tx) && tx.op == Op.UploadWasm(wasm)
      && var stored := c.receipts[Hash(tx)].after;
         WasmLedgerKey(hash) in stored && stored[WasmLedgerKey(hash)].value == CodeBytes(wasm)
  }

  /** What a returned creation leaves behind: a recorded transaction by which the fresh address ran the code. */
  ghost predicate CreateReturned(c: Chain, me: Account, hash: seq<byte>, args: seq<ScVal>, address: ScAddress) {
    exists tx ::
      && Landed(c, tx) && tx.op == CreateContract(me, hash, args)
      && var made := c.receipts[Hash(tx)];
         && WasmHashOf(made.before, made.ledger, address) == None
         && WasmHashOf(made.after, made.ledger, address) == Some(hash)
  }

  lemma DeployReturns(s: Sys, log: seq<Event>, t: Sys, wasm: seq<byte>, args: seq<ScVal>,
                      address: ScAddress, hash: seq<byte>)
    requires Run(s, log, t) && t.phase.Done? && t.phase.result == Ok(Deployed(address, hash))
    requires t.book.call == Some(DeployCall(wasm, args))
    ensures DeployReturned(t.chain, t.ses.me, wasm, args, address, hash)
  {
    DeployUploadsFirst(s, log, t);
    DeployIsCoherent(s, log, t, address, hash);
    var upload, create := Mine(t.book)[0].tx, Mine(t.book)[1].tx;
    assert Landed(t.chain, upload) && Landed(t.chain, create);
    CallInvHolds(s, log, t);
  }

  lemma InvokeReturns(s: Sys, log: seq<Event>, t: Sys)
    requires Run(s, log, t) && t.phase.Done? && t.book.call.Some? && t.book.call.value.InvokeCall?
    ensures t.phase.result == Ok(SkippedNoStateChange) || t.phase.result == Err(Simulation) ==>
              |t.book.sent| == t.book.mark
    ensures t.phase.result.Ok? && !t.phase.result.value.SkippedNoStateChange? ==>
              && t.phase.result.value.Executed? && |t.book.sent| == t.book.mark + 1
              && var call, hash := t.book.call.value, t.phase.result.value.hash;
                 && Landed(t.chain, hash.tx) && t.book.sent[t.book.mark].tx == hash.tx
                 && hash.tx.op == Op.InvokeContract(call.contract, call.name, call.args)
  {
    InvokeSubmitsAtMostOnce(s, log, t);
    CallInvHolds(s, log, t);
    if t.phase.result.Ok? && t.phase.result.value.Executed? {
      ExecutedIsSound(s, log, t, t.phase.result.value.hash);
    }
  }

  /** Whatever call a network has just returned from, its result is what the source returns for that call, given the
      answers this network gave. */
  lemma ReturnsWhatSourceReturns(net: Network, call: Call)
    requires net.Valid() && net.phase.Done? && net.book.call == Some(call)
    ensures Agreement.LastCall(net.log) == Some(call)
    ensures Agreement.Settled(Reference.Perform(net.ses, call, Agreement.Steps(net.init.clock, net.log))) ==
            Agreement.Returned(net.phase.result)
  {
    Agreement.WalkedToHolds(net.init, net.log, net.State());
    Agreement.RunsFollowSource(net.init, net.log, net.State());
  }

  class Client {
    const net: Network

    constructor (net: Network)
      ensures this.net == net
    {
      this.net := net;
    }

    /** A call may start on a fresh client, or once the one before has returned. */
    ghost predicate Ready()
      reads net
    {
      net.Valid() && (net.phase.Idle? || net.phase.Done?)
    }

    method UploadWasm(wasm: seq<byte>) returns (r: Result<seq<byte>>)
      requires Ready()
      modifies net
      ensures Ready() && net.phase.Done?
      ensures net.phase.result == if r.Ok? then Ok(Uploaded(r.value)) else Err(r.error)
      ensures r.Ok? ==> UploadReturned(net.chain, wasm, r.value)
      ensures net.book.call == Some(UploadCall(wasm))
    {
      net.Begin(UploadCall(wasm));
      var _ :- net.BuildSigner();
      r := Operations.UploadWasm(net, wasm);
      if r.Ok? {
        UploadIsSound(net.init, net.log, net.State(), r.value);
        assert Landed(net.chain, Mine(net.book)[0].tx);
      }
    }

    method CreateContractInstance(wasmHash: seq<byte>, args: seq<ScVal>) returns (r: Result<ScAddress>)
      requires Ready()
      modifies net
      ensures Ready() && net.phase.Done?
      ensures net.phase.result == if r.Ok? then Ok(Created(r.value)) else Err(r.error)
      ensures r.Ok? ==> CreateReturned(net.chain, net.ses.me, wasmHash, args, r.value)
      ensures r.Ok? ==> LooksUp(net.State(), r.value, wasmHash)
      ensures net.book.call == Some(CreateCall(wasmHash, args))
    {
      net.Begin(CreateCall(wasmHash, args));
      var _ :- net.BuildSigner();
      r := Operations.CreateContractInstance(net, wasmHash, args);
      if r.Ok? {
        CreateIsSound(net.init, net.log, net.State(), r.value);
        CreatedLooksUp(net.init, net.log, net.State(), r.value);
        assert Landed(net.chain, Mine(net.book)[0].tx);
      }
    }

    /** Two submissions, each with a signer of its own. On success the code is stored under the returned hash and,
        where the creation landed, the address runs it. */
    method DeployContract(wasm: seq<byte>, args: seq<ScVal>) returns (r: Result<(ScAddress, seq<byte>)>)
      requires Ready()
      modifies net
      ensures Ready() && net.phase.Done?
      ensures net.phase.result == if r.Ok? then Ok(Deployed(r.value.0, r.value.1)) else Err(r.error)
      ensures r.Ok? ==> DeployReturned(net.chain, net.ses.me, wasm, args, r.value.0, r.value.1)
      ensures r.Ok? ==> LooksUp(net.State(), r.value.0, r.value.1)
      ensures net.book.call == Some(DeployCall(wasm, args))
    {
      net.Begin(DeployCall(wasm, args));
      var _ :- net.BuildSigner();
      var wasmHash :- Operations.UploadWasm(net, wasm);
      var _ :- net.BuildSigner();
      var address :- Operations.CreateContractInstance(net, wasmHash, args);
      r := Ok((address, wasmHash));
      DeployReturns(net.init, net.log, net.State(), wasm, args, address, wasmHash);
      DeployedLooksUp(net.init, net.log, net.State(), address, wasmHash);
    }

    /** A no-op or a refused simulation sends nothing; `Executed` means exactly one transaction was sent, namely the
        recorded one. */
    method InvokeContract(contract: ScAddress, name: string, args: seq<ScVal>) returns (r: Result<Outcome>)
      requires Ready()
      modifies net
      ensures Ready() && net.phase.Done? && net.phase.result == r
      ensures r == Ok(SkippedNoStateChange) || r == Err(Simulation) ==> |net.book.sent| == |old(net.book.sent)|
      ensures r.Ok? && !r.value.SkippedNoStateChange? ==>
                && r.value.Executed? && Landed(net.chain, r.value.hash.tx)
                && r.value.hash.tx.op == Op.InvokeContract(contract, name, args)
                && |net.book.sent| == |old(net.book.sent)| + 1
                && net.book.sent[|net.book.sent| - 1].tx == r.value.hash.tx
      ensures net.book.call == Some(InvokeCall(contract, name, args))
    {
      net.Begin(InvokeCall(contract, name, args));
      var _ :- net.BuildSigner();
      r := Operations.InvokeContract(net, contract, name, args);
      InvokeReturns(net.init, net.log, net.State());
    }

    /** All three TTL calls. `key` is the ledger key, or why the name or the address was refused. */
    method ExtendKey(key: Result<LedgerKey>, extendTo: nat) returns (r: Result<Outcome>)
      requires Ready() && Sensible(ExtendCall(key, extendTo))
      modifies net
      ensures Ready() && net.phase.Done? && net.phase.result == r
      ensures key.Err? ==> r.Err? && net.book.sent == old(net.book.sent)
      ensures key.Ok? ==> ExtendReturned(net.chain, key.value, extendTo, r)
      ensures net.book.call == Some(ExtendCall(key, extendTo))
    {
      net.Begin(ExtendCall(key, extendTo));
      var _ :- net.BuildSigner();
      var ledgerKey :- key;
      r := ExtendLedgerKeyTtl(net, ledgerKey, extendTo);
    }

    /** `contract` is the address parser's answer. The entry extended is the one under the vector of the name, as a
        symbol, and the details; the call is refused for a name over 32 bytes, too many details, or a bad address. */
    method ExtendTtl(contract: Option<ScAddress>, name: seq<byte>, details: seq<ScVal>, durability: Durability,
                     extendTo: nat)
      returns (r: Result<Outcome>)
      requires Ready()
      modifies net
      ensures Ready() && net.phase.Done? && net.phase.result == r
      ensures contract.Some? && SurfaceKey(Mapping(contract.value, name, details, durability)).Ok? ==>
                var key := SurfaceKey(Mapping(contract.value, name, details, durability)).value;
                ExtendReturned(net.chain, key, extendTo, r)
      ensures contract.None? || SurfaceKey(Mapping(contract.value, name, details, durability)).Err? ==>
                r.Err? && net.book.sent == old(net.book.sent)
      ensures contract.Some? && |name| <= 32 && |details| < TWO_32 - 1 ==>
                var key := ContractData(contract.value, Vec([Symbol(name)] + details), durability);
                && net.book.call == Some(ExtendCall(Ok(key), extendTo))
                && (r.Ok? ==> r.value.Executed? && Touches(r.value.hash.tx, key))
      ensures |name| > 32 || |details| >= TWO_32 - 1 ==> net.book.call == Some(ExtendCall(Err(Xdr), extendTo))
      ensures |name| <= 32 && |details| < TWO_32 - 1 && contract.None? ==>
                net.book.call == Some(ExtendCall(Err(InvalidAddress), extendTo))
    {
      MappingEntryKeyShape(name, details);
      var storageKey := MappingEntryKey(name, details);
      var key := if storageKey.Err? then Err(storageKey.error)
                 else if contract.None? then Err(InvalidAddress)
                 else Ok(ContractData(contract.value, storageKey.value, durability));
      r := ExtendKey(key, extendTo);
    }

    method ExtendInstanceTtl(contract: Option<ScAddress>, extendTo: nat) returns (r: Result<Outcome>)
      requires Ready()
      modifies net
      ensures Ready() && net.phase.Done? && net.phase.result == r
      ensures if contract.Some? then ExtendReturned(net.chain, InstanceLedgerKey(contract.value), extendTo, r)
              else r.Err? && net.book.sent == old(net.book.sent)
      ensures contract.Some? ==>
                var key := ContractData(contract.value, LedgerKeyContractInstance, Persistent);
                && net.book.call == Some(ExtendCall(Ok(key), extendTo))
                && (r.Ok? ==> r.value.Executed? && Touches(r.value.hash.tx, key))
      ensures contract.None? ==> net.book.call == Some(ExtendCall(Err(InvalidAddress), extendTo))
    {
      r := ExtendKey(if contract.None? then Err(InvalidAddress) else Ok(InstanceLedgerKey(contract.value)), extendTo);
    }

    method ExtendWasmTtl(wasmHash: seq<byte>, extendTo: nat) returns (r: Result<Outcome>)
      requires Ready()
      modifies net
      ensures Ready() && net.phase.Done? && net.phase.result == r
      ensures ExtendReturned(net.chain, WasmLedgerKey(wasmHash), extendTo, r)
      ensures net.book.call == Some(ExtendCall(Ok(ContractCode(wasmHash)), extendTo))
      ensures r.Ok? ==> r.value.Executed? && Touches(r.value.hash.tx, ContractCode(wasmHash))
    {
      r := ExtendKey(Ok(WasmLedgerKey(wasmHash)), extendTo);
    }
  }
}
