/** `invoke_contract`, `upload_wasm` and `create_contract_instance`. */
module Operations {
  import opened Types
  import opened Keys
  import opened Fees
  import opened Ledger
  import opened Protocol
  import opened Net
  import opened TxBuilder

  /** Simulate, return early on an error or when nothing would change, otherwise submit. */
  method InvokeContract(net: Network, contract: ScAddress, name: string, args: seq<ScVal>) returns (r: Result<Outcome>)
    requires net.Valid() && net.phase == NeedOp(Invoke(contract, name, args))
    modifies net
    ensures net.Valid() && SameCall(old(net.book), net.book)
    ensures net.phase.Done? && net.phase.result == r
  {
    var built :- net.BuildOperation(Op.InvokeContract(contract, name, args));
    var simulation :- BuildAndSimulate(net, built, MIN_BASE_FEE);
    if simulation.SimulationError? {
      return Err(Simulation);
    }
    if simulation.NoStateChange? {
      return Ok(SkippedNoStateChange);
    }
    var quote := net.GetFeeStats();
    var landed :- PrepareAndSend(net, built, InclusionFee(quote));
    r := Ok(Executed(landed.0));
  }

  /** Upload a blob and decode the 32-byte hash that comes back. */
  method UploadWasm(net: Network, wasm: seq<byte>) returns (r: Result<seq<byte>>)
    requires net.Valid() && net.phase.NeedOp? && net.phase.job.Upload? && net.phase.job.wasm == wasm
    modifies net
    ensures net.Valid() && SameCall(old(net.book), net.book)
    ensures var deploy := old(net.phase).job.deploy;
            r.Ok? ==> net.phase == if deploy.None? then Done(Ok(Uploaded(r.value)), false)
                                   else NeedCreateSigner(r.value, deploy.value)
    ensures r.Err? ==> net.phase.Done? && net.phase.result == Err(r.error)
  {
    var op :- net.BuildOperation(Op.UploadWasm(wasm));
    var quote := net.GetFeeStats();
    var landed :- PrepareAndSend(net, op, InclusionFee(quote));
    r := DecodeWasmHash(landed.1);
  }

  /** Create an instance of uploaded code and decode its address. */
  method CreateContractInstance(net: Network, wasmHash: seq<byte>, args: seq<ScVal>) returns (r: Result<ScAddress>)
    requires net.Valid() && net.phase.NeedOp? && net.phase.job.Create?
    requires net.phase.job.wasmHash == wasmHash && net.phase.job.args == args
    modifies net
    ensures net.Valid() && SameCall(old(net.book), net.book)
    ensures r.Ok? ==> net.phase == Done(Ok(if old(net.phase).job.deployed then Deployed(r.value, wasmHash)
                                           else Created(r.value)), false)
    ensures r.Err? ==> net.phase.Done? && net.phase.result == Err(r.error)
  {
    var op :- net.BuildOperation(CreateContract(net.ses.me, wasmHash, args));
    var quote := net.GetFeeStats();
    var landed :- PrepareAndSend(net, op, InclusionFee(quote));
    r := DecodeAddress(landed.1);
  }
}
