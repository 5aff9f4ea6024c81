/** The crate's calls read straight off the source: what each of them asks for next and what it returns, as a function
    of the answers it gets. Nothing here refers to the state machine of `Protocol`; module `Agreement` proves that every
    run of that machine does and returns exactly this. */
module Reference {
  import opened Types
  import opened Keys
  import opened Fees
  import opened Ledger
  import opened Protocol

  /** A call out with its answer, and the time it was made. */
  datatype Step = Step(e: ClientEvent, at: nat)

  /** What becomes of a piece of the source given the answers: a value or an error, with the answers it did not use; not
      done yet; or some other call was made than the source makes. */
  datatype Part<+T> =
    | Gave(value: T, rest: seq<Step>)
    | Threw(error: Error, rest: seq<Step>)
    | Pending
    | Astray
  {
    predicate IsFailure() { !Gave? }

    function PropagateFailure<U>(): (r: Part<U>)
      requires !Gave?
      ensures !r.Gave?
    {
      match this
      case Threw(error, rest) => Threw(error, rest)
      case Pending => Pending
      case Astray => Astray
    }

    function Extract(): (T, seq<Step>)
      requires Gave?
    {
      (value, rest)
    }
  }

  function AskSigner(steps: seq<Step>): (p: Part<()>)
    ensures p.Gave? ==> |p.rest| < |steps|
  {
    if steps == [] then Pending
    else match steps[0].e
      case BuildSigner(ok) => if ok then Gave((), steps[1..]) else Threw(Signer, steps[1..])
      case _ => Astray
  }

  function AskOp(steps: seq<Step>): (p: Part<()>)
    ensures p.Gave? ==> |p.rest| < |steps|
  {
    if steps == [] then Pending
    else match steps[0].e
      case BuildOp(ok) => if ok then Gave((), steps[1..]) else Threw(Xdr, steps[1..])
      case _ => Astray
  }

  function AskAccount(steps: seq<Step>): (p: Part<nat>)
    ensures p.Gave? ==> |p.rest| < |steps|
  {
    if steps == [] then Pending
    else match steps[0].e
      case GetAccount(Some(n)) => Gave(n, steps[1..])
      case GetAccount(None) => Threw(Rpc, steps[1..])
      case _ => Astray
  }

  function AskSimulate(tx: Tx, steps: seq<Step>): (p: Part<SimulateReply>)
    ensures p.Gave? ==> |p.rest| < |steps|
  {
    if steps == [] then Pending
    else match steps[0].e
      case Simulate(asked, reply) => if asked == tx then Gave(reply, steps[1..]) else Astray
      case _ => Astray
  }

  /** The fee asked for, with the floor for a failed call and for a percentile that is no number. */
  function AskFee(steps: seq<Step>): (p: Part<nat>)
    ensures p.Gave? ==> |p.rest| < |steps|
  {
    if steps == [] then Pending
    else match steps[0].e
      case FeeStats(FeeError) => Gave(100, steps[1..])
      case FeeStats(FeeP90(text)) =>
        Gave(if ParseU32(text).Some? then Max(ParseU32(text).value, 100) else 100, steps[1..])
      case _ => Astray
  }

  function AskPrepare(tx: Tx, steps: seq<Step>): (p: Part<PrepareReply>)
    ensures p.Gave? ==> |p.rest| < |steps|
  {
    if steps == [] then Pending
    else match steps[0].e
      case Prepare(asked, reply) => if asked == tx then Gave(reply, steps[1..]) else Astray
      case _ => Astray
  }

  function AskSign(tx: Tx, steps: seq<Step>): (p: Part<()>)
    ensures p.Gave? ==> |p.rest| < |steps|
  {
    if steps == [] then Pending
    else match steps[0].e
      case Sign(asked, ok) =>
        if asked != tx then Astray else if ok then Gave((), steps[1..]) else Threw(Signer, steps[1..])
      case _ => Astray
  }

  function AskSend(tx: Tx, steps: seq<Step>): (p: Part<()>)
    ensures p.Gave? ==> |p.rest| < |steps|
  {
    if steps == [] then Pending
    else match steps[0].e
      case Send(asked, _, ok) =>
        if asked != tx then Astray else if ok then Gave((), steps[1..]) else Threw(Rpc, steps[1..])
      case _ => Astray
  }

  function AskClock(steps: seq<Step>): (p: Part<nat>)
    ensures p.Gave? ==> |p.rest| < |steps|
  {
    if steps == [] then Pending
    else match steps[0].e
      case ReadClock => Gave(steps[0].at, steps[1..])
      case _ => Astray
  }

  function AskSleep(steps: seq<Step>): (p: Part<()>)
    ensures p.Gave? ==> |p.rest| < |steps|
  {
    if steps == [] then Pending
    else match steps[0].e
      case Sleep => Gave((), steps[1..])
      case _ => Astray
  }

  function AskStatus(hash: Hash, steps: seq<Step>): (p: Part<GetReply>)
    ensures p.Gave? ==> |p.rest| < |steps| && !p.value.GetFailed?
  {
    if steps == [] then Pending
    else match steps[0].e
      case Get(asked, reply) =>
        if asked != hash then Astray
        else if reply.GetFailed? then Threw(Rpc, steps[1..])
        else Gave(reply, steps[1..])
      case _ => Astray
  }

  /** src/poll.rs:24-40, from a status answered on. */
  function PollLoop(deadline: nat, hash: Hash, response: GetReply, steps: seq<Step>): (p: Part<Option<ScVal>>)
    requires !response.GetFailed?
    ensures p.Gave? ==> |p.rest| <= |steps|
    ensures p.Threw? ==> p.error == Rpc || p.error == Timeout || p.error == TransactionFailed
    decreases |steps|, 0
  {
    match response
    case Success(ret) => Gave(ret, steps)
    case Failed => Threw(TransactionFailed, steps)
    case NotFound =>
      var now :- AskClock(steps);
      if now.0 >= deadline then Threw(Timeout, now.1)
      else
        var slept :- AskSleep(now.1);
        PollOnce(deadline, hash, slept.1)
  }

  /** One status call and what follows. */
  function PollOnce(deadline: nat, hash: Hash, steps: seq<Step>): (p: Part<Option<ScVal>>)
    ensures p.Gave? ==> |p.rest| <= |steps|
    ensures p.Threw? ==> p.error == Rpc || p.error == Timeout || p.error == TransactionFailed
    decreases |steps|, 1
  {
    var status :- AskStatus(hash, steps);
    PollLoop(deadline, hash, status.0, status.1)
  }

  /** src/poll.rs:16-41. */
  function Poll(ses: Session, hash: Hash, steps: seq<Step>): (p: Part<Option<ScVal>>)
    ensures p.Gave? ==> |p.rest| <= |steps|
    ensures p.Threw? ==> p.error == Rpc || p.error == Timeout || p.error == TransactionFailed
  {
    var now :- AskClock(steps);
    PollOnce(now.0 + ses.timeout, hash, now.1)
  }

  /** Sign, send and poll: src/ttl.rs:396-404 and src/txbuilder.rs:47-55. */
  function Submit(ses: Session, tx: Tx, steps: seq<Step>): (p: Part<Option<ScVal>>)
    ensures p.Gave? ==> |p.rest| <= |steps|
    ensures p.Threw? ==> p.error == Signer || p.error == Rpc || p.error == Timeout || p.error == TransactionFailed
  {
    var signed :- AskSign(tx, steps);
    var sent :- AskSend(tx, signed.1);
    Poll(ses, Hash(tx), sent.1)
  }

  /** src/txbuilder.rs:25-57. */
  function PrepareAndSend(ses: Session, op: Op, fee: nat, steps: seq<Step>): Part<(Tx, Option<ScVal>)> {
    var account :- AskAccount(steps);
    var reply :- AskPrepare(Tx(ses.me, account.0 + 1, fee, op, None), account.1);
    match reply.0
    case Prepared(added, data) =>
      var tx := Tx(ses.me, account.0 + 1, fee + added, op, Some(data));
      var landed :- Submit(ses, tx, reply.1);
      Gave((tx, landed.0), landed.1)
    case _ => Threw(Simulation, reply.1)
  }

  /** One attempt at an extend: src/ttl.rs:334-345. The transaction comes back with the reply. */
  function PrepareExtend(ses: Session, key: LedgerKey, extendTo: nat, steps: seq<Step>): Part<(Tx, PrepareReply)> {
    var account :- AskAccount(steps);
    var op :- AskOp(account.1);
    var tx := Tx(ses.me, account.0 + 1, 100, ExtendFootprintTtl(extendTo),
                 Some(SorobanData(Footprint([key], []), 0, 0, 0, 0)));
    var reply :- AskPrepare(tx, op.1);
    Gave((tx, reply.0), reply.1)
  }

  /** The assembled extend is submitted, and its hash returned. */
  function SubmitExtend(ses: Session, tx: Tx, added: nat, data: SorobanData, steps: seq<Step>): Part<Outcome> {
    var assembled := Tx(tx.source, tx.sequence, tx.fee + added, tx.op, Some(data));
    var landed :- Submit(ses, assembled, steps);
    Gave(Executed(Hash(assembled)), landed.1)
  }

  /** src/ttl.rs:414-445. */
  function RestoreEntry(ses: Session, resourceFee: int, data: SorobanData, steps: seq<Step>): Part<()> {
    var op :- AskOp(steps);
    var account :- AskAccount(op.1);
    var fee := Min(100 + Max(resourceFee, 0), TWO_32 - 1);
    var landed :- Submit(ses, Tx(ses.me, account.0 + 1, fee, RestoreFootprint, Some(data)), account.1);
    Gave((), landed.1)
  }

  /** From the first reply on: src/ttl.rs:345-383. */
  function AfterReply(ses: Session, key: LedgerKey, extendTo: nat, tx: Tx, reply: PrepareReply, steps: seq<Step>)
    : Part<Outcome>
  {
    match reply
    case Prepared(added, data) => SubmitExtend(ses, tx, added, data, steps)
    case PrepareFailed => Threw(Simulation, steps)
    case RestorationRequired(fee, data) =>
      var restored :- RestoreEntry(ses, fee, data, steps);
      var second :- PrepareExtend(ses, key, extendTo, restored.1);
      match second.0.1
      case Prepared(added, resources) => SubmitExtend(ses, second.0.0, added, resources, second.1)
      case _ => Threw(Simulation, second.1)
  }

  /** src/ttl.rs:319-384. */
  function RunExtend(ses: Session, key: LedgerKey, extendTo: nat, steps: seq<Step>): Part<Outcome> {
    var first :- PrepareExtend(ses, key, extendTo, steps);
    AfterReply(ses, key, extendTo, first.0.0, first.0.1, first.1)
  }

  /** From the simulation's answer on: src/invoke.rs:66-98. */
  function OnSimulation(ses: Session, op: Op, reply: SimulateReply, steps: seq<Step>): Part<Outcome> {
    match reply
    case SimulateFailed => Threw(Simulation, steps)
    case SimulationError => Threw(Simulation, steps)
    case NoStateChange => Gave(SkippedNoStateChange, steps)
    case StateChange =>
      var fee :- AskFee(steps);
      var landed :- PrepareAndSend(ses, op, fee.0, fee.1);
      Gave(Executed(Hash(landed.0.0)), landed.1)
  }

  /** src/invoke.rs:41-99. */
  function RunInvoke(ses: Session, contract: ScAddress, name: string, args: seq<ScVal>, steps: seq<Step>)
    : Part<Outcome>
  {
    var op := Op.InvokeContract(contract, name, args);
    var built :- AskOp(steps);
    var account :- AskAccount(built.1);
    var simulation :- AskSimulate(Tx(ses.me, account.0 + 1, 100, op, None), account.1);
    OnSimulation(ses, op, simulation.0, simulation.1)
  }

  /** src/deploy.rs:14-60. */
  function RunUpload(ses: Session, wasm: seq<byte>, steps: seq<Step>): Part<seq<byte>> {
    var built :- AskOp(steps);
    var fee :- AskFee(built.1);
    var landed :- PrepareAndSend(ses, UploadWasm(wasm), fee.0, fee.1);
    match landed.0.1
    case None => Threw(MissingReturnValue, landed.1)
    case Some(Bytes(hash)) => if |hash| == 32 then Gave(hash, landed.1) else Threw(Xdr, landed.1)
    case _ => Threw(Xdr, landed.1)
  }

  /** src/deploy.rs:67-107. */
  function RunCreate(ses: Session, hash: seq<byte>, args: seq<ScVal>, steps: seq<Step>): Part<ScAddress> {
    var built :- AskOp(steps);
    var fee :- AskFee(built.1);
    var landed :- PrepareAndSend(ses, CreateContract(ses.me, hash, args), fee.0, fee.1);
    match landed.0.1
    case None => Threw(MissingReturnValue, landed.1)
    case Some(Address(address)) => Gave(address, landed.1)
    case _ => Threw(Xdr, landed.1)
  }

  /** The methods of src/client.rs:55-194. */
  function Perform(ses: Session, call: Call, steps: seq<Step>): Part<Outcome> {
    var signer :- AskSigner(steps);
    match call
    case ExtendCall(Err(error), _) => Threw(error, signer.1)
    case ExtendCall(Ok(key), extendTo) => RunExtend(ses, key, extendTo, signer.1)
    case InvokeCall(contract, name, args) => RunInvoke(ses, contract, name, args, signer.1)
    case UploadCall(wasm) =>
      var hash :- RunUpload(ses, wasm, signer.1);
      Gave(Uploaded(hash.0), hash.1)
    case CreateCall(hash, args) =>
      var address :- RunCreate(ses, hash, args, signer.1);
      Gave(Created(address.0), address.1)
    case DeployCall(wasm, args) =>
      var hash :- RunUpload(ses, wasm, signer.1);
      var second :- AskSigner(hash.1);
      var address :- RunCreate(ses, hash.0, args, second.1);
      Gave(Deployed(address.0, hash.0), address.1)
  }
}
