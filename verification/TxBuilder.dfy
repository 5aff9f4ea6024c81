/** Building transactions, and the shared `build -> prepare -> sign -> send -> poll` sequence. */
module TxBuilder {
  import opened Types
  import opened Keys
  import opened Fees
  import opened Ledger
  import opened Protocol
  import opened Net
  import opened Poll

  /** The local copy of an account, whose sequence number building a transaction moves on. */
  class SourceAccount {
    const id: Account
    var sequence: nat

    constructor (id: Account, sequence: nat)
      ensures this.id == id && this.sequence == sequence
    {
      this.id, this.sequence := id, sequence;
    }
  }

  /** `TransactionBuilder`: takes the next sequence number from the account. */
  method BuildTransaction(source: SourceAccount, op: Op, fee: nat, data: Option<SorobanData>) returns (tx: Tx)
    modifies source
    ensures source.sequence == old(source.sequence) + 1
    ensures tx == Tx(source.id, source.sequence, fee, op, data)
  {
    source.sequence := source.sequence + 1;
    tx := Tx(source.id, source.sequence, fee, op, data);
  }

  /** The one-transaction jobs, which all go through `PrepareAndSend`. */
  predicate Plain(job: Job) { job.Invoke? || job.Upload? || job.Create? }

  /** On success exactly one transaction was sent, with the asked operation and at least the asked bid; it is the
      one named, and the ledger records it as successful. On an error at most one was sent. */
  method PrepareAndSend(net: Network, op: Op, fee: nat) returns (r: Result<(Hash, Option<ScVal>)>)
    requires net.Valid() && net.phase.NeedAccount? && Plain(net.phase.job)
    requires op == OpOf(net.ses.me, net.phase.job) && fee == net.phase.bid
    modifies net
    ensures net.Valid() && SameCall(old(net.book), net.book)
    ensures match r
            case Ok(landed) =>
              && net.phase == Confirmed(old(net.phase).job, landed.0.tx, landed.1)
              && OnlySent(old(net.book), net.book, landed.0.tx) && BorneOut(net.chain, landed.0, Ok(landed.1))
              && landed.0.tx.op == op && landed.0.tx.fee >= fee && landed.0.tx.source == net.ses.me
            case Err(error) =>
              && net.phase.Done? && net.phase.result == Err(error)
              && |net.book.sent| <= |old(net.book.sent)| + 1
  {
    var sequence :- net.GetAccount();
    var source := new SourceAccount(net.ses.me, sequence);
    var tx := BuildTransaction(source, op, fee, None);
    var reply := net.PrepareTransaction(tx);
    if !reply.Prepared? {
      return Err(Simulation);
    }
    var signed :- net.SignTransaction(Assemble(tx, reply.added, reply.data));
    var hash := Hash(signed);
    var _ :- net.SendTransaction(signed);
    var response :- PollTransactionStatus(net, hash);
    r := Ok((hash, response));
  }

  /** The read-only path: build and simulate, never send. */
  method BuildAndSimulate(net: Network, op: Op, fee: nat) returns (r: Result<SimulateReply>)
    requires net.Valid() && net.phase.PreviewAccount?
    requires op == OpOf(net.ses.me, net.phase.job) && net.phase.job.Invoke? && fee == MIN_BASE_FEE
    modifies net
    ensures net.Valid() && NothingSent(old(net.book), net.book)
    ensures if r.Ok? then !r.value.SimulateFailed? && net.phase == AfterSimulate(old(net.phase).job, r.value)
            else net.phase == Stop(r.error)
  {
    var sequence :- net.GetAccount();
    var source := new SourceAccount(net.ses.me, sequence);
    var tx := BuildTransaction(source, op, fee, None);
    var reply := net.SimulateTransaction(tx);
    r := if reply.SimulateFailed? then Err(Simulation) else Ok(reply);
  }
}
