/** `poll_transaction_status`. */
module Poll {
  import opened Types
  import opened Keys
  import opened Ledger
  import opened Protocol
  import opened PollSafety
  import opened Net

  /** The result a status calls for, were it the last one seen. */
  function VerdictOf(got: GetReply): Result<Option<ScVal>> {
    match got
    case NotFound => Err(Timeout)
    case Success(ret) => Ok(ret)
    case Failed => Err(TransactionFailed)
    case GetFailed => Err(Rpc)
  }

  /** The last status seen calls for the result. */
  predicate LastDecides(polls: seq<GetReply>, r: Result<Option<ScVal>>) {
    LastStatus(polls).Some? && r == VerdictOf(LastStatus(polls).value)
  }

  /** In a run the last status seen is the first one other than `NotFound`, so the first such status decides, and
      `Timeout` means exactly that there was none. */
  lemma FirstFinalDecides(s: Sys, log: seq<Event>, t: Sys, r: Result<Option<ScVal>>)
    requires Run(s, log, t) && LastDecides(t.book.polls, r)
    ensures match FirstFinal(t.book.polls)
            case None => r == Err(Timeout)
            case Some(got) => r == VerdictOf(got) && r != Err(Timeout)
  {
    PollInvHolds(s, log, t);
    if AllNotFound(t.book.polls) {
      FirstFinalOfNotFound(t.book.polls);
    } else {
      FirstFinalIsLast(t.book.polls);
    }
  }

  /** The ledger bears the result out: a success, and any return value handed back with it, or a failure. */
  ghost predicate BorneOut(c: Chain, hash: Hash, r: Result<Option<ScVal>>) {
    match r
    case Ok(ret) => hash in c.receipts && c.receipts[hash].success && (ret.Some? ==> ret == c.receipts[hash].ret)
    case Err(TransactionFailed) => hash in c.receipts && !c.receipts[hash].success
    case _ => true
  }

  /** The protocol goes on as the result says. */
  predicate Ends(phase: Phase, job: Job, tx: Tx, r: Result<Option<ScVal>>) {
    match r
    case Ok(ret) => phase == Confirmed(job, tx, ret)
    case Err(error) => phase == Done(Err(error), error != TransactionFailed)
  }

  lemma FinalStatusEnds(job: Job, tx: Tx, start: nat, got: GetReply)
    requires !got.NotFound?
    ensures Ends(AfterGet(job, tx, start, got), job, tx, VerdictOf(got))
  {
  }

  /** Polls a sent transaction until its status is final or the deadline has passed. The last status decides the
      result, which by `FirstFinalDecides` is the first status other than `NotFound`. */
  method PollTransactionStatus(net: Network, hash: Hash) returns (r: Result<Option<ScVal>>)
    requires net.Valid() && net.phase.Sent? && hash == Hash(net.phase.tx)
    modifies net
    ensures net.Valid() && NothingSent(old(net.book), net.book)
    ensures Ends(net.phase, old(net.phase).job, hash.tx, r)
    ensures LastDecides(net.book.polls, r) && BorneOut(net.chain, hash, r)
  {
    ghost var job := net.phase.job;
    var start := net.Now();
    var deadline := start + net.ses.timeout;
    var response := net.GetTransaction(hash);
    while response.NotFound?
      invariant net.Valid() && NothingSent(old(net.book), net.book)
      invariant LastStatus(net.book.polls) == Some(response)
      invariant net.phase == AfterGet(job, hash.tx, start, response) && Truthful(net.chain, hash, response)
      invariant start <= net.clock
      decreases deadline - net.clock
    {
      var now := net.Now();
      if now >= deadline {
        return Err(Timeout);
      }
      net.SleepInterval();
      response := net.GetTransaction(hash);
    }
    r := match response
      case Success(ret) => Ok(ret)
      case Failed => Err(TransactionFailed)
      case _ => Err(Rpc);
    FinalStatusEnds(job, hash.tx, start, response);
  }
}
