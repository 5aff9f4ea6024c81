/** What every transaction bids, over whole runs. */
module FeeSafety {
  import opened Types
  import opened Fees
  import opened Protocol

  /** The bid a job makes, given the last fee quote. */
  function BidFor(job: Job, quote: FeeReply): nat {
    match job
    case Extend(_, _, _) => 100
    case Restore(_, _, resourceFee, _) => Min(100 + Max(resourceFee, 0), TWO_32 - 1)
    case _ =>
      match quote
      case FeeError => 100
      case FeeP90(text) => if ParseU32(text).None? then 100 else Max(ParseU32(text).value, 100)
  }

  predicate FairlyBid(sub: Submission) {
    && sub.bid == BidFor(sub.job, sub.quote)
    && (if sub.job.Restore? then sub.tx.fee == sub.bid else sub.bid <= sub.tx.fee)
  }

  predicate BidStands(t: Sys) {
    match t.phase
    case NeedOp(job) => !job.Extend?
    case PreviewAccount(job) => job.Invoke?
    case Previewing(job, _) => job.Invoke?
    case NeedQuote(job) => !job.Extend? && !job.Restore?
    case NeedAccount(job, bid) => bid == BidFor(job, t.book.quote)
    case NeedExtendOp(job, _) => job.Extend?
    case Preparing(job, tx) => !job.Restore? && tx.fee == BidFor(job, t.book.quote)
    case Signing(job, tx, bid) => FairlyBid(Submission(job, tx, bid, t.book.quote, false))
    case Sending(job, tx, bid) => FairlyBid(Submission(job, tx, bid, t.book.quote, false))
    case _ => true
  }

  ghost predicate FeeInv(t: Sys) {
    BidStands(t) && forall i | 0 <= i < |t.book.sent| :: FairlyBid(t.book.sent[i])
  }

  lemma FeeStepKeeps(s: Sys, e: ClientEvent, dt: nat)
    requires BidStands(s) && ClientEnabled(s, e, dt)
    ensures BidStands(ClientApply(s, e, dt))
    ensures e.Send? ==> FairlyBid(Submission(s.phase.job, e.tx, s.phase.bid, s.book.quote, false))
  {
    if e.BuildOp? && s.phase.NeedOp? && s.phase.job.Restore? {
      RestoreFeeExact(s.phase.job.resourceFee);
    }
  }

  /** Fee invariant: over the whole run every transaction bids at least 100 before what `prepare` adds, a
      restore pays exactly its bid, and each bid is the one its job and the last fee quote call for. */
  lemma {:induction false} BidsAreFair(s: Sys, log: seq<Event>, t: Sys)
    requires Run(s, log, t)
    ensures FeeInv(t)
    ensures forall i | 0 <= i < |t.book.sent| :: 100 <= t.book.sent[i].bid <= t.book.sent[i].tx.fee
    ensures forall i | 0 <= i < |t.book.sent| :: t.book.sent[i].bid < TWO_32
  {
    if log != [] {
      var state, ev := Reach(s, log[..|log| - 1]).value, log[|log| - 1];
      BidsAreFair(s, log[..|log| - 1], state);
      if ev.Client? { FeeStepKeeps(state, ev.e, ev.dt); }
    }
  }
}
