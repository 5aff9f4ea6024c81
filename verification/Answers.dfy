/** What single answers lead to, in every run, read off the trace. */
module Answers {
  import opened Types
  import opened Keys
  import opened Fees
  import opened Ledger
  import opened Protocol
  import opened CallSafety
  import opened Reference
  import opened Agreement

  /** The transactions handed over in these steps. */
  ghost function SentIn(steps: seq<Step>): seq<Tx> {
    if steps == [] then []
    else
      var e := steps[|steps| - 1].e;
      SentIn(steps[..|steps| - 1]) + if e.Send? then [e.tx] else []
  }

  /** How many of these steps built a signer, asked for a `prepare`, and signed. */
  ghost function Tally(steps: seq<Step>): (nat, nat, nat) {
    if steps == [] then (0, 0, 0)
    else
      var e, n := steps[|steps| - 1].e, Tally(steps[..|steps| - 1]);
      (n.0 + (if e == BuildSigner(true) then 1 else 0),
       n.1 + (if e.Prepare? then 1 else 0),
       n.2 + (if e.Sign? && e.ok then 1 else 0))
  }

  ghost predicate Booked(steps: seq<Step>, b: Book) {
    && b.mark <= |b.sent| && |Mine(b)| == |SentIn(steps)|
    && (forall i | 0 <= i < |Mine(b)| :: Mine(b)[i].tx == SentIn(steps)[i])
    && Tally(steps) == (b.signers, b.prepares, b.signs)
  }

  lemma BookedOn(s: Sys, steps: seq<Step>, e: ClientEvent, dt: nat)
    requires Booked(steps, s.book) && ClientEnabled(s, e, dt) && !e.Start?
    ensures Booked(steps + [Step(e, s.clock)], ClientApply(s, e, dt).book)
  {
    var now, t := steps + [Step(e, s.clock)], ClientApply(s, e, dt);
    assert now[..|now| - 1] == steps;
    if e.Send? {
      MineGrows(s.book, t.book, t.book.sent[|s.book.sent|]);
    } else {
      assert Mine(t.book) == Mine(s.book);
    }
  }

  /** The history variables count what the trace of the present call shows. */
  lemma {:induction false} HistoryMatchesTrace(s: Sys, log: seq<Event>, t: Sys)
    requires Run(s, log, t) && LastCall(log).Some?
    ensures Booked(Steps(s.clock, log), t.book)
  {
    var before, ev := log[..|log| - 1], log[|log| - 1];
    var u := Reach(s, before).value;
    match ev
    case Env(_) =>
      HistoryMatchesTrace(s, before, u);
      assert Mine(t.book) == Mine(u.book);
    case Client(e, dt) =>
      if e.Start? {
        assert Mine(t.book) == [];
      } else {
        HistoryMatchesTrace(s, before, u);
        WalkedToHolds(s, before, u);
        BookedOn(u, Steps(s.clock, before), e, dt);
      }
  }

  /** The first four steps of every extend, as far as they got, with the extend of the one key at the floor fee; and
      each of them was asked only because the ones before were answered. */
  lemma ExtendBegins(s: Sys, log: seq<Event>, t: Sys)
    requires Run(s, log, t) && LastCall(log).Some? && LastCall(log).value.ExtendCall? && LastCall(log).value.key.Ok?
    ensures var steps, call := Steps(s.clock, log), LastCall(log).value;
            && (|steps| > 0 ==> steps[0].e.BuildSigner?)
            && (|steps| > 1 ==> steps[0].e.ok && steps[1].e.GetAccount?)
            && (|steps| > 2 ==> steps[1].e.sequence.Some? && steps[2].e.BuildOp?)
            && (|steps| > 3 ==>
                  && steps[2].e.ok && steps[3].e.Prepare?
                  && steps[3].e.tx == Tx(s.ses.me, steps[1].e.sequence.value + 1, 100,
                                         ExtendFootprintTtl(call.extendTo),
                                         Some(SorobanData(Footprint([call.key.value], []), 0, 0, 0, 0))))
            && (t.phase.Done? && |steps| <= 3 ==> |steps| > 0 && match steps[|steps| - 1].e
                  case BuildSigner(ok) => !ok && t.phase.result == Err(Signer)
                  case GetAccount(n) => n.None? && t.phase.result == Err(Rpc)
                  case BuildOp(ok) => !ok && t.phase.result == Err(Xdr)
                  case _ => false)
  {
    RunsFollowSource(s, log, t);
  }

  /** The answer to the first `prepare` among these steps. */
  ghost function FirstPrepare(steps: seq<Step>): Option<PrepareReply> {
    if steps == [] then None
    else if steps[0].e.Prepare? then Some(steps[0].e.prepared)
    else FirstPrepare(steps[1..])
  }

  lemma {:induction false} SomethingSent(steps: seq<Step>, i: nat)
    requires i < |steps| && steps[i].e.Send?
    ensures SentIn(steps) != []
  {
    if i < |steps| - 1 { SomethingSent(steps[..|steps| - 1], i); }
  }

  lemma FirstPrepareIsFourth(s: Sys, log: seq<Event>, t: Sys)
    requires Run(s, log, t) && LastCall(log).Some? && LastCall(log).value.ExtendCall? && LastCall(log).value.key.Ok?
    ensures var steps := Steps(s.clock, log);
            FirstPrepare(steps) == if |steps| > 3 && steps[3].e.Prepare? then Some(steps[3].e.prepared) else None
    ensures |Steps(s.clock, log)| > 3 ==> Steps(s.clock, log)[3].e.Prepare?
  {
    ExtendBegins(s, log, t);
    var steps := Steps(s.clock, log);
    if |steps| > 0 {
      assert FirstPrepare(steps) == FirstPrepare(steps[1..]);
      if |steps| > 1 {
        assert steps[1..][1..] == steps[2..];
        assert FirstPrepare(steps[1..]) == FirstPrepare(steps[2..]);
        if |steps| > 2 {
          assert steps[2..][1..] == steps[3..];
          assert FirstPrepare(steps[2..]) == FirstPrepare(steps[3..]);
        }
      }
    }
  }

  /** A restore as the source does it: build the operation, read the account, sign, send. */
  lemma RestoreBegins(ses: Session, fee: int, data: SorobanData, steps: seq<Step>)
    requires !RestoreEntry(ses, fee, data, steps).Astray?
    ensures var part := RestoreEntry(ses, fee, data, steps);
            && (|steps| > 0 ==> steps[0].e.BuildOp?)
            && (|steps| > 1 && steps[0].e.ok ==> steps[1].e.GetAccount?)
            && (|steps| > 2 && steps[0].e.ok && steps[1].e.sequence.Some? ==>
                  var tx := Tx(ses.me, steps[1].e.sequence.value + 1, Min(100 + Max(fee, 0), TWO_32 - 1),
                               RestoreFootprint, Some(data));
                  && steps[2].e.Sign? && steps[2].e.tx == tx
                  && (|steps| > 3 && steps[2].e.ok ==> steps[3].e.Send? && steps[3].e.tx == tx))
            && (|steps| <= 3 ==> !part.Gave?)
            && (part.Threw? && |steps| <= 3 ==> |steps| > 0 && match steps[|steps| - 1 - |part.rest|].e
                  case BuildOp(ok) => !ok
                  case GetAccount(n) => n.None?
                  case Sign(_, ok) => !ok
                  case _ => false)
            && (part.Gave? ==> |steps| > 3 && steps[3].e.Send?)
  {
  }

  /** The run stands where the source stands after its first `prepare`. */
  lemma AfterFirstPrepare(s: Sys, log: seq<Event>, t: Sys)
    requires Run(s, log, t) && LastCall(log).Some? && LastCall(log).value.ExtendCall? && LastCall(log).value.key.Ok?
    requires |Steps(s.clock, log)| > 3
    ensures var steps, call := Steps(s.clock, log), LastCall(log).value;
            && steps[3].e.Prepare?
            && Settled(AfterReply(s.ses, call.key.value, call.extendTo, steps[3].e.tx, steps[3].e.prepared,
                                  steps[4..])) ==
                 if t.phase.Done? then Returned(t.phase.result) else Ongoing
  {
    ExtendBegins(s, log, t);
    RunsFollowSource(s, log, t);
    var steps, call := Steps(s.clock, log), LastCall(log).value;
    assert steps[1..][1..] == steps[2..] && steps[2..][1..] == steps[3..] && steps[3..][1..] == steps[4..];
    assert PrepareExtend(s.ses, call.key.value, call.extendTo, steps[1..]) ==
           Gave((steps[3].e.tx, steps[3].e.prepared), steps[4..]);
  }

  /** In every run and for every resource fee and every data: when the first `prepare` of an extend asks for a restore,
      the restore is carried out. Each call below follows unless the one before failed, the transaction carries the
      next number, the fee the preamble's resource fee calls for, and the preamble's data, and the extend cannot return
      before the restore is sent except with the error of a call that failed. */
  lemma RestoreIsCarriedOut(s: Sys, log: seq<Event>, t: Sys, fee: int, data: SorobanData)
    requires Run(s, log, t) && LastCall(log).Some? && LastCall(log).value.ExtendCall? && LastCall(log).value.key.Ok?
    requires |Steps(s.clock, log)| > 3 && Steps(s.clock, log)[3].e.Prepare?
    requires Steps(s.clock, log)[3].e.prepared == RestorationRequired(fee, data)
    ensures var steps := Steps(s.clock, log);
            && (|steps| > 4 ==> steps[4].e.BuildOp?)
            && (|steps| > 5 ==> steps[4].e.ok && steps[5].e.GetAccount?)
            && (|steps| > 6 ==>
                  && steps[5].e.sequence.Some?
                  && var tx := Tx(s.ses.me, steps[5].e.sequence.value + 1, Min(100 + Max(fee, 0), TWO_32 - 1),
                                  RestoreFootprint, Some(data));
                  && steps[6].e.Sign? && steps[6].e.tx == tx
                  && (|steps| > 7 ==> steps[6].e.ok && steps[7].e.Send? && steps[7].e.tx == tx))
            && (t.phase.Done? && |steps| <= 7 ==> |steps| > 4 && match steps[|steps| - 1].e
                  case BuildOp(ok) => !ok && t.phase.result == Err(Xdr)
                  case GetAccount(n) => n.None? && t.phase.result == Err(Rpc)
                  case Sign(_, ok) => !ok && t.phase.result == Err(Signer)
                  case _ => false)
  {
    AfterFirstPrepare(s, log, t);
    var steps, call := Steps(s.clock, log), LastCall(log).value;
    var left := steps[4..];
    RestoreBegins(s.ses, fee, data, left);
    RestoreFails(s.ses, fee, data, left);
  }

  /** If it fails before the send, it is for the call that failed, and nothing follows. */
  lemma RestoreFails(ses: Session, fee: int, data: SorobanData, steps: seq<Step>)
    ensures var part := RestoreEntry(ses, fee, data, steps);
            part.Threw? && part.rest == [] && |steps| <= 3 ==> |steps| > 0 && match steps[|steps| - 1].e
              case BuildOp(ok) => !ok && part.error == Xdr
              case GetAccount(n) => n.None? && part.error == Rpc
              case Sign(_, ok) => !ok && part.error == Signer
              case _ => false
    ensures var part := RestoreEntry(ses, fee, data, steps);
            part.Threw? ==> part.error != Simulation
  {
    var op := AskOp(steps);
    if op.Gave? {
      var account := AskAccount(op.rest);
      assert op.rest == steps[1..];
      if account.Gave? {
        var tx := Tx(ses.me, account.value + 1, Min(100 + Max(fee, 0), TWO_32 - 1), RestoreFootprint, Some(data));
        assert account.rest == steps[2..];
        SubmitFails(ses, tx, account.rest);
      }
    }
  }

  lemma SubmitFails(ses: Session, tx: Tx, steps: seq<Step>)
    ensures var part := Submit(ses, tx, steps);
            && (part.Threw? && part.rest == [] && |steps| <= 1 ==>
                  |steps| == 1 && steps[0].e.Sign? && !steps[0].e.ok && part.error == Signer)
            && (part.Threw? ==> part.error != Simulation)
  {
  }

  /** An extend returns a simulation error with nothing sent exactly if its first `prepare` failed outright. */
  lemma PlainRefusalExact(s: Sys, log: seq<Event>, t: Sys)
    requires Run(s, log, t) && LastCall(log).Some? && LastCall(log).value.ExtendCall? && LastCall(log).value.key.Ok?
    requires t.phase.Done?
    ensures var steps := Steps(s.clock, log);
            t.phase.result == Err(Simulation) && SentIn(steps) == [] <==> FirstPrepare(steps) == Some(PrepareFailed)
  {
    ExtendBegins(s, log, t);
    FirstPrepareIsFourth(s, log, t);
    var steps, call := Steps(s.clock, log), LastCall(log).value;
    if |steps| > 3 {
      AfterFirstPrepare(s, log, t);
      match steps[3].e.prepared
      case PrepareFailed => NothingSent(steps);
      case Prepared(added, resources) =>
      case RestorationRequired(fee, data) =>
        RestoreBegins(s.ses, fee, data, steps[4..]);
        RestoreFails(s.ses, fee, data, steps[4..]);
        if RestoreEntry(s.ses, fee, data, steps[4..]).Gave? { SomethingSent(steps, 7); }
    }
  }

  lemma {:induction false} NothingSent(steps: seq<Step>)
    requires forall i | 0 <= i < |steps| :: !steps[i].e.Send?
    ensures SentIn(steps) == []
  {
    if steps != [] { NothingSent(steps[..|steps| - 1]); }
  }

  /** An invoke up to its simulation, in every run: signer, operation, account read, and the simulation of the call
      at the floor fee. */
  lemma InvokeBegins(s: Sys, log: seq<Event>, t: Sys)
    requires Run(s, log, t) && LastCall(log).Some? && LastCall(log).value.InvokeCall?
    ensures var steps, call := Steps(s.clock, log), LastCall(log).value;
            && (|steps| > 0 ==> steps[0].e.BuildSigner?)
            && (|steps| > 1 ==> steps[0].e.ok && steps[1].e.BuildOp?)
            && (|steps| > 2 ==> steps[1].e.ok && steps[2].e.GetAccount?)
            && (|steps| > 3 ==>
                  && steps[2].e.sequence.Some? && steps[3].e.Simulate?
                  && steps[3].e.tx == Tx(s.ses.me, steps[2].e.sequence.value + 1, 100,
                                         InvokeContract(call.contract, call.name, call.args), None))
            && (t.phase.Done? && |steps| <= 3 ==> |steps| > 0 && match steps[|steps| - 1].e
                  case BuildSigner(ok) => !ok && t.phase.result == Err(Signer)
                  case BuildOp(ok) => !ok && t.phase.result == Err(Xdr)
                  case GetAccount(n) => n.None? && t.phase.result == Err(Rpc)
                  case _ => false)
  {
    RunsFollowSource(s, log, t);
  }

  /** The run stands where the source stands after the simulation. */
  lemma AfterSimulation(s: Sys, log: seq<Event>, t: Sys)
    requires Run(s, log, t) && LastCall(log).Some? && LastCall(log).value.InvokeCall? && |Steps(s.clock, log)| > 3
    ensures var steps, call := Steps(s.clock, log), LastCall(log).value;
            var op := Op.InvokeContract(call.contract, call.name, call.args);
            && steps[3].e.Simulate?
            && Settled(OnSimulation(s.ses, op, steps[3].e.simulated, steps[4..])) ==
                 if t.phase.Done? then Returned(t.phase.result) else Ongoing
  {
    InvokeBegins(s, log, t);
    RunsFollowSource(s, log, t);
    var steps := Steps(s.clock, log);
    assert steps[1..][1..] == steps[2..] && steps[2..][1..] == steps[3..] && steps[3..][1..] == steps[4..];
  }

  /** What the simulation answers decides an invoke, in every run. A failed simulation or an error in it ends the
      call with a simulation error, and no state change with `SkippedNoStateChange`, there and then: nothing is
      quoted, prepared or sent. A state change always leads on: to the fee quote, the account, and the `prepare` of
      the very call. */
  lemma SimulationDecides(s: Sys, log: seq<Event>, t: Sys)
    requires Run(s, log, t) && LastCall(log).Some? && LastCall(log).value.InvokeCall?
    requires |Steps(s.clock, log)| > 3 && Steps(s.clock, log)[3].e.Simulate?
    ensures var steps, call := Steps(s.clock, log), LastCall(log).value;
            match steps[3].e.simulated
            case NoStateChange => |steps| == 4 && t.phase.Done? && t.phase.result == Ok(SkippedNoStateChange)
            case StateChange =>
              && (|steps| == 4 ==> !t.phase.Done?)
              && (|steps| > 4 ==> steps[4].e.FeeStats?)
              && (|steps| == 5 ==> !t.phase.Done?)
              && (|steps| > 5 ==> steps[5].e.GetAccount?)
              && (|steps| == 6 && steps[5].e.sequence.Some? ==> !t.phase.Done?)
              && (|steps| > 6 ==>
                    && steps[5].e.sequence.Some? && steps[6].e.Prepare?
                    && steps[6].e.tx.op == InvokeContract(call.contract, call.name, call.args)
                    && steps[6].e.tx.source == s.ses.me && steps[6].e.tx.data.None?
                    && steps[6].e.tx.sequence == steps[5].e.sequence.value + 1
                    && steps[6].e.tx.fee == (match steps[4].e.quote
                         case FeeError => 100
                         case FeeP90(text) => if ParseU32(text).Some? then Max(ParseU32(text).value, 100) else 100))
            case _ => |steps| == 4 && t.phase.Done? && t.phase.result == Err(Simulation)
  {
    AfterSimulation(s, log, t);
    var steps, call := Steps(s.clock, log), LastCall(log).value;
    QuoteBegins(s.ses, InvokeContract(call.contract, call.name, call.args), steps[4..]);
  }

  /** After a state change: quote, account, and the `prepare` of the operation. */
  lemma QuoteBegins(ses: Session, op: Op, steps: seq<Step>)
    requires !OnSimulation(ses, op, StateChange, steps).Astray?
    ensures var part := OnSimulation(ses, op, StateChange, steps);
            && (|steps| == 0 ==> part.Pending?)
            && (|steps| > 0 ==> steps[0].e.FeeStats?)
            && (|steps| == 1 ==> part.Pending?)
            && (|steps| > 1 ==> steps[1].e.GetAccount?)
            && (|steps| == 2 && steps[1].e.sequence.Some? ==> part.Pending?)
            && (|steps| > 2 && steps[1].e.sequence.None? ==> part.Threw? && part.rest != [])
            && (|steps| > 2 && steps[1].e.sequence.Some? ==>
                  && steps[2].e.Prepare?
                  && steps[2].e.tx == Tx(ses.me, steps[1].e.sequence.value + 1,
                                         (match steps[0].e.quote
                                          case FeeError => 100
                                          case FeeP90(text) =>
                                            if ParseU32(text).Some? then Max(ParseU32(text).value, 100) else 100),
                                         op, None))
  {
    var fee := AskFee(steps);
    if fee.Gave? {
      assert fee.rest == steps[1..];
      var account := AskAccount(fee.rest);
      if |steps| > 1 { assert fee.rest[1..] == steps[2..]; }
    }
  }

  /** Some simulation among these steps answered that nothing would change. */
  ghost predicate SawNoChange(steps: seq<Step>) {
    exists i | 0 <= i < |steps| :: steps[i].e.Simulate? && steps[i].e.simulated.NoStateChange?
  }

  lemma SawNoChangeOn(steps: seq<Step>, step: Step)
    ensures SawNoChange(steps + [step]) <==>
            SawNoChange(steps) || (step.e.Simulate? && step.e.simulated.NoStateChange?)
  {
    var now := steps + [step];
    assert now[|steps|] == step;
    if SawNoChange(steps) {
      var i :| 0 <= i < |steps| && steps[i].e.Simulate? && steps[i].e.simulated.NoStateChange?;
      assert now[i] == steps[i];
    }
  }

  lemma SkippedStep(u: Sys, e: ClientEvent, dt: nat)
    requires ClientEnabled(u, e, dt) && !e.Start?
    ensures !u.phase.Done?
    ensures var phase := ClientApply(u, e, dt).phase;
            phase.Done? && phase.result == Ok(SkippedNoStateChange) <==> e.Simulate? && e.simulated.NoStateChange?
  {
  }

  /** So, in every run, a call returns `SkippedNoStateChange` exactly if a simulation of it answered that nothing would
      change. */
  lemma {:induction false} SkippedExact(s: Sys, log: seq<Event>, t: Sys)
    requires Run(s, log, t) && LastCall(log).Some?
    ensures SawNoChange(Steps(s.clock, log)) <==> t.phase.Done? && t.phase.result == Ok(SkippedNoStateChange)
  {
    var before, ev := log[..|log| - 1], log[|log| - 1];
    var u := Reach(s, before).value;
    if ev.Env? {
      SkippedExact(s, before, u);
    } else if !ev.e.Start? {
      SkippedExact(s, before, u);
      SawNoChangeOn(Steps(s.clock, before), Step(ev.e, ClockAfter(s.clock, before)));
      SkippedStep(u, ev.e, ev.dt);
    }
  }

  /** The status that confirms an upload, over every run: 32 bytes are the returned hash, or in a deploy the hash the
      creation goes on with; no return value and any other value are errors. */
  lemma UploadDecodes(s: Sys, log: seq<Event>, u: Sys, hash: Hash, ret: Option<ScVal>, dt: nat)
    requires Run(s, log, u) && ClientEnabled(u, Get(hash, Success(ret)), dt) && hash.tx.op.UploadWasm?
    ensures u.book.call.Some?
    ensures var phase, call := ClientApply(u, Get(hash, Success(ret)), dt).phase, u.book.call.value;
            match ret
            case None => phase == Done(Err(MissingReturnValue), false)
            case Some(Bytes(bytes)) =>
              if |bytes| != 32 then phase == Done(Err(Xdr), false)
              else if call.UploadCall? then phase == Done(Ok(Uploaded(bytes)), false)
              else call.DeployCall? && phase == NeedCreateSigner(bytes, call.args)
            case Some(_) => phase == Done(Err(Xdr), false)
  {
    CallInvHolds(s, log, u);
    WatchedFits(u);
  }

  /** The status that confirms a creation: an address is returned, with its hash in a deploy; all else is an error. */
  lemma CreateDecodes(s: Sys, log: seq<Event>, u: Sys, hash: Hash, ret: Option<ScVal>, dt: nat)
    requires Run(s, log, u) && ClientEnabled(u, Get(hash, Success(ret)), dt) && hash.tx.op.CreateContract?
    ensures u.book.call.Some?
    ensures var phase, call := ClientApply(u, Get(hash, Success(ret)), dt).phase, u.book.call.value;
            match ret
            case None => phase == Done(Err(MissingReturnValue), false)
            case Some(Address(address)) =>
              if call.CreateCall? then phase == Done(Ok(Created(address)), false)
              else call.DeployCall? && phase == Done(Ok(Deployed(address, hash.tx.op.wasmHash)), false)
            case Some(_) => phase == Done(Err(Xdr), false)
  {
    CallInvHolds(s, log, u);
    WatchedFits(u);
  }

  /** The transaction being polled is its job's, and the job is one of the call's. */
  lemma WatchedFits(u: Sys)
    requires CallInv(u) && u.phase.Polling?
    ensures u.book.call.Some? && Fits(u.book.call.value, u.phase.job) && u.phase.tx.op == OpOf(u.ses.me, u.phase.job)
  {
    var mine := Mine(u.book);
    assert mine[|mine| - 1] == u.book.sent[|u.book.sent| - 1];
  }

  /** The status that confirms an extend or an invoke ends the call with its hash; the one that confirms a restore leads
      on to the retry. */
  lemma ConfirmedExecutes(s: Sys, log: seq<Event>, u: Sys, hash: Hash, ret: Option<ScVal>, dt: nat)
    requires Run(s, log, u) && ClientEnabled(u, Get(hash, Success(ret)), dt)
    ensures var phase := ClientApply(u, Get(hash, Success(ret)), dt).phase;
            match hash.tx.op
            case ExtendFootprintTtl(_) => phase == Done(Ok(Executed(hash)), false)
            case InvokeContract(_, _, _) => phase == Done(Ok(Executed(hash)), false)
            case RestoreFootprint =>
              && u.book.call.Some? && u.book.call.value.ExtendCall? && u.book.call.value.key.Ok?
              && phase == NeedAccount(Extend(u.book.call.value.key.value, u.book.call.value.extendTo, true), 100)
            case _ => true
  {
    CallInvHolds(s, log, u);
    WatchedFits(u);
  }

  /** A returned call has given up on a transaction exactly if its last step was a failed send, a failed status call, or
      the reading of the clock that found the deadline passed. */
  lemma {:induction false} GaveUpExact(s: Sys, log: seq<Event>, t: Sys)
    requires Run(s, log, t) && t.phase.Done?
    ensures var steps := Steps(s.clock, log);
            && steps != []
            && (t.phase.dangling <==>
                  match steps[|steps| - 1].e
                  case Send(_, _, ok) => !ok
                  case Get(_, got) => got.GetFailed?
                  case ReadClock => true
                  case _ => false)
  {
    var before, ev := log[..|log| - 1], log[|log| - 1];
    if ev.Env? { GaveUpExact(s, before, Reach(s, before).value); }
  }
}
