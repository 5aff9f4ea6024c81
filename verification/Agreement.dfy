/** Every run of the state machine does and returns what the source, read as a function of its answers, does and
    returns. */
module Agreement {
  import opened Types
  import opened Keys
  import opened Fees
  import opened Ledger
  import opened Protocol
  import opened Reference

  /** The client events of a trace since the last call began, with their times. */
  ghost function Steps(clock: nat, log: seq<Event>): seq<Step> {
    if log == [] then []
    else
      var before, ev := log[..|log| - 1], log[|log| - 1];
      if ev.Env? then Steps(clock, before)
      else if ev.e.Start? then []
      else Steps(clock, before) + [Step(ev.e, ClockAfter(clock, before))]
  }

  ghost function ClockAfter(clock: nat, log: seq<Event>): nat {
    if log == [] then clock
    else ClockAfter(clock, log[..|log| - 1]) + if log[|log| - 1].Client? then log[|log| - 1].dt else 0
  }

  /** The call a trace is in. */
  ghost function LastCall(log: seq<Event>): Option<Call> {
    if log == [] then None
    else
      var ev := log[|log| - 1];
      if ev.Client? && ev.e.Start? then Some(ev.e.call) else LastCall(log[..|log| - 1])
  }

  /** The phase the machine reaches from `p`; none when it does not permit a step, or another call begins. */
  function Walk(ses: Session, p: Phase, steps: seq<Step>): Option<Phase>
    decreases |steps|
  {
    if steps == [] then Some(p)
    else
      var step := steps[0];
      if step.e.Start? || !Permitted(p, step.e) then None
      else Walk(ses, Next(ses, p, step.at, step.e), steps[1..])
  }

  /** How a call stands: it has returned, it is waiting for its next answer, or it made a call it should not have. */
  datatype Progress = Returned(result: Result<Outcome>) | Ongoing | Lost

  function Play(ses: Session, p: Phase, steps: seq<Step>): Progress {
    match Walk(ses, p, steps)
    case None => Lost
    case Some(q) => if q.Done? then Returned(q.result) else Ongoing
  }

  function Ending(result: Result<Outcome>, rest: seq<Step>): Progress {
    if rest == [] then Returned(result) else Lost
  }

  /** `play` is what comes of `part` when its value is followed by `then`. */
  predicate Tracks<T>(part: Part<T>, play: Progress, next: Progress) {
    match part
    case Gave(_, _) => play == next
    case Threw(error, rest) => play == Ending(Err(error), rest)
    case Pending => play == Ongoing
    case Astray => play == Lost
  }

  lemma DoneEnds(ses: Session, p: Phase, steps: seq<Step>)
    requires p.Done?
    ensures Play(ses, p, steps) == Ending(p.result, steps)
  {
  }

  function PollTail(ses: Session, job: Job, tx: Tx, part: Part<Option<ScVal>>): Progress {
    if part.Gave? then Play(ses, Confirmed(job, tx, part.value), part.rest) else Lost
  }

  lemma {:induction false} PollLoopAgrees(ses: Session, job: Job, tx: Tx, start: nat, got: GetReply, steps: seq<Step>)
    requires !got.GetFailed?
    ensures var part := PollLoop(start + ses.timeout, Hash(tx), got, steps);
            Tracks(part, Play(ses, AfterGet(job, tx, start, got), steps), PollTail(ses, job, tx, part))
    decreases |steps|, 0
  {
    match got
    case Success(_) =>
    case Failed => DoneEnds(ses, Stop(TransactionFailed), steps);
    case NotFound =>
      if steps != [] && steps[0].e.ReadClock? {
        var rest := steps[1..];
        if steps[0].at >= start + ses.timeout {
          DoneEnds(ses, GiveUp(Timeout), rest);
        } else {
          assert Walk(ses, Checking(job, tx, start), steps) == Walk(ses, Sleeping(job, tx, start), rest);
          SleepAgrees(ses, job, tx, start, rest);
          if AskSleep(rest).Gave? { PollOnceAgrees(ses, job, tx, start, AskSleep(rest).rest); }
        }
      }
  }

  lemma SleepAgrees(ses: Session, job: Job, tx: Tx, start: nat, steps: seq<Step>)
    ensures var part := AskSleep(steps);
            Tracks(part, Play(ses, Sleeping(job, tx, start), steps),
                   if part.Gave? then Play(ses, Polling(job, tx, start), part.rest) else Lost)
  {
  }

  lemma {:induction false} PollOnceAgrees(ses: Session, job: Job, tx: Tx, start: nat, steps: seq<Step>)
    ensures var part := PollOnce(start + ses.timeout, Hash(tx), steps);
            Tracks(part, Play(ses, Polling(job, tx, start), steps), PollTail(ses, job, tx, part))
    decreases |steps|, 1
  {
    if steps != [] && steps[0].e.Get? && steps[0].e.hash == Hash(tx) {
      var got, p := steps[0].e.got, Polling(job, tx, start);
      assert Walk(ses, p, steps) == Walk(ses, AfterGet(job, tx, start, got), steps[1..]);
      if got.GetFailed? {
        DoneEnds(ses, GiveUp(Rpc), steps[1..]);
      } else {
        PollLoopAgrees(ses, job, tx, start, got, steps[1..]);
      }
    }
  }

  function Then<T>(ses: Session, part: Part<T>, q: T -> Phase): Progress {
    if part.Gave? then Play(ses, q(part.value), part.rest) else Lost
  }

  lemma AccountAgrees(ses: Session, p: Phase, steps: seq<Step>)
    requires p.PreviewAccount? || p.NeedAccount?
    ensures var part := AskAccount(steps);
            Tracks(part, Play(ses, p, steps), Then(ses, part, n => Next(ses, p, 0, GetAccount(Some(n)))))
  {
    if steps != [] && steps[0].e == GetAccount(None) { DoneEnds(ses, Stop(Rpc), steps[1..]); }
  }

  lemma OpAgrees(ses: Session, p: Phase, steps: seq<Step>)
    requires p.NeedOp? || p.NeedExtendOp?
    ensures var part := AskOp(steps);
            Tracks(part, Play(ses, p, steps), Then(ses, part, (u: ()) => Next(ses, p, 0, BuildOp(true))))
  {
    if steps != [] && steps[0].e == BuildOp(false) { DoneEnds(ses, Stop(Xdr), steps[1..]); }
  }

  lemma SignerAgrees(ses: Session, p: Phase, steps: seq<Step>)
    requires p.NeedSigner? || p.NeedCreateSigner?
    ensures var part := AskSigner(steps);
            Tracks(part, Play(ses, p, steps), Then(ses, part, (u: ()) => Next(ses, p, 0, BuildSigner(true))))
  {
    if steps != [] && steps[0].e == BuildSigner(false) { DoneEnds(ses, Stop(Signer), steps[1..]); }
  }

  lemma FeeAgrees(ses: Session, job: Job, steps: seq<Step>)
    ensures var part := AskFee(steps);
            Tracks(part, Play(ses, NeedQuote(job), steps), Then(ses, part, n => NeedAccount(job, n)))
  {
  }

  lemma SimulateAgrees(ses: Session, job: Job, tx: Tx, steps: seq<Step>)
    ensures var part := AskSimulate(tx, steps);
            Tracks(part, Play(ses, Previewing(job, tx), steps), Then(ses, part, reply => AfterSimulate(job, reply)))
  {
  }

  lemma PrepareAgrees(ses: Session, job: Job, tx: Tx, steps: seq<Step>)
    ensures var part := AskPrepare(tx, steps);
            Tracks(part, Play(ses, Preparing(job, tx), steps), Then(ses, part, reply => AfterPrepare(job, tx, reply)))
  {
  }

  lemma SignAgrees(ses: Session, job: Job, tx: Tx, bid: nat, steps: seq<Step>)
    ensures var part := AskSign(tx, steps);
            Tracks(part, Play(ses, Signing(job, tx, bid), steps), Then(ses, part, (u: ()) => Sending(job, tx, bid)))
  {
    if steps != [] && steps[0].e == Sign(tx, false) { DoneEnds(ses, Stop(Signer), steps[1..]); }
  }

  lemma SendAgrees(ses: Session, job: Job, tx: Tx, bid: nat, steps: seq<Step>)
    ensures var part := AskSend(tx, steps);
            Tracks(part, Play(ses, Sending(job, tx, bid), steps), Then(ses, part, (u: ()) => Phase.Sent(job, tx)))
  {
    if steps != [] && steps[0].e.Send? && steps[0].e.tx == tx && !steps[0].e.ok {
      DoneEnds(ses, GiveUp(Rpc), steps[1..]);
    }
  }

  lemma PollAgrees(ses: Session, job: Job, tx: Tx, steps: seq<Step>)
    ensures var part := Poll(ses, Hash(tx), steps);
            Tracks(part, Play(ses, Phase.Sent(job, tx), steps), PollTail(ses, job, tx, part))
  {
    if steps != [] && steps[0].e.ReadClock? {
      var start := steps[0].at;
      assert Walk(ses, Phase.Sent(job, tx), steps) == Walk(ses, Polling(job, tx, start), steps[1..]);
      PollOnceAgrees(ses, job, tx, start, steps[1..]);
    }
  }

  lemma SubmitAgrees(ses: Session, job: Job, tx: Tx, bid: nat, steps: seq<Step>)
    ensures var part := Submit(ses, tx, steps);
            Tracks(part, Play(ses, Signing(job, tx, bid), steps), PollTail(ses, job, tx, part))
  {
    SignAgrees(ses, job, tx, bid, steps);
    var signed := AskSign(tx, steps);
    if signed.Gave? {
      SendAgrees(ses, job, tx, bid, signed.rest);
      var sent := AskSend(tx, signed.rest);
      if sent.Gave? { PollAgrees(ses, job, tx, sent.rest); }
    }
  }

  predicate Plain(job: Job) { job.Invoke? || job.Upload? || job.Create? }

  lemma PrepareAndSendAgrees(ses: Session, job: Job, fee: nat, steps: seq<Step>)
    requires Plain(job)
    ensures var part := PrepareAndSend(ses, OpOf(ses.me, job), fee, steps);
            Tracks(part, Play(ses, NeedAccount(job, fee), steps),
                   Then(ses, part, (landed: (Tx, Option<ScVal>)) => Confirmed(job, landed.0, landed.1)))
  {
    var p := NeedAccount(job, fee);
    AccountAgrees(ses, p, steps);
    var account := AskAccount(steps);
    if account.Gave? {
      var tx := Tx(ses.me, account.value + 1, fee, OpOf(ses.me, job), None);
      assert Next(ses, p, 0, GetAccount(Some(account.value))) == Preparing(job, tx);
      PrepareAgrees(ses, job, tx, account.rest);
      var reply := AskPrepare(tx, account.rest);
      if reply.Gave? {
        if reply.value.Prepared? {
          SubmitAgrees(ses, job, Assemble(tx, reply.value.added, reply.value.data), fee, reply.rest);
        } else {
          DoneEnds(ses, Stop(Simulation), reply.rest);
        }
      }
    }
  }

  lemma PrepareExtendAgrees(ses: Session, job: Job, steps: seq<Step>)
    requires job.Extend?
    ensures var part := PrepareExtend(ses, job.key, job.extendTo, steps);
            && Tracks(part, Play(ses, NeedAccount(job, MIN_BASE_FEE), steps),
                      Then(ses, part, (first: (Tx, PrepareReply)) => AfterPrepare(job, first.0, first.1)))
            && (part.Gave? ==> part.value.0.fee == 100)
  {
    var p := NeedAccount(job, MIN_BASE_FEE);
    AccountAgrees(ses, p, steps);
    var account := AskAccount(steps);
    if account.Gave? {
      var q := NeedExtendOp(job, account.value);
      assert Next(ses, p, 0, GetAccount(Some(account.value))) == q;
      OpAgrees(ses, q, account.rest);
      var op := AskOp(account.rest);
      if op.Gave? {
        var tx := Build(ses, job, account.value, MIN_BASE_FEE);
        assert Next(ses, q, 0, BuildOp(true)) == Preparing(job, tx);
        PrepareAgrees(ses, job, tx, op.rest);
      }
    }
  }

  /** How a call stands that is the piece `part` and nothing more. */
  function Settled(part: Part<Outcome>): Progress {
    match part
    case Gave(outcome, rest) => Ending(Ok(outcome), rest)
    case Threw(error, rest) => Ending(Err(error), rest)
    case Pending => Ongoing
    case Astray => Lost
  }

  lemma SubmitExtendAgrees(ses: Session, job: Job, tx: Tx, added: nat, data: SorobanData, steps: seq<Step>)
    requires job.Extend?
    ensures Play(ses, Signing(job, Assemble(tx, added, data), tx.fee), steps) ==
            Settled(SubmitExtend(ses, tx, added, data, steps))
  {
    var assembled := Assemble(tx, added, data);
    SubmitAgrees(ses, job, assembled, tx.fee, steps);
    var landed := Submit(ses, assembled, steps);
    if landed.Gave? { DoneEnds(ses, Confirmed(job, assembled, landed.value), landed.rest); }
  }

  lemma RestoreAgrees(ses: Session, job: Job, steps: seq<Step>)
    requires job.Restore?
    ensures var part := RestoreEntry(ses, job.resourceFee, job.data, steps);
            Tracks(part, Play(ses, NeedOp(job), steps),
                   Then(ses, part, (u: ()) => NeedAccount(Extend(job.key, job.extendTo, true), MIN_BASE_FEE)))
  {
    OpAgrees(ses, NeedOp(job), steps);
    var op := AskOp(steps);
    if op.Gave? {
      RestoreFeeExact(job.resourceFee);
      var p := NeedAccount(job, RestoreFee(job.resourceFee));
      assert Next(ses, NeedOp(job), 0, BuildOp(true)) == p;
      AccountAgrees(ses, p, op.rest);
      var account := AskAccount(op.rest);
      if account.Gave? {
        var tx := Build(ses, job, account.value, p.bid);
        assert Next(ses, p, 0, GetAccount(Some(account.value))) == Signing(job, tx, p.bid);
        SubmitAgrees(ses, job, tx, p.bid, account.rest);
      }
    }
  }

  lemma RetryAgrees(ses: Session, key: LedgerKey, extendTo: nat, steps: seq<Step>)
    ensures var second := PrepareExtend(ses, key, extendTo, steps);
            Play(ses, NeedAccount(Extend(key, extendTo, true), MIN_BASE_FEE), steps) ==
            match second
            case Gave((tx, Prepared(added, data)), rest) => Settled(SubmitExtend(ses, tx, added, data, rest))
            case Gave(_, rest) => Ending(Err(Simulation), rest)
            case Threw(error, rest) => Ending(Err(error), rest)
            case Pending => Ongoing
            case Astray => Lost
  {
    var job := Extend(key, extendTo, true);
    PrepareExtendAgrees(ses, job, steps);
    var second := PrepareExtend(ses, key, extendTo, steps);
    if second.Gave? {
      if second.value.1.Prepared? {
        SubmitExtendAgrees(ses, job, second.value.0, second.value.1.added, second.value.1.data, second.rest);
      } else {
        DoneEnds(ses, Stop(Simulation), second.rest);
      }
    }
  }

  lemma ExtendAgrees(ses: Session, key: LedgerKey, extendTo: nat, steps: seq<Step>)
    ensures Play(ses, NeedAccount(Extend(key, extendTo, false), MIN_BASE_FEE), steps) ==
            Settled(RunExtend(ses, key, extendTo, steps))
  {
    var job := Job.Extend(key, extendTo, false);
    PrepareExtendAgrees(ses, job, steps);
    var first := PrepareExtend(ses, key, extendTo, steps);
    if first.Gave? {
      match first.value.1
      case Prepared(added, data) => SubmitExtendAgrees(ses, job, first.value.0, added, data, first.rest);
      case PrepareFailed => DoneEnds(ses, Stop(Simulation), first.rest);
      case RestorationRequired(fee, data) =>
        RestoreAgrees(ses, Restore(key, extendTo, fee, data), first.rest);
        var restored := RestoreEntry(ses, fee, data, first.rest);
        if restored.Gave? { RetryAgrees(ses, key, extendTo, restored.rest); }
    }
  }

  lemma InvokeAgrees(ses: Session, job: Job, steps: seq<Step>)
    requires job.Invoke?
    ensures Play(ses, NeedOp(job), steps) == Settled(RunInvoke(ses, job.contract, job.name, job.args, steps))
  {
    OpAgrees(ses, NeedOp(job), steps);
    var built := AskOp(steps);
    if built.Gave? {
      AccountAgrees(ses, PreviewAccount(job), built.rest);
      var account := AskAccount(built.rest);
      if account.Gave? {
        var tx := Tx(ses.me, account.value + 1, 100, OpOf(ses.me, job), None);
        assert Next(ses, PreviewAccount(job), 0, GetAccount(Some(account.value))) == Previewing(job, tx);
        SimulateAgrees(ses, job, tx, account.rest);
        var simulation := AskSimulate(tx, account.rest);
        if simulation.Gave? { SimulatedAgrees(ses, job, simulation.value, simulation.rest); }
      }
    }
  }

  lemma SimulatedAgrees(ses: Session, job: Job, reply: SimulateReply, steps: seq<Step>)
    requires job.Invoke?
    ensures Play(ses, AfterSimulate(job, reply), steps) == Settled(OnSimulation(ses, OpOf(ses.me, job), reply, steps))
  {
    if reply.StateChange? {
      FeeAgrees(ses, job, steps);
      var fee := AskFee(steps);
      if fee.Gave? {
        PrepareAndSendAgrees(ses, job, fee.value, fee.rest);
        var landed := PrepareAndSend(ses, OpOf(ses.me, job), fee.value, fee.rest);
        if landed.Gave? { DoneEnds(ses, Confirmed(job, landed.value.0, landed.value.1), landed.rest); }
      }
    } else {
      DoneEnds(ses, AfterSimulate(job, reply), steps);
    }
  }

  /** Where an upload goes with its hash. */
  function AfterUpload(job: Job, hash: seq<byte>): Phase
    requires job.Upload?
  {
    if job.deploy.None? then Done(Ok(Uploaded(hash)), false) else NeedCreateSigner(hash, job.deploy.value)
  }

  lemma UploadAgrees(ses: Session, job: Job, steps: seq<Step>)
    requires job.Upload?
    ensures var part := RunUpload(ses, job.wasm, steps);
            Tracks(part, Play(ses, NeedOp(job), steps), Then(ses, part, hash => AfterUpload(job, hash)))
  {
    OpAgrees(ses, NeedOp(job), steps);
    var built := AskOp(steps);
    if built.Gave? {
      FeeAgrees(ses, job, built.rest);
      var fee := AskFee(built.rest);
      if fee.Gave? {
        PrepareAndSendAgrees(ses, job, fee.value, fee.rest);
        var landed := PrepareAndSend(ses, UploadWasm(job.wasm), fee.value, fee.rest);
        if landed.Gave? && DecodeWasmHash(landed.value.1).Err? {
          DoneEnds(ses, Stop(DecodeWasmHash(landed.value.1).error), landed.rest);
        }
      }
    }
  }

  function AfterCreate(job: Job, address: ScAddress): Phase
    requires job.Create?
  {
    Done(Ok(if job.deployed then Deployed(address, job.wasmHash) else Created(address)), false)
  }

  lemma CreateAgrees(ses: Session, job: Job, steps: seq<Step>)
    requires job.Create?
    ensures var part := RunCreate(ses, job.wasmHash, job.args, steps);
            Tracks(part, Play(ses, NeedOp(job), steps), Then(ses, part, address => AfterCreate(job, address)))
  {
    OpAgrees(ses, NeedOp(job), steps);
    var built := AskOp(steps);
    if built.Gave? {
      FeeAgrees(ses, job, built.rest);
      var fee := AskFee(built.rest);
      if fee.Gave? {
        PrepareAndSendAgrees(ses, job, fee.value, fee.rest);
        var landed := PrepareAndSend(ses, CreateContract(ses.me, job.wasmHash, job.args), fee.value, fee.rest);
        if landed.Gave? && DecodeAddress(landed.value.1).Err? {
          DoneEnds(ses, Stop(DecodeAddress(landed.value.1).error), landed.rest);
        }
      }
    }
  }

  lemma CallAgrees(ses: Session, call: Call, steps: seq<Step>)
    ensures Play(ses, FirstPhase(call), steps) ==
            Settled(match call
                    case ExtendCall(Err(error), _) => Threw(error, steps)
                    case ExtendCall(Ok(key), extendTo) => RunExtend(ses, key, extendTo, steps)
                    case InvokeCall(contract, name, args) => RunInvoke(ses, contract, name, args, steps)
                    case _ => Astray)
            || call.UploadCall? || call.CreateCall? || call.DeployCall?
  {
    match call
    case ExtendCall(Err(error), _) => DoneEnds(ses, Stop(error), steps);
    case ExtendCall(Ok(key), extendTo) => ExtendAgrees(ses, key, extendTo, steps);
    case InvokeCall(contract, name, args) => InvokeAgrees(ses, Job.Invoke(contract, name, args), steps);
    case _ =>
  }

  lemma UploadCallAgrees(ses: Session, wasm: seq<byte>, steps: seq<Step>)
    ensures Play(ses, FirstPhase(UploadCall(wasm)), steps) ==
            var hash := RunUpload(ses, wasm, steps);
            match hash
            case Gave(value, rest) => Ending(Ok(Uploaded(value)), rest)
            case Threw(error, rest) => Ending(Err(error), rest)
            case Pending => Ongoing
            case Astray => Lost
  {
    var job := Job.Upload(wasm, None);
    UploadAgrees(ses, job, steps);
    var hash := RunUpload(ses, wasm, steps);
    if hash.Gave? { DoneEnds(ses, AfterUpload(job, hash.value), hash.rest); }
  }

  lemma CreateCallAgrees(ses: Session, job: Job, steps: seq<Step>)
    requires job.Create?
    ensures Play(ses, NeedOp(job), steps) ==
            var address := RunCreate(ses, job.wasmHash, job.args, steps);
            match address
            case Gave(value, rest) => Ending(AfterCreate(job, value).result, rest)
            case Threw(error, rest) => Ending(Err(error), rest)
            case Pending => Ongoing
            case Astray => Lost
  {
    CreateAgrees(ses, job, steps);
    var address := RunCreate(ses, job.wasmHash, job.args, steps);
    if address.Gave? { DoneEnds(ses, AfterCreate(job, address.value), address.rest); }
  }

  lemma DeployAgrees(ses: Session, wasm: seq<byte>, args: seq<ScVal>, steps: seq<Step>)
    ensures Play(ses, FirstPhase(DeployCall(wasm, args)), steps) ==
            var hash := RunUpload(ses, wasm, steps);
            match hash
            case Threw(error, rest) => Ending(Err(error), rest)
            case Pending => Ongoing
            case Astray => Lost
            case Gave(value, rest) =>
              var second := AskSigner(rest);
              match second
              case Threw(error, left) => Ending(Err(error), left)
              case Pending => Ongoing
              case Astray => Lost
              case Gave(_, left) =>
                var address := RunCreate(ses, value, args, left);
                match address
                case Gave(found, end) => Ending(Ok(Deployed(found, value)), end)
                case Threw(error, end) => Ending(Err(error), end)
                case Pending => Ongoing
                case Astray => Lost
  {
    UploadAgrees(ses, Job.Upload(wasm, Some(args)), steps);
    var hash := RunUpload(ses, wasm, steps);
    if hash.Gave? {
      var p := NeedCreateSigner(hash.value, args);
      SignerAgrees(ses, p, hash.rest);
      var second := AskSigner(hash.rest);
      if second.Gave? {
        var job := Job.Create(hash.value, args, true);
        assert Next(ses, p, 0, BuildSigner(true)) == NeedOp(job);
        CreateCallAgrees(ses, job, second.rest);
      }
    }
  }

  lemma PerformAgrees(ses: Session, call: Call, steps: seq<Step>)
    ensures Play(ses, NeedSigner(call), steps) == Settled(Perform(ses, call, steps))
  {
    SignerAgrees(ses, NeedSigner(call), steps);
    var signer := AskSigner(steps);
    if signer.Gave? {
      CallAgrees(ses, call, signer.rest);
      match call
      case UploadCall(wasm) => UploadCallAgrees(ses, wasm, signer.rest);
      case CreateCall(hash, args) => CreateCallAgrees(ses, Job.Create(hash, args, false), signer.rest);
      case DeployCall(wasm, args) => DeployAgrees(ses, wasm, args, signer.rest);
      case _ =>
    }
  }

  lemma {:induction false} WalkOn(ses: Session, p: Phase, steps: seq<Step>, step: Step)
    ensures Walk(ses, p, steps + [step]) ==
            match Walk(ses, p, steps)
            case None => None
            case Some(q) =>
              if step.e.Start? || !Permitted(q, step.e) then None else Some(Next(ses, q, step.at, step.e))
    decreases |steps|
  {
    if steps == [] {
      assert steps + [step] == [step];
    } else {
      assert (steps + [step])[1..] == steps[1..] + [step];
      if !steps[0].e.Start? && Permitted(p, steps[0].e) {
        WalkOn(ses, Next(ses, p, steps[0].at, steps[0].e), steps[1..], step);
      }
    }
  }

  /** The machine's phase is where the steps of its present call lead. */
  ghost predicate WalkedTo(s: Sys, log: seq<Event>, t: Sys) {
    && t.clock == ClockAfter(s.clock, log) && t.ses == s.ses && t.book.call == LastCall(log)
    && (if LastCall(log).None? then t.phase.Idle?
        else Walk(s.ses, NeedSigner(LastCall(log).value), Steps(s.clock, log)) == Some(t.phase))
  }

  lemma WalkedOn(s: Sys, before: seq<Event>, u: Sys, e: ClientEvent, dt: nat)
    requires WalkedTo(s, before, u) && ClientEnabled(u, e, dt)
    ensures WalkedTo(s, before + [Client(e, dt)], ClientApply(u, e, dt))
  {
    var log := before + [Client(e, dt)];
    assert log[..|log| - 1] == before;
    if !e.Start? && LastCall(before).Some? {
      WalkOn(s.ses, NeedSigner(LastCall(before).value), Steps(s.clock, before), Step(e, u.clock));
    }
  }

  lemma {:induction false} WalkedToHolds(s: Sys, log: seq<Event>, t: Sys)
    requires Run(s, log, t)
    ensures WalkedTo(s, log, t)
  {
    if log != [] {
      var before, ev := log[..|log| - 1], log[|log| - 1];
      var u := Reach(s, before).value;
      WalkedToHolds(s, before, u);
      assert before + [ev] == log;
      match ev
      case Client(e, dt) => WalkedOn(s, before, u, e, dt);
      case Env(_) =>
    }
  }

  /** The refinement: in every state of every run the client stands in its present call exactly where the source stands
      that was given the same answers. It has made the source's calls with the source's transactions and no other, it is
      still waiting where the source is, and it has returned what the source returns. */
  lemma RunsFollowSource(s: Sys, log: seq<Event>, t: Sys)
    requires Run(s, log, t) && LastCall(log).Some?
    ensures t.book.call == LastCall(log)
    ensures Settled(Perform(s.ses, LastCall(log).value, Steps(s.clock, log))) ==
            if t.phase.Done? then Returned(t.phase.result) else Ongoing
  {
    WalkedToHolds(s, log, t);
    PerformAgrees(s.ses, LastCall(log).value, Steps(s.clock, log));
  }
}
