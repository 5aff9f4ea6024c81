/** What every call keeps on every run, whatever the ledger does and answers: which transactions it may
    have sent, in which order, and what its outcome says about them. */
module CallSafety {
  import opened Types
  import opened Keys
  import opened Fees
  import opened Ledger
  import opened Protocol

  /** The transaction is recorded as successful. */
  predicate Landed(c: Chain, tx: Tx) {
    Hash(tx) in c.receipts && c.receipts[Hash(tx)].success
  }

  predicate SoundJob(job: Job) {
    job.Restore? ==> forall k | k in job.data.footprint.readWrite :: k == job.key
  }

  /** The transaction is one this account may send for this job, and a TTL job touches one key only. */
  predicate Shaped(me: Account, job: Job, tx: Tx) {
    && tx.source == me && tx.sequence > 0 && tx.op == OpOf(me, job) && SoundJob(job)
    && (job.Extend? ==> tx.data.Some? && tx.data.value.footprint == Footprint([job.key], []))
    && (job.Restore? ==> tx.data == Some(job.data))
  }

  predicate Fits(call: Call, job: Job) {
    match job
    case Extend(key, extendTo, _) => call == ExtendCall(Ok(key), extendTo)
    case Restore(key, extendTo, _, _) => call == ExtendCall(Ok(key), extendTo)
    case Invoke(contract, name, args) => call == InvokeCall(contract, name, args)
    case Upload(wasm, None) => call == UploadCall(wasm)
    case Upload(wasm, Some(args)) => call == DeployCall(wasm, args)
    case Create(hash, args, deployed) =>
      if deployed then call.DeployCall? && call.args == args else call == CreateCall(hash, args)
  }

  /** `mine` is what a call may have sent before it works on `job`: nothing, except that a retried
      extend comes after its successful restore, and the second half of a deploy after the successful
      upload that returned its hash. */
  predicate SendsBefore(job: Job, mine: seq<Submission>, c: Chain) {
    match job
    case Extend(key, extendTo, true) =>
      |mine| == 1 && mine[0].job.Restore? && mine[0].job.key == key && Landed(c, mine[0].tx)
    case Create(hash, args, true) =>
      && |mine| == 1 && mine[0].job.Upload? && mine[0].job.deploy == Some(args)
      && Landed(c, mine[0].tx) && c.receipts[Hash(mine[0].tx)].ret == Some(Bytes(hash))
    case _ => mine == []
  }

  /** The transactions of a call, in the only orders possible. */
  predicate WellSent(call: Call, mine: seq<Submission>, c: Chain) {
    && (forall i | 0 <= i < |mine| :: Fits(call, mine[i].job))
    && (mine != [] ==> SendsBefore(mine[|mine| - 1].job, mine[..|mine| - 1], c))
  }

  function PreparesBefore(job: Job): nat {
    if job.Restore? || (job.Extend? && job.retry) || (job.Create? && job.deployed) then 1 else 0
  }

  function PreparesWith(job: Job): nat {
    PreparesBefore(job) + if job.Restore? then 0 else 1
  }

  function SignersFor(job: Job): nat {
    if job.Create? && job.deployed then 2 else 1
  }

  predicate Counts(b: Book, signers: nat, prepares: nat, signs: nat) {
    b.signers == signers && b.prepares == prepares && b.signs == signs
  }

  /** Working towards sending the transaction of `job`. */
  predicate Before(s: Sys, job: Job, prepares: nat, signs: nat) {
    && s.book.call.Some? && Fits(s.book.call.value, job) && SoundJob(job)
    && SendsBefore(job, Mine(s.book), s.chain)
    && Counts(s.book, SignersFor(job), prepares, |Mine(s.book)| + signs)
  }

  /** The transaction of `job` is sent; its fate is being watched. */
  predicate Watching(s: Sys, job: Job, tx: Tx) {
    var mine := Mine(s.book);
    && s.book.call.Some? && mine != [] && mine[|mine| - 1].job == job && mine[|mine| - 1].tx == tx
    && Counts(s.book, SignersFor(job), PreparesWith(job), |mine|)
  }

  predicate Returned(s: Sys, result: Result<Outcome>) {
    var b, mine := s.book, Mine(s.book);
    && b.signs == |mine| && b.prepares <= 2 && |mine| <= 2
    && (b.call.Some? && !b.call.value.DeployCall? ==> b.signers <= 1)
    && (mine != [] ==> b.signers >= if b.call.Some? && b.call.value.ExtendCall? then 1 else |mine|)
    && (result.Ok? && !result.value.SkippedNoStateChange? ==>
          mine != [] && var last := mine[|mine| - 1];
          && Landed(s.chain, last.tx) && b.prepares == PreparesWith(last.job)
          && b.signers == SignersFor(last.job)
          && var ret := s.chain.receipts[Hash(last.tx)].ret;
             match result.value
             case Executed(hash) => Hash(last.tx) == hash && (last.job.Extend? || last.job.Invoke?)
             case Uploaded(hash) => last.job.Upload? && last.job.deploy.None? && ret == Some(Bytes(hash))
             case Created(address) => last.job.Create? && !last.job.deployed && ret == Some(Address(address))
             case Deployed(address, hash) =>
               last.job.Create? && last.job.deployed && last.job.wasmHash == hash && ret == Some(Address(address)))
    && (result == Err(Simulation) && b.call.Some? && b.call.value.InvokeCall? ==> mine == [])
    && (result == Ok(SkippedNoStateChange) ==>
          b.call.Some? && b.call.value.InvokeCall? && mine == [] && b.prepares == 0)
  }

  /** Where each phase stands. */
  predicate Standing(s: Sys) {
    var p, b := s.phase, s.book;
    && (p.Idle? ==> b.call.None? && b.sent == [])
    && (p.NeedSigner? ==> b.call == Some(p.call) && Mine(b) == [] && Counts(b, 0, 0, 0))
    && (p.NeedCreateSigner? ==>
          var job := Create(p.wasmHash, p.args, true);
          b.call.Some? && Fits(b.call.value, job) && SendsBefore(job, Mine(b), s.chain) && Counts(b, 1, 1, 1))
    && (p.PreviewAccount? || p.Previewing? ==> p.job.Invoke?)
    && (p.NeedOp? || p.NeedQuote? ==> !p.job.Extend?)
    && (p.NeedQuote? || p.Preparing? ==> !p.job.Restore?)
    && (p.NeedExtendOp? ==> p.job.Extend?)
    && (p.NeedOp? || p.PreviewAccount? || p.Previewing? || p.NeedQuote? || p.NeedAccount? ||
        p.NeedExtendOp? || p.Preparing? ==>
          Before(s, p.job, PreparesBefore(p.job), 0))
    && (p.Signing? ==> Before(s, p.job, PreparesWith(p.job), 0))
    && (p.Sending? ==> Before(s, p.job, PreparesWith(p.job), 1))
    && (p.Preparing? || p.Signing? || p.Sending? ==> Shaped(s.ses.me, p.job, p.tx))
    && (p.Sent? || p.Polling? || p.Checking? || p.Sleeping? ==> Watching(s, p.job, p.tx))
    && (p.Done? ==> b.call.Some? && Returned(s, p.result))
  }

  ghost predicate AllShaped(me: Account, sent: seq<Submission>) {
    forall i | 0 <= i < |sent| :: Shaped(me, sent[i].job, sent[i].tx)
  }

  ghost predicate SendsInv(s: Sys) {
    && s.book.mark <= |s.book.sent|
    && AllShaped(s.ses.me, s.book.sent)
    && (s.book.call.Some? ==> WellSent(s.book.call.value, Mine(s.book), s.chain))
  }

  ghost predicate CallInv(s: Sys) {
    SendsInv(s) && Standing(s)
  }

  lemma SendsBeforeGrows(job: Job, mine: seq<Submission>, c: Chain, d: Chain)
    requires Grows(c, d) && SendsBefore(job, mine, c)
    ensures SendsBefore(job, mine, d)
  {
  }

  lemma WellSentStays(call: Call, mine: seq<Submission>, c: Chain, d: Chain)
    requires Grows(c, d) && WellSent(call, mine, c)
    ensures WellSent(call, mine, d)
  {
    if mine != [] { SendsBeforeGrows(mine[|mine| - 1].job, mine[..|mine| - 1], c, d); }
  }

  lemma StandingStays(s: Sys, t: Sys)
    requires Standing(s) && Grows(s.chain, t.chain)
    requires t.phase == s.phase && t.ses == s.ses && t.book == s.book.(moved := t.book.moved)
    ensures Standing(t)
  {
    assert Mine(t.book) == Mine(s.book);
  }

  lemma EnvStepKeeps(s: Sys, t: Sys)
    requires CallInv(s) && Grows(s.chain, t.chain)
    requires t.phase == s.phase && t.ses == s.ses && t.book == s.book.(moved := t.book.moved)
    ensures CallInv(t)
  {
    var mine := Mine(s.book);
    assert Mine(t.book) == mine;
    if s.book.call.Some? { WellSentStays(s.book.call.value, mine, s.chain, t.chain); }
    StandingStays(s, t);
  }

  /** With the same sends, only where the client stands has to be re-established. */
  lemma SameSends(s: Sys, t: Sys)
    requires SendsInv(s) && t.chain == s.chain && t.ses == s.ses
    requires t.book.sent == s.book.sent && t.book.mark == s.book.mark && t.book.call == s.book.call
    ensures SendsInv(t)
  {
    assert Mine(t.book) == Mine(s.book);
  }

  lemma BuildSignerStepKeeps(s: Sys, ok: bool, dt: nat)
    requires CallInv(s) && ClientEnabled(s, BuildSigner(ok), dt)
    ensures CallInv(ClientApply(s, BuildSigner(ok), dt))
  {
    assert Mine(ClientApply(s, BuildSigner(ok), dt).book) == Mine(s.book);
    SameSends(s, ClientApply(s, BuildSigner(ok), dt));
  }

  lemma BuildOpStepKeeps(s: Sys, ok: bool, dt: nat)
    requires CallInv(s) && ClientEnabled(s, BuildOp(ok), dt)
    ensures CallInv(ClientApply(s, BuildOp(ok), dt))
  {
    assert Mine(ClientApply(s, BuildOp(ok), dt).book) == Mine(s.book);
    SameSends(s, ClientApply(s, BuildOp(ok), dt));
  }

  lemma GetAccountStepKeeps(s: Sys, sequence: Option<nat>, dt: nat)
    requires CallInv(s) && ClientEnabled(s, GetAccount(sequence), dt)
    ensures CallInv(ClientApply(s, GetAccount(sequence), dt))
  {
    assert Mine(ClientApply(s, GetAccount(sequence), dt).book) == Mine(s.book);
    SameSends(s, ClientApply(s, GetAccount(sequence), dt));
  }

  lemma SimulateStepKeeps(s: Sys, tx: Tx, simulated: SimulateReply, dt: nat)
    requires CallInv(s) && ClientEnabled(s, Simulate(tx, simulated), dt)
    ensures CallInv(ClientApply(s, Simulate(tx, simulated), dt))
  {
    assert Mine(ClientApply(s, Simulate(tx, simulated), dt).book) == Mine(s.book);
    SameSends(s, ClientApply(s, Simulate(tx, simulated), dt));
  }

  lemma FeeStatsStepKeeps(s: Sys, quote: FeeReply, dt: nat)
    requires CallInv(s) && ClientEnabled(s, FeeStats(quote), dt)
    ensures CallInv(ClientApply(s, FeeStats(quote), dt))
  {
    assert Mine(ClientApply(s, FeeStats(quote), dt).book) == Mine(s.book);
    SameSends(s, ClientApply(s, FeeStats(quote), dt));
  }

  lemma PrepareStepKeeps(s: Sys, tx: Tx, prepared: PrepareReply, dt: nat)
    requires CallInv(s) && ClientEnabled(s, Prepare(tx, prepared), dt)
    ensures CallInv(ClientApply(s, Prepare(tx, prepared), dt))
  {
    assert Mine(ClientApply(s, Prepare(tx, prepared), dt).book) == Mine(s.book);
    SameSends(s, ClientApply(s, Prepare(tx, prepared), dt));
  }

  lemma SignStepKeeps(s: Sys, tx: Tx, ok: bool, dt: nat)
    requires CallInv(s) && ClientEnabled(s, Sign(tx, ok), dt)
    ensures CallInv(ClientApply(s, Sign(tx, ok), dt))
  {
    assert Mine(ClientApply(s, Sign(tx, ok), dt).book) == Mine(s.book);
    SameSends(s, ClientApply(s, Sign(tx, ok), dt));
  }

  /** Still watching the transaction, or given up on it. */
  lemma WatchStands(s: Sys, t: Sys)
    requires SendsInv(s) && (s.phase.Sent? || s.phase.Polling? || s.phase.Checking? || s.phase.Sleeping?)
    requires Watching(s, s.phase.job, s.phase.tx)
    requires match t.phase
             case Polling(job, tx, _) => job == s.phase.job && tx == s.phase.tx
             case Checking(job, tx, _) => job == s.phase.job && tx == s.phase.tx
             case Sleeping(job, tx, _) => job == s.phase.job && tx == s.phase.tx
             case Done(result, _) => result.Err? && result != Err(Simulation)
             case _ => false
    requires Mine(t.book) == Mine(s.book) && t.book.call == s.book.call
    requires Counts(t.book, s.book.signers, s.book.prepares, s.book.signs)
    ensures Standing(t)
  {
    var mine := Mine(s.book);
    assert SendsBefore(s.phase.job, mine[..|mine| - 1], s.chain);
  }

  lemma ReadClockStepKeeps(s: Sys, dt: nat)
    requires CallInv(s) && ClientEnabled(s, ReadClock, dt)
    ensures CallInv(ClientApply(s, ReadClock, dt))
  {
    assert Mine(ClientApply(s, ReadClock, dt).book) == Mine(s.book);
    WatchStands(s, ClientApply(s, ReadClock, dt));
    SameSends(s, ClientApply(s, ReadClock, dt));
  }

  lemma SleepStepKeeps(s: Sys, dt: nat)
    requires CallInv(s) && ClientEnabled(s, Sleep, dt)
    ensures CallInv(ClientApply(s, Sleep, dt))
  {
    assert Mine(ClientApply(s, Sleep, dt).book) == Mine(s.book);
    WatchStands(s, ClientApply(s, Sleep, dt));
    SameSends(s, ClientApply(s, Sleep, dt));
  }

  lemma MineGrows(b: Book, d: Book, sub: Submission)
    requires b.mark <= |b.sent| && d.mark == b.mark && d.sent == b.sent + [sub]
    ensures Mine(d) == Mine(b) + [sub] && Mine(d)[|Mine(d)| - 1] == sub && Mine(d)[..|Mine(d)| - 1] == Mine(b)
  {
    assert Mine(d) == Mine(b) + [sub];
  }

  lemma WellSentGrows(call: Call, mine: seq<Submission>, sub: Submission, c: Chain)
    requires WellSent(call, mine, c) && Fits(call, sub.job) && SendsBefore(sub.job, mine, c)
    ensures WellSent(call, mine + [sub], c)
  {
    assert (mine + [sub])[..|mine|] == mine;
  }

  lemma SendStands(s: Sys, t: Sys, sub: Submission)
    requires Before(s, sub.job, PreparesWith(sub.job), 1) && WellSent(s.book.call.value, Mine(s.book), s.chain)
    requires s.book.mark <= |s.book.sent| && t.chain == s.chain && t.book.call == s.book.call
    requires t.book.sent == s.book.sent + [sub] && t.book.mark == s.book.mark
    requires Counts(t.book, s.book.signers, s.book.prepares, s.book.signs)
    requires t.phase == Phase.Sent(sub.job, sub.tx) || t.phase == GiveUp(Rpc)
    ensures Standing(t) && WellSent(t.book.call.value, Mine(t.book), t.chain)
  {
    MineGrows(s.book, t.book, sub);
    WellSentGrows(s.book.call.value, Mine(s.book), sub, s.chain);
  }

  lemma PoolIrrelevant(s: Sys, t: Sys)
    requires CallInv(s) && t == s.(chain := s.chain.(pending := t.chain.pending))
    ensures CallInv(t)
  {
    EnvStepKeeps(s, t);
  }

  lemma SendStepKeeps(s: Sys, tx: Tx, accepted: bool, ok: bool, dt: nat)
    requires CallInv(s) && ClientEnabled(s, Send(tx, accepted, ok), dt)
    ensures CallInv(ClientApply(s, Send(tx, accepted, ok), dt))
  {
    var t := ClientApply(s, Send(tx, accepted, ok), dt);
    var sub := Submission(s.phase.job, tx, s.phase.bid, s.book.quote, Hash(tx) in s.chain.receipts);
    SendStands(s, t.(chain := s.chain), sub);
    PoolIrrelevant(t.(chain := s.chain), t);
  }

  /** The transaction polled in `s` is confirmed, and `t` is where the client goes. */
  predicate Confirms(s: Sys, t: Sys, ret: Option<ScVal>) {
    && s.phase.Polling? && Watching(s, s.phase.job, s.phase.tx) && Landed(s.chain, s.phase.tx)
    && WellSent(s.book.call.value, Mine(s.book), s.chain)
    && (ret.Some? ==> ret == s.chain.receipts[Hash(s.phase.tx)].ret)
    && t.phase == Confirmed(s.phase.job, s.phase.tx, ret) && t.chain == s.chain
    && Mine(t.book) == Mine(s.book) && t.book.call == s.book.call
    && Counts(t.book, s.book.signers, s.book.prepares, s.book.signs)
  }

  lemma ExecutedStands(s: Sys, t: Sys, ret: Option<ScVal>)
    requires Confirms(s, t, ret) && (s.phase.job.Extend? || s.phase.job.Invoke?)
    ensures Standing(t)
  {
    var mine := Mine(s.book);
    assert SendsBefore(s.phase.job, mine[..|mine| - 1], s.chain);
  }

  lemma RestoredStands(s: Sys, t: Sys, ret: Option<ScVal>)
    requires Confirms(s, t, ret) && s.phase.job.Restore?
    ensures Standing(t)
  {
    var mine := Mine(s.book);
    assert SendsBefore(s.phase.job, mine[..|mine| - 1], s.chain);
    assert mine == [mine[0]];
  }

  lemma UploadedStands(s: Sys, t: Sys, ret: Option<ScVal>)
    requires Confirms(s, t, ret) && s.phase.job.Upload?
    ensures Standing(t)
  {
    var mine := Mine(s.book);
    assert SendsBefore(s.phase.job, mine[..|mine| - 1], s.chain);
    assert mine == [mine[0]];
  }

  lemma CreatedStands(s: Sys, t: Sys, ret: Option<ScVal>)
    requires Confirms(s, t, ret) && s.phase.job.Create?
    ensures Standing(t)
  {
    var mine := Mine(s.book);
    assert SendsBefore(s.phase.job, mine[..|mine| - 1], s.chain);
  }

  /** A confirmed job leads to a phase that stands where it should. */
  lemma ConfirmedStands(s: Sys, t: Sys, ret: Option<ScVal>)
    requires Confirms(s, t, ret)
    ensures Standing(t)
  {
    match s.phase.job
    case Restore(_, _, _, _) => RestoredStands(s, t, ret);
    case Upload(_, _) => UploadedStands(s, t, ret);
    case Create(_, _, _) => CreatedStands(s, t, ret);
    case _ => ExecutedStands(s, t, ret);
  }

  lemma GetStepKeeps(s: Sys, hash: Hash, got: GetReply, dt: nat)
    requires CallInv(s) && ClientEnabled(s, Get(hash, got), dt)
    ensures CallInv(ClientApply(s, Get(hash, got), dt))
  {
    var t := ClientApply(s, Get(hash, got), dt);
    var mine := Mine(s.book);
    assert Mine(t.book) == mine;
    if got.Success? {
      ConfirmedStands(s, t, got.ret);
    } else {
      WatchStands(s, t);
    }
    SameSends(s, t);
  }

  lemma StartStepKeeps(s: Sys, call: Call, dt: nat)
    requires CallInv(s) && ClientEnabled(s, Start(call), dt)
    ensures CallInv(ClientApply(s, Start(call), dt))
  {
  }

  lemma PlanStepKeeps(s: Sys, e: ClientEvent, dt: nat)
    requires CallInv(s) && ClientEnabled(s, e, dt)
    requires e.Start? || e.BuildSigner? || e.BuildOp? || e.GetAccount? || e.Simulate? || e.FeeStats?
    ensures CallInv(ClientApply(s, e, dt))
  {
    match e
    case Start(call) => StartStepKeeps(s, call, dt);
    case BuildSigner(ok) => BuildSignerStepKeeps(s, ok, dt);
    case BuildOp(ok) => BuildOpStepKeeps(s, ok, dt);
    case GetAccount(sequence) => GetAccountStepKeeps(s, sequence, dt);
    case Simulate(tx, simulated) => SimulateStepKeeps(s, tx, simulated, dt);
    case FeeStats(quote) => FeeStatsStepKeeps(s, quote, dt);
  }

  lemma SubmitStepKeeps(s: Sys, e: ClientEvent, dt: nat)
    requires CallInv(s) && ClientEnabled(s, e, dt)
    requires e.Prepare? || e.Sign? || e.Send? || e.ReadClock? || e.Get? || e.Sleep?
    ensures CallInv(ClientApply(s, e, dt))
  {
    match e
    case Prepare(tx, prepared) => PrepareStepKeeps(s, tx, prepared, dt);
    case Sign(tx, ok) => SignStepKeeps(s, tx, ok, dt);
    case Send(tx, accepted, ok) => SendStepKeeps(s, tx, accepted, ok, dt);
    case ReadClock => ReadClockStepKeeps(s, dt);
    case Get(hash, got) => GetStepKeeps(s, hash, got, dt);
    case Sleep => SleepStepKeeps(s, dt);
  }

  lemma ClientStepKeeps(s: Sys, e: ClientEvent, dt: nat)
    requires CallInv(s) && ClientEnabled(s, e, dt)
    ensures CallInv(ClientApply(s, e, dt))
  {
    if e.Prepare? || e.Sign? || e.Send? || e.ReadClock? || e.Get? || e.Sleep? {
      SubmitStepKeeps(s, e, dt);
    } else {
      PlanStepKeeps(s, e, dt);
    }
  }

  /** Every state of every run satisfies `CallInv`. */
  lemma {:induction false} CallInvHolds(s: Sys, log: seq<Event>, t: Sys)
    requires Run(s, log, t)
    ensures CallInv(t)
  {
    if log != [] {
      var state, ev := Reach(s, log[..|log| - 1]).value, log[|log| - 1];
      CallInvHolds(s, log[..|log| - 1], state);
      match ev
      case Client(e, dt) => ClientStepKeeps(state, e, dt);
      case Env(e) =>
        EnvGrows(state.chain, e);
        EnvStepKeeps(state, t);
    }
  }

  lemma {:induction false} ChainInvHolds(s: Sys, log: seq<Event>, t: Sys)
    requires Run(s, log, t)
    ensures ChainInv(t.chain) && t.ses == s.ses
  {
    if log != [] {
      var state, ev := Reach(s, log[..|log| - 1]).value, log[|log| - 1];
      ChainInvHolds(s, log[..|log| - 1], state);
      if ev.Env? { EnvKeepsChainInv(state.chain, ev.env); }
    }
  }
}
