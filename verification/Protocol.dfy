/** The client as a state machine over its RPC calls, composed with the ledger of module `Ledger`.

    `Phase` is where the client stands, `Next` how an answered call moves it on, `Runs` the runs of
    client and ledger together, under any interleaving and any answers the ledger may give. The
    imperative modules prove that their methods follow this machine; the safety modules prove what
    every run of it keeps. */
module Protocol {
  import opened Types
  import opened Keys
  import opened Fees
  import opened Ledger

  /** `PollConfig`, and the account whose signer the client uses. Times are in clock ticks. */
  datatype Session = Session(me: Account, interval: nat, timeout: nat)

  /** One call on `Client`. An extend carries its ledger key, or why building that key failed. */
  datatype Call =
    | ExtendCall(key: Result<LedgerKey>, extendTo: nat)
    | InvokeCall(contract: ScAddress, name: string, args: seq<ScVal>)
    | UploadCall(wasm: seq<byte>)
    | CreateCall(wasmHash: seq<byte>, args: seq<ScVal>)
    | DeployCall(wasm: seq<byte>, args: seq<ScVal>)

  /** What the transaction being worked on is for. `retry` marks the extend after a restore;
      `deploy` and `deployed` mark the two halves of a deploy. */
  datatype Job =
    | Extend(key: LedgerKey, extendTo: nat, retry: bool)
    | Restore(key: LedgerKey, extendTo: nat, resourceFee: int, data: SorobanData)
    | Invoke(contract: ScAddress, name: string, args: seq<ScVal>)
    | Upload(wasm: seq<byte>, deploy: Option<seq<ScVal>>)
    | Create(wasmHash: seq<byte>, args: seq<ScVal>, deployed: bool)

  datatype Outcome =
    | Executed(hash: Hash)
    | SkippedNoStateChange
    | Uploaded(wasmHash: seq<byte>)
    | Created(address: ScAddress)
    | Deployed(address: ScAddress, wasmHash: seq<byte>)

  datatype SimulateReply = SimulateFailed | SimulationError | NoStateChange | StateChange

  datatype PrepareReply =
    | PrepareFailed
    | RestorationRequired(resourceFee: int, restoreData: SorobanData)
    | Prepared(added: nat, data: SorobanData)

  datatype GetReply = GetFailed | NotFound | Success(ret: Option<ScVal>) | Failed

  /** A client-side event: a call together with its answer. */
  datatype ClientEvent =
    | Sleep
    | ReadClock
    | Start(call: Call)
    | BuildSigner(ok: bool)
    | BuildOp(ok: bool)
    | GetAccount(sequence: Option<nat>)
    | Simulate(tx: Tx, simulated: SimulateReply)
    | FeeStats(quote: FeeReply)
    | Prepare(tx: Tx, prepared: PrepareReply)
    | Sign(tx: Tx, ok: bool)
    | Send(tx: Tx, accepted: bool, ok: bool)
    | Get(hash: Hash, got: GetReply)

  /** `dt` is how long a client event takes. */
  datatype Event = Client(e: ClientEvent, dt: nat) | Env(env: EnvEvent)

  /** What the client does next. `Done.dangling` says the call gave up on a transaction it may have
      sent and whose fate it does not know. */
  datatype Phase =
    | Idle
    | NeedSigner(call: Call)
    | NeedCreateSigner(wasmHash: seq<byte>, args: seq<ScVal>)
    | NeedOp(job: Job)
    | PreviewAccount(job: Job)
    | Previewing(job: Job, tx: Tx)
    | NeedQuote(job: Job)
    | NeedAccount(job: Job, bid: nat)
    | NeedExtendOp(job: Job, account: nat)
    | Preparing(job: Job, tx: Tx)
    | Signing(job: Job, tx: Tx, bid: nat)
    | Sending(job: Job, tx: Tx, bid: nat)
    | Sent(job: Job, tx: Tx)
    | Polling(job: Job, tx: Tx, start: nat)
    | Checking(job: Job, tx: Tx, start: nat)
    | Sleeping(job: Job, tx: Tx, start: nat)
    | Done(result: Result<Outcome>, dangling: bool)

  function Stop(error: Error): Phase { Done(Err(error), false) }

  function GiveUp(error: Error): Phase { Done(Err(error), true) }

  /** `extend_footprint_data`: a read-only footprint of one key, everything else zero. */
  function ExtendFootprintData(key: LedgerKey): SorobanData {
    SorobanData(Footprint([key], []), 0, 0, 0, 0)
  }

  function OpOf(me: Account, job: Job): Op {
    match job
    case Extend(_, extendTo, _) => ExtendFootprintTtl(extendTo)
    case Restore(_, _, _, _) => RestoreFootprint
    case Invoke(contract, name, args) => InvokeContract(contract, name, args)
    case Upload(wasm, _) => UploadWasm(wasm)
    case Create(hash, args, _) => CreateContract(me, hash, args)
  }

  function DataOf(job: Job): Option<SorobanData> {
    match job
    case Extend(key, _, _) => Some(ExtendFootprintData(key))
    case Restore(_, _, _, data) => Some(data)
    case _ => None
  }

  /** The built transaction: the account's sequence number plus one, the bid, the operation. */
  function Build(ses: Session, job: Job, account: nat, bid: nat): Tx {
    Tx(ses.me, account + 1, bid, OpOf(ses.me, job), DataOf(job))
  }

  /** `prepare_transaction` adds the resource fee and fills in the Soroban data. */
  function Assemble(tx: Tx, added: nat, data: SorobanData): Tx {
    tx.(fee := tx.fee + added, data := Some(data))
  }

  function FirstPhase(call: Call): Phase {
    match call
    case ExtendCall(key, extendTo) =>
      if key.Err? then Stop(key.error) else NeedAccount(Extend(key.value, extendTo, false), MIN_BASE_FEE)
    case InvokeCall(contract, name, args) => NeedOp(Invoke(contract, name, args))
    case UploadCall(wasm) => NeedOp(Upload(wasm, None))
    case CreateCall(hash, args) => NeedOp(Create(hash, args, false))
    case DeployCall(wasm, args) => NeedOp(Upload(wasm, Some(args)))
  }

  function AfterOp(job: Job): Phase {
    match job
    case Invoke(_, _, _) => PreviewAccount(job)
    case Restore(_, _, fee, _) => NeedAccount(job, RestoreFee(fee))
    case _ => NeedQuote(job)
  }

  function DecodeWasmHash(ret: Option<ScVal>): Result<seq<byte>> {
    if ret.None? then Err(MissingReturnValue)
    else if ret.value.Bytes? && |ret.value.bytes| == 32 then Ok(ret.value.bytes)
    else Err(Xdr)
  }

  function DecodeAddress(ret: Option<ScVal>): Result<ScAddress> {
    if ret.None? then Err(MissingReturnValue)
    else if ret.value.Address? then Ok(ret.value.address)
    else Err(Xdr)
  }

  /** Where a job goes once its transaction is reported successful. */
  function Confirmed(job: Job, tx: Tx, ret: Option<ScVal>): Phase {
    match job
    case Extend(_, _, _) => Done(Ok(Executed(Hash(tx))), false)
    case Invoke(_, _, _) => Done(Ok(Executed(Hash(tx))), false)
    case Restore(key, extendTo, _, _) => NeedAccount(Extend(key, extendTo, true), MIN_BASE_FEE)
    case Upload(_, deploy) =>
      var hash := DecodeWasmHash(ret);
      if hash.Err? then Stop(hash.error)
      else if deploy.None? then Done(Ok(Uploaded(hash.value)), false)
      else NeedCreateSigner(hash.value, deploy.value)
    case Create(hash, _, deployed) =>
      var address := DecodeAddress(ret);
      if address.Err? then Stop(address.error)
      else if deployed then Done(Ok(Deployed(address.value, hash)), false)
      else Done(Ok(Created(address.value)), false)
  }

  /** Whether a `Get` answer ends the polling of a transaction, and how. */
  function AfterGet(job: Job, tx: Tx, start: nat, got: GetReply): Phase {
    match got
    case GetFailed => GiveUp(Rpc)
    case NotFound => Checking(job, tx, start)
    case Success(ret) => Confirmed(job, tx, ret)
    case Failed => Stop(TransactionFailed)
  }

  function AfterPrepare(job: Job, tx: Tx, prepared: PrepareReply): Phase {
    match prepared
    case PrepareFailed => Stop(Simulation)
    case RestorationRequired(fee, data) =>
      if job.Extend? && !job.retry then NeedOp(Restore(job.key, job.extendTo, fee, data)) else Stop(Simulation)
    case Prepared(added, data) => Signing(job, Assemble(tx, added, data), tx.fee)
  }

  function AfterAccount(ses: Session, job: Job, bid: nat, account: nat): Phase {
    match job
    case Extend(_, _, _) => NeedExtendOp(job, account)
    case Restore(_, _, _, _) => Signing(job, Build(ses, job, account, bid), bid)
    case _ => Preparing(job, Build(ses, job, account, bid))
  }

  function AfterSimulate(job: Job, simulated: SimulateReply): Phase {
    match simulated
    case NoStateChange => Done(Ok(SkippedNoStateChange), false)
    case StateChange => NeedQuote(job)
    case _ => Stop(Simulation)
  }

  /** A key that could not be built failed as a bad address or as an XDR value. */
  predicate Sensible(call: Call) {
    call.ExtendCall? && call.key.Err? ==> call.key.error == Xdr || call.key.error == InvalidAddress
  }

  /** The calls the client may make in a phase. */
  predicate Permitted(phase: Phase, e: ClientEvent) {
    match e
    case Start(call) => (phase.Idle? || phase.Done?) && Sensible(call)
    case BuildSigner(_) => phase.NeedSigner? || phase.NeedCreateSigner?
    case BuildOp(_) => phase.NeedOp? || phase.NeedExtendOp?
    case GetAccount(_) => phase.PreviewAccount? || phase.NeedAccount?
    case Simulate(tx, _) => phase.Previewing? && tx == phase.tx
    case FeeStats(_) => phase.NeedQuote?
    case Prepare(tx, _) => phase.Preparing? && tx == phase.tx
    case Sign(tx, _) => phase.Signing? && tx == phase.tx
    case Send(tx, _, _) => phase.Sending? && tx == phase.tx
    case ReadClock => phase.Sent? || phase.Checking?
    case Get(hash, _) => phase.Polling? && hash == Hash(phase.tx)
    case Sleep => phase.Sleeping?
  }

  /** The client's reaction to a call answered at time `clock`. */
  function Next(ses: Session, phase: Phase, clock: nat, e: ClientEvent): Phase
    requires Permitted(phase, e)
  {
    match e
    case Start(call) => NeedSigner(call)
    case BuildSigner(ok) =>
      if !ok then Stop(Signer)
      else if phase.NeedSigner? then FirstPhase(phase.call)
      else NeedOp(Create(phase.wasmHash, phase.args, true))
    case BuildOp(ok) =>
      if !ok then Stop(Xdr)
      else if phase.NeedOp? then AfterOp(phase.job)
      else Preparing(phase.job, Build(ses, phase.job, phase.account, MIN_BASE_FEE))
    case GetAccount(sequence) =>
      if sequence.None? then Stop(Rpc)
      else if phase.PreviewAccount? then Previewing(phase.job, Build(ses, phase.job, sequence.value, MIN_BASE_FEE))
      else AfterAccount(ses, phase.job, phase.bid, sequence.value)
    case Simulate(_, simulated) => AfterSimulate(phase.job, simulated)
    case FeeStats(quote) => NeedAccount(phase.job, InclusionFee(quote))
    case Prepare(tx, prepared) => AfterPrepare(phase.job, tx, prepared)
    case Sign(tx, ok) => if ok then Sending(phase.job, tx, phase.bid) else Stop(Signer)
    case Send(tx, _, ok) => if ok then Sent(phase.job, tx) else GiveUp(Rpc)
    case ReadClock =>
      if phase.Sent? then Polling(phase.job, phase.tx, clock)
      else if clock >= phase.start + ses.timeout then GiveUp(Timeout)
      else Sleeping(phase.job, phase.tx, phase.start)
    case Get(_, got) => AfterGet(phase.job, phase.tx, phase.start, got)
    case Sleep => Polling(phase.job, phase.tx, phase.start)
  }

  /** A final status is reported only of a transaction whose receipt says so. */
  predicate Truthful(c: Chain, hash: Hash, got: GetReply) {
    match got
    case Success(ret) => hash in c.receipts && c.receipts[hash].success && (ret.Some? ==> ret == c.receipts[hash].ret)
    case Failed => hash in c.receipts && !c.receipts[hash].success
    case _ => true
  }

  /** What the ledger promises about its answers. Any call may fail, account reads may be stale, status
      reads may lag, and a send may be accepted or not whatever it reports; but a final status is
      never reported for a transaction that did not land with it, `prepare` keeps the footprint it
      was given, and a restore preamble names only keys that footprint named. */
  predicate Honest(ses: Session, c: Chain, e: ClientEvent) {
    match e
    case GetAccount(Some(n)) => ses.me in c.sequences && n <= c.sequences[ses.me]
    case Prepare(tx, Prepared(_, data)) => tx.data.Some? ==> data.footprint == tx.data.value.footprint
    case Prepare(tx, RestorationRequired(fee, data)) =>
      && -TWO_63 <= fee < TWO_63
      && (tx.data.Some? ==> forall k | k in data.footprint.readWrite :: k in tx.data.value.footprint.readOnly)
    case Get(hash, got) => Truthful(c, hash, got)
    case _ => true
  }

  /** A transaction handed to `send_transaction`: its job, its bid before assembly, the last fee quote, and
      whether the ledger had recorded the very same transaction already. */
  datatype Submission = Submission(job: Job, tx: Tx, bid: nat, quote: FeeReply, already: bool)

  /** History variables. `sent` and `executed` cover the whole run; the rest is about the current call,
      which began when `|sent|` was `mark`; `polls` is about the last transaction polled. `moved`
      holds the keys whose entries were changed meanwhile by anything but this call's own transactions. */
  datatype Book = Book(
    sent: seq<Submission>,
    executed: seq<Hash>,
    call: Option<Call>,
    mark: nat,
    entriesAtStart: Entries,
    moved: set<LedgerKey>,
    signers: nat,
    prepares: nat,
    signs: nat,
    quote: FeeReply,
    pollStart: nat,
    pollEnd: nat,
    polls: seq<GetReply>)

  /** The transactions the current call has sent. */
  function Mine(b: Book): seq<Submission> {
    if b.mark <= |b.sent| then b.sent[b.mark..] else []
  }

  predicate SentBy(sends: seq<Submission>, tx: Tx) {
    exists i | 0 <= i < |sends| :: sends[i].tx == tx
  }

  /** The entry under the key, or its absence, is the same in both. */
  predicate SameEntry(before: Entries, after: Entries, key: LedgerKey) {
    && (key in before <==> key in after)
    && (key in before ==> after[key] == before[key])
  }

  function Changed(before: Entries, after: Entries): set<LedgerKey> {
    set k | k in before.Keys + after.Keys && !SameEntry(before, after, k)
  }

  /** `entries` are the ones before the event. */
  function NoteEnv(b: Book, entries: Entries, e: EnvEvent): Book {
    match e
    case Land(tx, _, _, after) => if SentBy(Mine(b), tx) then b else b.(moved := b.moved + Changed(entries, after))
    case Foreign(_, after) => b.(moved := b.moved + Changed(entries, after))
    case _ => b
  }

  /** `next` is the phase the event leads to. */
  function Note(b: Book, c: Chain, phase: Phase, clock: nat, e: ClientEvent, dt: nat, next: Phase): Book
    requires Permitted(phase, e)
  {
    match e
    case Start(call) => b.(call := Some(call), mark := |b.sent|, entriesAtStart := c.entries,
                           moved := {}, signers := 0, prepares := 0, signs := 0, polls := [])
    case BuildSigner(ok) => if ok then b.(signers := b.signers + 1) else b
    case FeeStats(quote) => b.(quote := quote)
    case Prepare(_, _) => b.(prepares := b.prepares + 1)
    case Sign(_, ok) => if ok then b.(signs := b.signs + 1) else b
    case Send(tx, _, _) => b.(sent := b.sent + [Submission(phase.job, tx, phase.bid, b.quote, Hash(tx) in c.receipts)])
    case ReadClock =>
      if phase.Sent? then b.(pollStart := clock, polls := []) else b.(pollEnd := clock + dt)
    case Get(hash, got) =>
      b.(polls := b.polls + [got], pollEnd := clock + dt,
         executed := if next.Done? && next.result.Ok? && next.result.value.Executed?
                     then b.executed + [hash] else b.executed)
    case _ => b
  }

  /** Client and ledger together. */
  datatype Sys = Sys(ses: Session, chain: Chain, clock: nat, phase: Phase, book: Book)

  predicate ClientEnabled(s: Sys, e: ClientEvent, dt: nat) {
    Permitted(s.phase, e) && Honest(s.ses, s.chain, e) && (e.Sleep? ==> s.ses.interval <= dt)
  }

  function ClientApply(s: Sys, e: ClientEvent, dt: nat): Sys
    requires ClientEnabled(s, e, dt)
  {
    var next := Next(s.ses, s.phase, s.clock, e);
    var chain := if e.Send? && e.accepted then s.chain.(pending := s.chain.pending + {e.tx}) else s.chain;
    Sys(s.ses, chain, s.clock + dt, next, Note(s.book, s.chain, s.phase, s.clock, e, dt, next))
  }

  predicate Enabled(s: Sys, ev: Event) {
    match ev
    case Client(e, dt) => ClientEnabled(s, e, dt)
    case Env(e) => EnvEnabled(s.chain, e)
  }

  function Apply(s: Sys, ev: Event): Sys
    requires Enabled(s, ev)
  {
    match ev
    case Client(e, dt) => ClientApply(s, e, dt)
    case Env(e) => s.(chain := EnvApply(s.chain, e), book := NoteEnv(s.book, s.chain.entries, e))
  }

  /** A client that has made no call yet, on a ledger that holds none of its transactions in flight. */
  ghost predicate Init(s: Sys) {
    && s.phase == Idle
    && s.book.sent == [] && s.book.executed == [] && s.book.call.None? && s.book.mark == 0
    && s.book.pollStart == 0 && s.book.pollEnd == 0 && s.book.polls == []
    && ChainInv(s.chain)
    && (forall tx | tx in s.chain.pending :: tx.source != s.ses.me)
  }

  /** The state the run `log` from `s` ends in; none when `log` is not a run. */
  ghost function Reach(s: Sys, log: seq<Event>): Option<Sys> {
    if log == [] then Some(s)
    else
      var before := Reach(s, log[..|log| - 1]);
      if before.Some? && Enabled(before.value, log[|log| - 1])
      then Some(Apply(before.value, log[|log| - 1]))
      else None
  }

  /** `log` is a run of a fresh client that ends in `t`. */
  ghost predicate Run(s: Sys, log: seq<Event>, t: Sys) {
    match Reach(s, log)
    case Some(end) => Init(s) && end == t
    case None => false
  }

  /** `log` is a run from `s`, and every step of it satisfies `p` in the state it is taken from. */
  ghost predicate RunsWithin(s: Sys, log: seq<Event>, p: (Sys, Event) -> bool) {
    Reach(s, log).Some? &&
    (log == [] ||
     (RunsWithin(s, log[..|log| - 1], p) && p(Reach(s, log[..|log| - 1]).value, log[|log| - 1])))
  }
}
