/** Everything the client calls out to: RPC server, signer and clock, over an arbitrary ledger. */
module Net {
  import opened Types
  import opened Keys
  import opened Fees
  import opened Ledger
  import opened Protocol

  /** Book-keeping moved on within the same call. */
  ghost predicate SameCall(b: Book, d: Book) {
    d.call == b.call && d.mark == b.mark
  }

  /** Moved on within the same call, sending nothing. */
  ghost predicate NothingSent(b: Book, d: Book) {
    SameCall(b, d) && d.sent == b.sent
  }

  /** Moved on within the same call, sending exactly this transaction. */
  ghost predicate OnlySent(b: Book, d: Book, tx: Tx) {
    SameCall(b, d) && d.sent != [] && d.sent[|d.sent| - 1].tx == tx && d.sent == b.sent + [d.sent[|d.sent| - 1]]
  }

  function LastStatus(polls: seq<GetReply>): Option<GetReply> {
    if polls == [] then None else Some(polls[|polls| - 1])
  }

  /** Any number at all: a delay, a count, a sequence number. */
  method AnyNat() returns (n: nat) {
    var i: int := *;
    n := if i < 0 then -i else i;
  }

  /** `ses` is the client's account and poll settings, which never change. The answers are arbitrary within
      `Honest`, and before each the ledger makes any number of moves of its own. The ghost fields say
      where the protocol stands; each call requires that the protocol permits it there. */
  class Network {
    const ses: Session
    var chain: Chain
    var clock: nat
    ghost var phase: Phase
    ghost var book: Book
    ghost var log: seq<Event>
    ghost const init: Sys

    ghost function State(): Sys
      reads this
    {
      Sys(ses, chain, clock, phase, book)
    }

    /** The log is a run of the protocol that leads to the present state. */
    ghost predicate Valid()
      reads this
    {
      Run(init, log, State())
    }

    constructor (ses: Session, chain: Chain)
      requires ChainInv(chain) && forall tx | tx in chain.pending :: tx.source != ses.me
      ensures Valid() && this.ses == ses && this.chain == chain && phase == Idle && log == []
    {
      this.ses, this.chain, this.clock := ses, chain, 0;
      phase, log := Idle, [];
      book := Book([], [], None, 0, map[], {}, 0, 0, 0, FeeError, 0, 0, []);
      init := Sys(ses, chain, 0, Idle, Book([], [], None, 0, map[], {}, 0, 0, 0, FeeError, 0, 0, []));
    }

    /** The ledger moves on by itself. */
    method Interfere()
      requires Valid()
      modifies this
      ensures Valid() && clock == old(clock) && phase == old(phase)
      ensures book == old(book).(moved := book.moved)
    {
      var steps := AnyNat();
      while steps > 0
        invariant Valid() && clock == old(clock) && phase == old(phase)
        invariant book == old(book).(moved := book.moved)
      {
        var e: EnvEvent := *;
        if EnvEnabled(chain, e) {
          ghost var before := State();
          chain := EnvApply(chain, e);
          book := NoteEnv(book, before.chain.entries, e);
          log := log + [Env(e)];
          assert log[..|log| - 1] + [Env(e)] == log;
          Advances(before, Env(e));
        }
        steps := steps - 1;
      }
    }

    /** Appending an enabled event to a run gives a run. */
    lemma Advances(before: Sys, ev: Event)
      requires log != [] && Run(init, log[..|log| - 1], before)
      requires log[|log| - 1] == ev && Enabled(before, ev) && State() == Apply(before, ev)
      ensures Valid()
    {
    }

    /** A client event takes place. */
    method Commit(e: ClientEvent, dt: nat)
      requires Valid() && ClientEnabled(State(), e, dt)
      modifies this
      ensures Valid() && State() == ClientApply(old(State()), e, dt)
    {
      ghost var before := State();
      phase := Next(ses, before.phase, before.clock, e);
      book := Note(before.book, before.chain, before.phase, before.clock, e, dt, phase);
      if e.Send? && e.accepted {
        chain := chain.(pending := chain.pending + {e.tx});
      }
      clock := clock + dt;
      log := log + [Client(e, dt)];
      assert log[..|log| - 1] == old(log);
      Advances(before, Client(e, dt));
    }

    /** A call on the client begins. */
    method Begin(call: Call)
      requires Valid() && Permitted(phase, Start(call))
      modifies this
      ensures Valid() && phase == NeedSigner(call)
      ensures book.call == Some(call) && book.mark == |book.sent| && book.sent == old(book.sent)
    {
      Commit(Start(call), 0);
    }

    /** `signer_factory.build_signer`. */
    method BuildSigner() returns (r: Result<()>)
      requires Valid() && (phase.NeedSigner? || phase.NeedCreateSigner?)
      modifies this
      ensures Valid() && phase == Next(ses, old(phase), old(clock), Protocol.BuildSigner(r.Ok?))
      ensures NothingSent(old(book), book) && (r.Err? ==> r.error == Signer)
    {
      Interfere();
      var ok: bool := *;
      var dt := AnyNat();
      Commit(Protocol.BuildSigner(ok), dt);
      r := if ok then Ok(()) else Err(Signer);
    }

    /** Building an XDR operation, which the library may refuse. */
    method BuildOperation(op: Op) returns (r: Result<Op>)
      requires Valid() && (phase.NeedOp? || phase.NeedExtendOp?)
      modifies this
      ensures Valid() && phase == Next(ses, old(phase), old(clock), BuildOp(r.Ok?))
      ensures NothingSent(old(book), book) && r == (if r.Ok? then Ok(op) else Err(Xdr))
    {
      var ok: bool := *;
      var dt := AnyNat();
      Commit(BuildOp(ok), dt);
      r := if ok then Ok(op) else Err(Xdr);
    }

    method GetAccount() returns (r: Result<nat>)
      requires Valid() && (phase.PreviewAccount? || phase.NeedAccount?)
      modifies this
      ensures Valid() && NothingSent(old(book), book) && (r.Err? ==> r.error == Rpc)
      ensures phase == Next(ses, old(phase), old(clock),
                            Protocol.GetAccount(if r.Ok? then Some(r.value) else None))
    {
      Interfere();
      var n := AnyNat();
      var dt := AnyNat();
      if Honest(ses, chain, Protocol.GetAccount(Some(n))) {
        Commit(Protocol.GetAccount(Some(n)), dt);
        r := Ok(n);
      } else {
        Commit(Protocol.GetAccount(None), dt);
        r := Err(Rpc);
      }
    }

    method SimulateTransaction(tx: Tx) returns (reply: SimulateReply)
      requires Valid() && phase.Previewing? && tx == phase.tx
      modifies this
      ensures Valid() && NothingSent(old(book), book)
      ensures phase == AfterSimulate(old(phase).job, reply)
    {
      Interfere();
      var dt := AnyNat();
      reply := *;
      Commit(Simulate(tx, reply), dt);
    }

    method GetFeeStats() returns (reply: FeeReply)
      requires Valid() && phase.NeedQuote?
      modifies this
      ensures Valid() && NothingSent(old(book), book)
      ensures phase == NeedAccount(old(phase).job, InclusionFee(reply))
    {
      Interfere();
      var dt := AnyNat();
      reply := *;
      Commit(FeeStats(reply), dt);
    }

    method PrepareTransaction(tx: Tx) returns (reply: PrepareReply)
      requires Valid() && phase.Preparing? && tx == phase.tx
      modifies this
      ensures Valid() && NothingSent(old(book), book)
      ensures phase == AfterPrepare(old(phase).job, tx, reply)
    {
      Interfere();
      var dt := AnyNat();
      reply := *;
      if !Honest(ses, chain, Prepare(tx, reply)) {
        reply := PrepareFailed;
      }
      Commit(Prepare(tx, reply), dt);
    }

    /** `signer.sign`; the signature itself is not modelled, so the transaction comes back as it went in. */
    method SignTransaction(tx: Tx) returns (r: Result<Tx>)
      requires Valid() && phase.Signing? && tx == phase.tx
      modifies this
      ensures Valid() && NothingSent(old(book), book) && r == (if r.Ok? then Ok(tx) else Err(Signer))
      ensures phase == if r.Ok? then Sending(old(phase).job, tx, old(phase).bid) else Stop(Signer)
    {
      Interfere();
      var ok: bool := *;
      var dt := AnyNat();
      Commit(Sign(tx, ok), dt);
      r := if ok then Ok(tx) else Err(Signer);
    }

    /** The transaction may enter the pool whatever is answered; the answered status is not even looked at. */
    method SendTransaction(tx: Tx) returns (r: Result<()>)
      requires Valid() && phase.Sending? && tx == phase.tx
      modifies this
      ensures Valid() && OnlySent(old(book), book, tx) && (r.Err? ==> r.error == Rpc)
      ensures phase == if r.Ok? then Sent(old(phase).job, tx) else GiveUp(Rpc)
    {
      Interfere();
      var accepted: bool, ok: bool := *, *;
      var dt := AnyNat();
      Commit(Send(tx, accepted, ok), dt);
      r := if ok then Ok(()) else Err(Rpc);
    }

    /** `Instant::now()`. */
    method Now() returns (now: nat)
      requires Valid() && (phase.Sent? || phase.Checking?)
      modifies this
      ensures Valid() && NothingSent(old(book), book)
      ensures now == old(clock) <= clock && phase == Next(ses, old(phase), now, ReadClock)
      ensures LastStatus(book.polls) == if old(phase).Sent? then None else LastStatus(old(book.polls))
    {
      now := clock;
      var dt := AnyNat();
      Commit(ReadClock, dt);
    }

    /** One status call. It may take no time at all, unless polling would then never end (`Limits.PollBoundExact`): with
        interval zero and a positive timeout it takes at least one tick of the clock. `GetFailed` is an RPC error. */
    method GetTransaction(hash: Hash) returns (got: GetReply)
      requires Valid() && phase.Polling? && hash == Hash(phase.tx)
      modifies this
      ensures Valid() && NothingSent(old(book), book) && old(clock) <= clock
      ensures ses.interval == 0 && ses.timeout > 0 ==> old(clock) < clock
      ensures phase == AfterGet(old(phase).job, old(phase).tx, old(phase).start, got)
      ensures Truthful(chain, hash, got)
      ensures LastStatus(book.polls) == Some(got)
    {
      Interfere();
      var dt := AnyNat();
      got := *;
      if !Honest(ses, chain, Get(hash, got)) {
        got := GetFailed;
      }
      Commit(Get(hash, got), if ses.interval == 0 && ses.timeout > 0 then dt + 1 else dt);
    }

    method SleepInterval()
      requires Valid() && phase.Sleeping?
      modifies this
      ensures Valid() && NothingSent(old(book), book) && old(clock) + ses.interval <= clock
      ensures phase == Polling(old(phase).job, old(phase).tx, old(phase).start)
      ensures LastStatus(book.polls) == LastStatus(old(book.polls))
    {
      Interfere();
      var late := AnyNat();
      Commit(Sleep, ses.interval + late);
    }

    /** `getLedgerEntries`: the live entry, if the call goes through. */
    method ReadEntry(key: LedgerKey) returns (r: Result<Option<Entry>>)
      requires Valid()
      modifies this
      ensures Valid() && phase == old(phase) && clock == old(clock)
      ensures r.Err? ==> r.error == Rpc
      ensures r.Ok? ==> r.value == if LiveAt(chain.entries, key, chain.now) then Some(chain.entries[key]) else None
    {
      Interfere();
      var ok: bool := *;
      r := if !ok then Err(Rpc)
           else if LiveAt(chain.entries, key, chain.now) then Ok(Some(chain.entries[key]))
           else Ok(None);
    }
  }
}
