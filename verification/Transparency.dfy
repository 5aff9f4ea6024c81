/** What TTL calls do to the ledger's entries: restore-then-retry is invisible, and each surface is alone. */
module Transparency {
  import opened Types
  import opened Keys
  import opened Ledger
  import opened Protocol
  import opened CallSafety
  import opened Outcomes

  predicate TtlJob(job: Job) { job.Extend? || job.Restore? }

  /** The key is live at `ledger` and stays so at least until `extendTo`. */
  predicate Reached(entries: Entries, key: LedgerKey, ledger: nat, extendTo: nat) {
    LiveAt(entries, key, ledger) && extendTo <= entries[key].liveUntil
  }

  /** A landed TTL transaction raises at most the one key its job names and changes no value. */
  lemma TtlReceiptRaisesOnly(me: Account, sub: Submission, r: Receipt)
    requires Shaped(me, sub.job, sub.tx) && TtlJob(sub.job) && Lands(sub.tx, r)
    ensures RaisesOnly(r.before, r.after, sub.job.key)
  {
  }

  /** As far as this key is concerned: as present as before, with the same value, and not lowered. */
  predicate KeyRaised(before: Entries, after: Entries, key: LedgerKey) {
    && (key in before <==> key in after)
    && (key in before ==> after[key].value == before[key].value && before[key].liveUntil <= after[key].liveUntil)
  }

  lemma KeyRaisedTransitive(a: Entries, b: Entries, c: Entries, key: LedgerKey)
    requires KeyRaised(a, b, key) && (KeyRaised(b, c, key) || SameEntry(b, c, key))
    ensures KeyRaised(a, c, key)
  {
  }

  /** The call sent this transaction when it was not recorded yet, and it is recorded now. */
  predicate LandedSince(sub: Submission, c: Chain) {
    !sub.already && Hash(sub.tx) in c.receipts
  }

  /** The entries the last transaction of the call works on: as its restore left them, if one landed, else as they
      were at the start. */
  function Origin(mine: seq<Submission>, c: Chain, start: Entries): Entries {
    if |mine| == 2 && LandedSince(mine[0], c) then c.receipts[Hash(mine[0].tx)].after else start
  }

  /** What has become of `key` while nobody but the call's own transactions moved it: it was only raised, since the
      start of the call and since its first landing; until its last transaction lands it is as in `Origin`, and so it is
      just before that landing; from then on it is as that landing left it. */
  predicate RaisedBy(mine: seq<Submission>, c: Chain, start: Entries, key: LedgerKey) {
    && KeyRaised(start, c.entries, key)
    && (mine != [] && LandedSince(mine[0], c) ==>
          KeyRaised(c.receipts[Hash(mine[0].tx)].after, c.entries, key))
    && (mine != [] && LandedSince(mine[|mine| - 1], c) ==>
          var r := c.receipts[Hash(mine[|mine| - 1].tx)];
          && SameEntry(r.after, c.entries, key) && KeyRaised(start, r.before, key)
          && (|mine| == 2 && LandedSince(mine[0], c) ==>
                KeyRaised(c.receipts[Hash(mine[0].tx)].after, r.before, key)))
    && (forall i | 0 <= i < |mine| :: mine[i].already ==> Hash(mine[i].tx) in c.receipts)
    && (|mine| <= 2 ==>
          if mine != [] && LandedSince(mine[|mine| - 1], c)
          then SameEntry(Origin(mine, c, start), c.receipts[Hash(mine[|mine| - 1].tx)].before, key)
          else SameEntry(Origin(mine, c, start), c.entries, key))
  }

  predicate OnKey(b: Book) {
    b.call.Some? && b.call.value.ExtendCall? && b.call.value.key.Ok?
  }

  /** Every entry but that of `key` is the same, as long as nobody else changed it. */
  ghost predicate OthersStill(before: Entries, after: Entries, key: LedgerKey, moved: set<LedgerKey>) {
    forall k | k != key && k !in moved :: SameEntry(before, after, k)
  }

  ghost predicate RaisedSoFar(t: Sys) {
    && t.book.mark <= |t.book.sent|
    && (OnKey(t.book) ==>
          var start, key, moved := t.book.entriesAtStart, t.book.call.value.key.value, t.book.moved;
          && OthersStill(start, t.chain.entries, key, moved)
          && (key !in moved ==> RaisedBy(Mine(t.book), t.chain, start, key)))
  }

  /** What a TTL call has sent and is not yet recorded can only be the transaction it sent last. */
  lemma UnrecordedIsLast(call: Call, mine: seq<Submission>, c: Chain, tx: Tx)
    requires call.ExtendCall? && call.key.Ok? && WellSent(call, mine, c)
    requires SentBy(mine, tx) && Hash(tx) !in c.receipts
    ensures mine != [] && mine[|mine| - 1].tx == tx
    ensures TtlJob(mine[|mine| - 1].job) && mine[|mine| - 1].job.key == call.key.value
  {
    assert Fits(call, mine[|mine| - 1].job);
  }

  lemma LandKeepsRaised(call: Call, mine: seq<Submission>, c: Chain, e: EnvEvent, me: Account, start: Entries)
    requires call.ExtendCall? && call.key.Ok? && WellSent(call, mine, c) && AllShaped(me, mine)
    requires RaisedBy(mine, c, start, call.key.value) && e.Land? && EnvEnabled(c, e) && SentBy(mine, e.tx)
    ensures RaisedBy(mine, EnvApply(c, e), start, call.key.value)
  {
    var key, d := call.key.value, EnvApply(c, e);
    UnrecordedIsLast(call, mine, c, e.tx);
    TtlReceiptRaisesOnly(me, mine[|mine| - 1], ReceiptOf(c, e));
    assert KeyRaised(c.entries, d.entries, key);
    KeyRaisedTransitive(start, c.entries, d.entries, key);
    if LandedSince(mine[0], c) {
      KeyRaisedTransitive(c.receipts[Hash(mine[0].tx)].after, c.entries, d.entries, key);
    }
  }

  /** The ledger moved, but neither `key` nor the record of anything the call sent. */
  lemma OtherKeepsRaised(mine: seq<Submission>, c: Chain, d: Chain, start: Entries, key: LedgerKey)
    requires RaisedBy(mine, c, start, key) && SameEntry(c.entries, d.entries, key) && Grows(c, d)
    requires forall i | 0 <= i < |mine| :: Hash(mine[i].tx) in d.receipts ==> Hash(mine[i].tx) in c.receipts
    ensures RaisedBy(mine, d, start, key)
  {
    KeyRaisedTransitive(start, c.entries, d.entries, key);
  }

  lemma ChangedIsExact(before: Entries, after: Entries)
    ensures forall k :: k in Changed(before, after) <==> !SameEntry(before, after, k)
  {
  }

  lemma SendKeepsRaised(mine: seq<Submission>, sub: Submission, c: Chain, d: Chain, start: Entries, key: LedgerKey)
    requires RaisedBy(mine, c, start, key) && sub.already == (Hash(sub.tx) in c.receipts)
    requires d.entries == c.entries && d.receipts == c.receipts
    ensures RaisedBy(mine + [sub], d, start, key)
  {
  }

  lemma StartRaised(t: Sys)
    requires t.book.mark == |t.book.sent| && t.book.entriesAtStart == t.chain.entries
    ensures RaisedSoFar(t)
  {
    assert Mine(t.book) == [];
  }

  lemma QuietKeepsRaised(s: Sys, t: Sys)
    requires RaisedSoFar(s) && t.chain == s.chain
    requires t.book.sent == s.book.sent && t.book.mark == s.book.mark && t.book.call == s.book.call
    requires t.book.entriesAtStart == s.book.entriesAtStart && t.book.moved == s.book.moved
    ensures RaisedSoFar(t)
  {
    assert Mine(t.book) == Mine(s.book);
  }

  lemma SentKeepsRaised(s: Sys, t: Sys, sub: Submission)
    requires RaisedSoFar(s) && t.chain.entries == s.chain.entries && t.chain.receipts == s.chain.receipts
    requires t.book == s.book.(sent := s.book.sent + [sub]) && sub.already == (Hash(sub.tx) in s.chain.receipts)
    ensures RaisedSoFar(t)
  {
    MineGrows(s.book, t.book, sub);
    if OnKey(t.book) && t.book.call.value.key.value !in t.book.moved {
      SendKeepsRaised(Mine(s.book), sub, s.chain, t.chain, s.book.entriesAtStart, s.book.call.value.key.value);
    }
  }

  lemma ClientKeepsRaised(s: Sys, e: ClientEvent, dt: nat)
    requires RaisedSoFar(s) && ClientEnabled(s, e, dt)
    ensures RaisedSoFar(ClientApply(s, e, dt))
  {
    var t := ClientApply(s, e, dt);
    match e
    case Start(_) => StartRaised(t);
    case Send(tx, _, _) =>
      SentKeepsRaised(s, t, Submission(s.phase.job, tx, s.phase.bid, s.book.quote, Hash(tx) in s.chain.receipts));
    case _ => QuietKeepsRaised(s, t);
  }

  lemma OwnLandingKeepsRaised(s: Sys, e: EnvEvent)
    requires RaisedSoFar(s) && CallInv(s) && e.Land? && EnvEnabled(s.chain, e) && SentBy(Mine(s.book), e.tx)
    ensures RaisedSoFar(s.(chain := EnvApply(s.chain, e)))
  {
    if OnKey(s.book) {
      var mine, key := Mine(s.book), s.book.call.value.key.value;
      MineShaped(s);
      UnrecordedIsLast(s.book.call.value, mine, s.chain, e.tx);
      TtlReceiptRaisesOnly(s.ses.me, mine[|mine| - 1], ReceiptOf(s.chain, e));
      if key !in s.book.moved {
        LandKeepsRaised(s.book.call.value, mine, s.chain, e, s.ses.me, s.book.entriesAtStart);
      }
    }
  }

  /** The ledger moved some entries, but recorded nothing the call sent. */
  lemma OtherMoveKeepsRaised(s: Sys, t: Sys)
    requires RaisedSoFar(s) && Grows(s.chain, t.chain)
    requires forall i | 0 <= i < |Mine(s.book)| ::
               Hash(Mine(s.book)[i].tx) in t.chain.receipts ==> Hash(Mine(s.book)[i].tx) in s.chain.receipts
    requires s.book.moved <= t.book.moved && Changed(s.chain.entries, t.chain.entries) <= t.book.moved
    requires t.book == s.book.(moved := t.book.moved)
    ensures RaisedSoFar(t)
  {
    assert Mine(t.book) == Mine(s.book);
    if OnKey(t.book) {
      var key := s.book.call.value.key.value;
      ChangedIsExact(s.chain.entries, t.chain.entries);
      if key !in t.book.moved {
        OtherKeepsRaised(Mine(s.book), s.chain, t.chain, s.book.entriesAtStart, key);
      }
    }
  }

  lemma EnvKeepsRaised(s: Sys, e: EnvEvent)
    requires RaisedSoFar(s) && CallInv(s) && Enabled(s, Env(e))
    ensures RaisedSoFar(Apply(s, Env(e)))
  {
    var t := Apply(s, Env(e));
    if e.Land? && SentBy(Mine(s.book), e.tx) {
      OwnLandingKeepsRaised(s, e);
    } else {
      if !e.Land? && !e.Foreign? { ChangedIsExact(s.chain.entries, t.chain.entries); }
      OtherMoveKeepsRaised(s, t);
    }
  }

  lemma {:induction false} RaisedSoFarHolds(s: Sys, log: seq<Event>, t: Sys)
    requires Run(s, log, t)
    ensures RaisedSoFar(t)
  {
    if log != [] {
      var before := log[..|log| - 1];
      var state, ev := Reach(s, before).value, log[|log| - 1];
      RaisedSoFarHolds(s, before, state);
      match ev
      case Client(e, dt) => ClientKeepsRaised(state, e, dt);
      case Env(e) =>
        CallInvHolds(s, before, state);
        EnvKeepsRaised(state, e);
    }
  }

  /** The effect of an `Executed` TTL call, seen where its extend landed and whatever happened around it:
      one key may have been raised, no value changed, and the key ended up live until at least
      `extendTo` exactly when it was live as the extend landed. The answer is the same whether the entry
      was live all along or had to be restored first. */
  lemma ExecutedExtendReaches(s: Sys, log: seq<Event>, t: Sys, hash: Hash)
    requires Run(s, log, t) && t.phase.Done? && t.phase.result == Ok(Executed(hash))
    requires t.book.call.Some? && t.book.call.value.ExtendCall?
    ensures t.book.call.value.key.Ok? && hash in t.chain.receipts
    ensures var r, key, extendTo := t.chain.receipts[hash], t.book.call.value.key.value, t.book.call.value.extendTo;
            && RaisesOnly(r.before, r.after, key)
            && (Reached(r.after, key, r.ledger, extendTo) <==> LiveAt(r.before, key, r.ledger))
            && (!LiveAt(r.before, key, r.ledger) ==> r.after == r.before)
  {
    ExecutedIsSound(s, log, t, hash);
    CallInvHolds(s, log, t);
    ChainInvHolds(s, log, t);
    MineShaped(t);
    var mine := Mine(t.book);
    TtlReceiptRaisesOnly(t.ses.me, mine[|mine| - 1], t.chain.receipts[hash]);
  }

  /** Over every run, whatever else the environment does meanwhile: a recorded TTL transaction the client sent, a
      restore as well as an extend, raised at most the key of its job, lowered nothing and changed no value. */
  lemma EveryTtlReceiptRaisesOnly(s: Sys, log: seq<Event>, t: Sys, i: nat)
    requires Run(s, log, t) && i < |t.book.sent| && TtlJob(t.book.sent[i].job)
    requires Hash(t.book.sent[i].tx) in t.chain.receipts
    ensures var r := t.chain.receipts[Hash(t.book.sent[i].tx)]; RaisesOnly(r.before, r.after, t.book.sent[i].job.key)
  {
    CallInvHolds(s, log, t);
    ChainInvHolds(s, log, t);
    TtlReceiptRaisesOnly(t.ses.me, t.book.sent[i], t.chain.receipts[Hash(t.book.sent[i].tx)]);
  }

  /** Restore transparency, next to any traffic. From the call's start to its return every entry that nobody else
      changed is the same, but for the asked one: that kept its presence and value and was not lowered. If moreover
      the named extend was not recorded before it was sent, the asked entry now is as the extend left it: live until
      at least `extendTo` at the confirming ledger exactly when it was live as the extend landed, and without a
      restore that is exactly when the entry the call started from was live until then. */
  lemma RestoreIsTransparent(s: Sys, log: seq<Event>, t: Sys, hash: Hash)
    requires Run(s, log, t) && t.phase.Done? && t.phase.result == Ok(Executed(hash))
    requires t.book.call.Some? && t.book.call.value.ExtendCall?
    ensures t.book.call.value.key.Ok? && hash in t.chain.receipts && Mine(t.book) != []
    ensures OthersStill(t.book.entriesAtStart, t.chain.entries, t.book.call.value.key.value, t.book.moved)
    ensures var r, key, extendTo := t.chain.receipts[hash], t.book.call.value.key.value, t.book.call.value.extendTo;
            key !in t.book.moved ==>
            && KeyRaised(t.book.entriesAtStart, t.chain.entries, key)
            && (!Mine(t.book)[|Mine(t.book)| - 1].already ==>
                  && SameEntry(r.after, t.chain.entries, key)
                  && (Reached(t.chain.entries, key, r.ledger, extendTo) <==> LiveAt(r.before, key, r.ledger))
                  && (LiveAt(t.book.entriesAtStart, key, r.ledger) ==>
                        Reached(t.chain.entries, key, r.ledger, extendTo))
                  && (|Mine(t.book)| == 1 || Mine(t.book)[0].already ==>
                        (Reached(t.chain.entries, key, r.ledger, extendTo) <==>
                         LiveAt(t.book.entriesAtStart, key, r.ledger))))
  {
    ExecutedExtendReaches(s, log, t, hash);
    ExecutedIsSound(s, log, t, hash);
    RaisedSoFarHolds(s, log, t);
    CallInvHolds(s, log, t);
  }

  /** A landed TTL transaction revives an expired entry exactly if it is a successful restore that names it, and the
      entry is not a temporary one. */
  lemma ReceiptRevives(me: Account, sub: Submission, r: Receipt)
    requires Shaped(me, sub.job, sub.tx) && TtlJob(sub.job) && Lands(sub.tx, r)
    ensures sub.job.key in r.before && !LiveAt(r.before, sub.job.key, r.ledger) ==>
              (LiveAt(r.after, sub.job.key, r.ledger) <==>
               r.success && sub.job.Restore? && sub.job.key in sub.job.data.footprint.readWrite &&
               Restorable(sub.job.key))
    ensures LiveAt(r.before, sub.job.key, r.ledger) ==> LiveAt(r.after, sub.job.key, r.ledger)
  {
  }

  /** The first of two sends of a TTL call is a recorded restore, and what it did for the key. */
  lemma RestoreRevives(s: Sys, log: seq<Event>, t: Sys)
    requires Run(s, log, t) && OnKey(t.book) && |Mine(t.book)| == 2
    ensures var first, key := Mine(t.book)[0], t.book.call.value.key.value;
            && Landed(t.chain, first.tx) && first.job.Restore?
            && var r0 := t.chain.receipts[Hash(first.tx)];
               && (key in first.job.data.footprint.readWrite && Restorable(key) && key in r0.before ==>
                     LiveAt(r0.after, key, r0.ledger))
               && (key in r0.before && !LiveAt(r0.before, key, r0.ledger) ==>
                     (LiveAt(r0.after, key, r0.ledger) <==>
                      key in first.job.data.footprint.readWrite && Restorable(key)))
  {
    CallInvHolds(s, log, t);
    ChainInvHolds(s, log, t);
    MineShaped(t);
    var first := Mine(t.book)[0];
    assert SendsBefore(Mine(t.book)[1].job, Mine(t.book)[..1], t.chain);
    ReceiptRevives(t.ses.me, first, t.chain.receipts[Hash(first.tx)]);
  }

  /** The restored case of the same. In every run the restore sent first revives an expired key exactly if it names
      it and the key is no temporary entry's. If nobody else moves the entry and both landed after they were sent,
      the key is live until at least `extendTo` exactly if the life the restore gave it lasted until the extend
      landed. */
  lemma RestoredKeyReaches(s: Sys, log: seq<Event>, t: Sys, hash: Hash)
    requires Run(s, log, t) && t.phase.Done? && t.phase.result == Ok(Executed(hash))
    requires t.book.call.Some? && t.book.call.value.ExtendCall? && |Mine(t.book)| == 2
    ensures t.book.call.value.key.Ok? && hash in t.chain.receipts
    ensures var first, key := Mine(t.book)[0], t.book.call.value.key.value;
            && Landed(t.chain, first.tx) && first.job.Restore?
            && var r0, r := t.chain.receipts[Hash(first.tx)], t.chain.receipts[hash];
               && (key in first.job.data.footprint.readWrite && Restorable(key) && key in r0.before ==>
                     LiveAt(r0.after, key, r0.ledger))
               && (key in r0.before && !LiveAt(r0.before, key, r0.ledger) ==>
                     (LiveAt(r0.after, key, r0.ledger) <==>
                      key in first.job.data.footprint.readWrite && Restorable(key)))
               && (key !in t.book.moved && !first.already && !Mine(t.book)[1].already ==>
                     (Reached(t.chain.entries, key, r.ledger, t.book.call.value.extendTo) <==>
                      LiveAt(r0.after, key, r.ledger)))
  {
    RestoreIsTransparent(s, log, t, hash);
    RestoreRevives(s, log, t);
    ExecutedIsSound(s, log, t, hash);
    RaisedSoFarHolds(s, log, t);
  }

  /** What a TTL transaction can do for an entry that has expired: it lives again exactly if the transaction is a
      successful restore that names it and it is not a temporary entry. Instances and code can always come back. */
  lemma RevivesOnlyPersistent(s: Sys, log: seq<Event>, t: Sys, i: nat, a: Surface)
    requires Run(s, log, t) && i < |t.book.sent| && TtlJob(t.book.sent[i].job)
    requires SurfaceKey(a) == Ok(t.book.sent[i].job.key) && Hash(t.book.sent[i].tx) in t.chain.receipts
    requires var r, key := t.chain.receipts[Hash(t.book.sent[i].tx)], t.book.sent[i].job.key;
             key in r.before && !LiveAt(r.before, key, r.ledger)
    ensures var sub := t.book.sent[i];
            var r := t.chain.receipts[Hash(sub.tx)];
            LiveAt(r.after, sub.job.key, r.ledger) <==>
            && r.success && sub.job.Restore? && sub.job.key in sub.job.data.footprint.readWrite
            && !(a.Mapping? && a.durability.Temporary?)
  {
    CallInvHolds(s, log, t);
    ChainInvHolds(s, log, t);
    assert Shaped(t.ses.me, t.book.sent[i].job, t.book.sent[i].tx);
    assert Lands(t.book.sent[i].tx, t.chain.receipts[Hash(t.book.sent[i].tx)]);
    ReceiptRevives(t.ses.me, t.book.sent[i], t.chain.receipts[Hash(t.book.sent[i].tx)]);
  }

  /** The live-until ledger of the code a contract runs, as a monitor looks it up: `wasm_hash_of`, then `wasm_ttl`. */
  function CodeLiveUntil(entries: Entries, now: nat, contract: ScAddress): Option<nat> {
    match WasmHashOf(entries, now, contract)
    case None => None
    case Some(hash) =>
      var key := WasmLedgerKey(hash);
      if LiveAt(entries, key, now) then Some(entries[key].liveUntil) else None
  }

  /** Instances of one wasm share its code entry: a recorded extend of it, asked for by hash, reaches `extendTo` for
      each contract that runs it, and all of them still run it and see the same live-until ledger. */
  lemma InstancesShareCode(s: Sys, log: seq<Event>, t: Sys, i: nat, hash: seq<byte>, a: ScAddress, b: ScAddress)
    requires Run(s, log, t) && i < |t.book.sent| && t.book.sent[i].job.Extend?
    requires t.book.sent[i].job.key == WasmLedgerKey(hash) && Landed(t.chain, t.book.sent[i].tx)
    requires var r := t.chain.receipts[Hash(t.book.sent[i].tx)];
             WasmHashOf(r.before, r.ledger, a) == WasmHashOf(r.before, r.ledger, b) == Some(hash)
    ensures var job, r := t.book.sent[i].job, t.chain.receipts[Hash(t.book.sent[i].tx)];
            && WasmHashOf(r.after, r.ledger, a) == WasmHashOf(r.after, r.ledger, b) == Some(hash)
            && CodeLiveUntil(r.after, r.ledger, a) == CodeLiveUntil(r.after, r.ledger, b)
            && (CodeLiveUntil(r.after, r.ledger, a).Some? <==> CodeLiveUntil(r.before, r.ledger, b).Some?)
            && (CodeLiveUntil(r.after, r.ledger, a).Some? ==>
                  job.extendTo <= CodeLiveUntil(r.after, r.ledger, a).value)
  {
    CallInvHolds(s, log, t);
    ChainInvHolds(s, log, t);
    assert Shaped(t.ses.me, t.book.sent[i].job, t.book.sent[i].tx);
    assert Lands(t.book.sent[i].tx, t.chain.receipts[Hash(t.book.sent[i].tx)]);
  }

  /** Surface separation over whole runs: whatever TTL transaction the client ever got recorded, for a
      surface `a`, the entry of every other surface `b` is untouched by it. */
  lemma SurfacesAreSeparate(s: Sys, log: seq<Event>, t: Sys, i: nat, a: Surface, b: Surface)
    requires Run(s, log, t) && i < |t.book.sent| && TtlJob(t.book.sent[i].job)
    requires SurfaceKey(a).Ok? && SurfaceKey(b).Ok? && a != b
    requires t.book.sent[i].job.key == SurfaceKey(a).value
    requires Hash(t.book.sent[i].tx) in t.chain.receipts
    ensures var r, key := t.chain.receipts[Hash(t.book.sent[i].tx)], SurfaceKey(b).value;
            (key in r.before <==> key in r.after) && (key in r.before ==> r.after[key] == r.before[key])
  {
    CallInvHolds(s, log, t);
    ChainInvHolds(s, log, t);
    SurfaceKeysInjective(a, b);
    TtlReceiptRaisesOnly(t.ses.me, t.book.sent[i], t.chain.receipts[Hash(t.book.sent[i].tx)]);
  }
}
