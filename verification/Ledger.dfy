/** The ledger the client talks to, and everything it may do on its own between two RPC calls. */
module Ledger {
  import opened Types
  import opened Keys

  type Account = string

  datatype Footprint = Footprint(readOnly: seq<LedgerKey>, readWrite: seq<LedgerKey>)

  /** `SorobanTransactionData`: footprint, resource counts and resource fee. */
  datatype SorobanData = SorobanData(
    footprint: Footprint, instructions: nat, diskReadBytes: nat, writeBytes: nat, resourceFee: int)

  datatype Op =
    | RestoreFootprint
    | ExtendFootprintTtl(extendTo: nat)
    | UploadWasm(wasm: seq<byte>)
    | CreateContract(deployer: Account, wasmHash: seq<byte>, args: seq<ScVal>)
    | InvokeContract(contract: ScAddress, name: string, args: seq<ScVal>)

  datatype Tx = Tx(source: Account, sequence: nat, fee: nat, op: Op, data: Option<SorobanData>)

  /** A transaction hash, kept as its preimage: injective, and blind to signatures. */
  datatype Hash = Hash(tx: Tx)

  datatype EntryValue = Data(val: ScVal) | CodeBytes(wasm: seq<byte>)

  datatype Entry = Entry(value: EntryValue, liveUntil: nat)

  type Entries = map<LedgerKey, Entry>

  /** The permanent record of a landed transaction: status, return value, ledger, and the entries
      just before and just after it. */
  datatype Receipt = Receipt(success: bool, ret: Option<ScVal>, ledger: nat, before: Entries, after: Entries)

  datatype Chain = Chain(
    now: nat,
    sequences: map<Account, nat>,
    entries: Entries,
    pending: set<Tx>,
    receipts: map<Hash, Receipt>)

  function SequenceOf(c: Chain, a: Account): nat {
    if a in c.sequences then c.sequences[a] else 0
  }

  predicate LiveAt(entries: Entries, key: LedgerKey, ledger: nat) {
    key in entries && ledger <= entries[key].liveUntil
  }

  /** Only persistent entries (contract code among them) survive expiry and can be restored. */
  predicate Restorable(key: LedgerKey) {
    key.ContractCode? || key.durability == Persistent
  }

  predicate KeepsValues(before: Entries, after: Entries) {
    && after.Keys == before.Keys
    && forall k | k in before :: k in after && after[k].value == before[k].value
  }

  /** `ExtendFootprintTTL`: every live key of the footprint reaches at least `extendTo` and is never
      lowered; anything else, an expired key of the footprint included, stays as it was. */
  predicate Extends(now: nat, keys: seq<LedgerKey>, extendTo: nat, before: Entries, after: Entries) {
    && KeepsValues(before, after)
    && forall k | k in before ::
         if k in keys && LiveAt(before, k, now)
         then before[k].liveUntil <= after[k].liveUntil && extendTo <= after[k].liveUntil
         else after[k] == before[k]
  }

  /** `RestoreFootprint`: every archived key of the footprint becomes live with its value unchanged. */
  predicate Restores(now: nat, keys: seq<LedgerKey>, before: Entries, after: Entries) {
    && KeepsValues(before, after)
    && forall k | k in before ::
         if k in keys && Restorable(k) && !LiveAt(before, k, now)
         then now <= after[k].liveUntil
         else after[k] == before[k]
  }

  /** An upload stores the blob under a 32-byte hash that no other blob has, and returns the hash. */
  predicate Uploads(now: nat, wasm: seq<byte>, ret: Option<ScVal>, before: Entries, after: Entries) {
    && ret.Some? && ret.value.Bytes? && |ret.value.bytes| == 32
    && var key := WasmLedgerKey(ret.value.bytes);
       && LiveAt(after, key, now) && after[key].value == CodeBytes(wasm)
       && (key in before ==> before[key].value == CodeBytes(wasm))
       && after - {key} == before - {key}
  }

  /** A creation needs live code under the hash, makes a fresh instance that runs it, and returns
      the instance's address; the constructor may write other entries. */
  predicate Creates(now: nat, hash: seq<byte>, ret: Option<ScVal>, before: Entries, after: Entries) {
    && LiveAt(before, WasmLedgerKey(hash), now)
    && ret.Some? && ret.value.Address?
    && var key := InstanceLedgerKey(ret.value.address);
       && key !in before
       && LiveAt(after, key, now) && after[key].value == Data(ContractInstance(Wasm(hash)))
  }

  /** What a landed transaction may have done to the entries. */
  predicate Lands(tx: Tx, r: Receipt) {
    if !r.success then r.after == r.before && r.ret.None?
    else match tx.op
      case ExtendFootprintTtl(extendTo) =>
        tx.data.Some? && Extends(r.ledger, tx.data.value.footprint.readOnly, extendTo, r.before, r.after)
      case RestoreFootprint =>
        tx.data.Some? && Restores(r.ledger, tx.data.value.footprint.readWrite, r.before, r.after)
      case UploadWasm(wasm) => Uploads(r.ledger, wasm, r.ret, r.before, r.after)
      case CreateContract(_, hash, _) => Creates(r.ledger, hash, r.ret, r.before, r.after)
      case InvokeContract(_, _, _) => true
  }

  /** One move of the outside world. `Foreign` is any transaction this client did not send. */
  datatype EnvEvent =
    | Close
    | Land(tx: Tx, success: bool, ret: Option<ScVal>, after: Entries)
    | Drop(tx: Tx)
    | Foreign(source: Account, after: Entries)

  function ReceiptOf(c: Chain, e: EnvEvent): Receipt
    requires e.Land?
  {
    Receipt(e.success, e.ret, c.now, c.entries, e.after)
  }

  predicate EnvEnabled(c: Chain, e: EnvEvent) {
    match e
    case Close => true
    case Land(tx, _, _, _) =>
      && tx in c.pending
      && tx.source in c.sequences && tx.sequence == c.sequences[tx.source] + 1
      && Hash(tx) !in c.receipts
      && Lands(tx, ReceiptOf(c, e))
    case Drop(tx) => tx in c.pending
    case Foreign(source, _) => source in c.sequences
  }

  function EnvApply(c: Chain, e: EnvEvent): Chain
    requires EnvEnabled(c, e)
  {
    match e
    case Close => c.(now := c.now + 1)
    case Land(tx, _, _, after) =>
      c.(sequences := c.sequences[tx.source := tx.sequence],
         entries := after,
         pending := c.pending - {tx},
         receipts := c.receipts[Hash(tx) := ReceiptOf(c, e)])
    case Drop(tx) => c.(pending := c.pending - {tx})
    case Foreign(source, after) =>
      c.(sequences := c.sequences[source := c.sequences[source] + 1], entries := after)
  }

  /** Receipts are genuine: each followed the rules, in the past, and used up its sequence number. */
  ghost predicate ChainInv(c: Chain) {
    forall h | h in c.receipts ::
      && Lands(h.tx, c.receipts[h])
      && c.receipts[h].ledger <= c.now
      && h.tx.sequence <= SequenceOf(c, h.tx.source)
  }

  /** Nothing recorded is forgotten or rewritten. */
  ghost predicate Grows(c: Chain, d: Chain) {
    forall h | h in c.receipts :: h in d.receipts && d.receipts[h] == c.receipts[h]
  }

  lemma EnvGrows(c: Chain, e: EnvEvent)
    requires EnvEnabled(c, e)
    ensures Grows(c, EnvApply(c, e))
  {
  }

  lemma EnvKeepsChainInv(c: Chain, e: EnvEvent)
    requires ChainInv(c) && EnvEnabled(c, e)
    ensures ChainInv(EnvApply(c, e))
    ensures forall a :: SequenceOf(c, a) <= SequenceOf(EnvApply(c, e), a)
  {
  }

  /** Same keys, same values, nothing lowered, and nothing but `key` touched: all a TTL call may do. */
  ghost predicate RaisesOnly(before: Entries, after: Entries, key: LedgerKey) {
    && KeepsValues(before, after)
    && (forall k | k in before :: before[k].liveUntil <= after[k].liveUntil)
    && (forall k | k in before && k != key :: after[k] == before[k])
  }
}
