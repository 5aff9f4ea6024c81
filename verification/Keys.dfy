/** `ScVal`, ledger keys, and the builders of the storage keys the TTL calls extend. */
module Keys {
  import opened Types

  type ScAddress = string

  datatype Executable = Wasm(hash: seq<byte>) | StellarAsset

  /** The XDR value type. `VecNone` is `ScVal::Vec(None)`; `Other` stands for the variants
      the crate never looks inside (maps, durations and so on). */
  datatype ScVal =
    | Void
    | Bool(flag: bool)
    | U32(u32: int)
    | I32(i32: int)
    | U64(u64: int)
    | I64(i64: int)
    | U128(hi: int, lo: int)
    | I128(hi: int, lo: int)
    | Bytes(bytes: seq<byte>)
    | String(bytes: seq<byte>)
    | Symbol(bytes: seq<byte>)
    | Vec(items: seq<ScVal>)
    | VecNone
    | Address(address: ScAddress)
    | LedgerKeyContractInstance
    | ContractInstance(executable: Executable)
    | Other(tag: nat)

  const SYMBOL_LIMIT: nat := 32

  /** `utils::symbol`: at most 32 bytes. */
  function MakeSymbol(name: seq<byte>): Result<ScVal> {
    if |name| <= SYMBOL_LIMIT then Ok(Symbol(name)) else Err(Xdr)
  }

  /** `utils::vec_val`: an XDR vector holds fewer than 2^32 elements. */
  function VecVal(items: seq<ScVal>): Result<ScVal> {
    if |items| < TWO_32 then Ok(Vec(items)) else Err(Xdr)
  }

  datatype Durability = Temporary | Persistent

  datatype LedgerKey =
    | ContractData(contract: ScAddress, key: ScVal, durability: Durability)
    | ContractCode(hash: seq<byte>)

  function InstanceKey(): ScVal { LedgerKeyContractInstance }

  function WasmLedgerKey(hash: seq<byte>): LedgerKey { ContractCode(hash) }

  function InstanceLedgerKey(contract: ScAddress): LedgerKey {
    ContractData(contract, InstanceKey(), Persistent)
  }

  function MappingEntryKey(name: seq<byte>, details: seq<ScVal>): Result<ScVal> {
    var symbol := MakeSymbol(name);
    if symbol.Err? then Err(symbol.error) else VecVal([symbol.value] + details)
  }

  /** What one of the three `Client` TTL wrappers is asked to extend. */
  datatype Surface =
    | Mapping(contract: ScAddress, name: seq<byte>, details: seq<ScVal>, durability: Durability)
    | Instance(contract: ScAddress)
    | Code(hash: seq<byte>)

  function SurfaceKey(surface: Surface): Result<LedgerKey> {
    match surface
    case Mapping(contract, name, details, durability) =>
      var key := MappingEntryKey(name, details);
      if key.Err? then Err(key.error) else Ok(ContractData(contract, key.value, durability))
    case Instance(contract) => Ok(InstanceLedgerKey(contract))
    case Code(hash) => Ok(WasmLedgerKey(hash))
  }

  /** The three TTL surfaces never share a ledger key, and neither do two requests to one of them. */
  lemma SurfaceKeysInjective(a: Surface, b: Surface)
    requires SurfaceKey(a).Ok? && SurfaceKey(b).Ok?
    ensures SurfaceKey(a) == SurfaceKey(b) <==> a == b
  {
    if SurfaceKey(a) == SurfaceKey(b) && a.Mapping? {
      var left, right := [Symbol(a.name)] + a.details, [Symbol(b.name)] + b.details;
      assert left == right;
      assert left[0] == right[0] && left[1..] == a.details && right[1..] == b.details;
    }
  }

  /** A key is refused exactly when the name is over-long or the vector would overflow, and a key
      built from no details is still a one-element vector, never the bare symbol. */
  lemma MappingEntryKeyShape(name: seq<byte>, details: seq<ScVal>)
    ensures MappingEntryKey(name, details).Ok? <==> |name| <= 32 && |details| < TWO_32 - 1
    ensures MappingEntryKey(name, details).Ok? ==>
              var key := MappingEntryKey(name, details).value;
              key.Vec? && key.items[..1] == [Symbol(name)] && key.items[1..] == details &&
              MakeSymbol(name) != Ok(key)
  {
    assert |[Symbol(name)] + details| == 1 + |details|;
  }

  /** The ledger entry of each surface, constructor by constructor. */
  lemma SurfaceKeyExact(contract: ScAddress, name: seq<byte>, details: seq<ScVal>, durability: Durability,
                        hash: seq<byte>)
    ensures SurfaceKey(Instance(contract)) == Ok(ContractData(contract, LedgerKeyContractInstance, Persistent))
    ensures SurfaceKey(Code(hash)) == Ok(ContractCode(hash))
    ensures SurfaceKey(Mapping(contract, name, details, durability)) ==
            if |name| <= 32 && |details| < TWO_32 - 1
            then Ok(ContractData(contract, Vec([Symbol(name)] + details), durability)) else Err(Xdr)
  {
    assert |[Symbol(name)] + details| == 1 + |details|;
  }
}
