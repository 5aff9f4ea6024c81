# Verified model of the Stellar workflow client

A Dafny model of the crate's transaction workflow (restore-then-retry TTL extension, invoke, deploy,
polling, fees) running against an adversarial ledger, and of its codecs (128-bit integers, typed vectors,
hex wasm hashes, storage keys), with proofs of what every run keeps.

Verify everything with `dafny verify dfyconfig.toml`.

## How it is built

- `Ledger.dfy` is the ledger: sequence numbers, entries with a live-until ledger, the pool, and permanent
  receipts; and every move it may make by itself (close, land, drop, foreign transactions).
- `Protocol.dfy` is the client as a state machine over its calls and their answers, composed with the ledger.
  A run is any interleaving of client events and ledger moves, with any honest answers.
- `Network.dfy`, `Poll.dfy`, `TxBuilder.dfy`, `Ttl.dfy`, `Operations.dfy` and `Client.dfy` are the
  imperative code, in the shape of the crate's own functions. Each `Network` call first lets the ledger make
  any number of moves and then answers arbitrarily within `Honest`. `Network.Valid()` says that the log so far
  is a run of the protocol, and a call can only be made where the protocol permits it, so the methods follow
  the state machine call by call, and everything proved about runs holds of them at every moment.
- `Reference.dfy` is the crate's code once more, read straight off the source: each function as a function of the answers
  it gets, from the signer to the result. `Agreement` proves that every run of the state machine makes exactly its
  calls, with its transactions, and returns exactly its results; `Answers` reads single consequences off the trace.
- `CallSafety`, `Outcomes`, `Transparency`, `Aftermath`, `FeeSafety`, `PollSafety` and `TraceSafety` prove properties
  of all runs.
  `Settling`, `Freshness` and `Sequencing` prove those that take a condition on the run: that no call follows one that
  gave up, that account reads are up to date, that nobody else sends from the account. Each result names only the
  conditions it uses.
- `Witnesses` gives runs that take the restore path, submit an invoke and return from a deploy; `Limits` gives runs in
  which an `Executed` extend has no effect, a poll asks without end, and a hash comes back after a stale read although
  nothing has landed.
- `Keys`, `Int128`, `Vectors`, `Hex` and `Fees` are the pure parts.

Assumptions on the ledger, all written out in `Ledger.EnvEnabled`, `Ledger.Lands` and `Protocol.Honest`: a
transaction lands only with its account's next sequence number and uses it up even when it fails; a restore
makes archived persistent entries of its footprint live and changes no value; an extend brings every live key of
its footprint to at least `extendTo`, never lowers one, and skips a key that is not live (a ledger that fails
the transaction instead is included, since any landing may fail); a final status is never reported for a
transaction without that receipt; `prepare` keeps a footprint it was given, and a restore preamble names only
keys of the simulated footprint. Anything else goes: stale account reads, lagging statuses, errors on any call,
sends accepted or not whatever they answer, pool drops, other parties rewriting entries. Operations are
`ExtendFootprintTTL` and `RestoreFootprint` of CAP-0046-12.

What comes out differently from the comments in the source:

- `mapping_entry_key` with no details gives a one-element vector, not a bare symbol as src/ttl.rs:188-189 and
  src/client.rs:125-126 say (`MappingEntryKeyShape`).
- "Live at least until `extend_to`" (src/ttl.rs:196-205) holds of an `Executed` extend exactly when the key was live
  as the extend landed (`ExecutedExtendReaches`); an entry that expires between `prepare` and the landing
  gives `Executed` without the effect (`ExpiryDefeatsExtend`).
- A signer is built "for exactly one signing operation" (src/signer/mod.rs:58), but on the restore path it signs twice:
  for every restorable key there is a run that does (`RestoredCallSignsTwice`), and nothing else ever signs more often
  than it builds signers (`ExtraSignatureMeansRestored`).
- An `Executed` outcome names a transaction that landed after the account was read for it exactly if that read was up to
  date (`ExecutedIsNewIffReadIsFresh`). So with up-to-date reads all outcomes of a run name distinct transactions
  (`ExecutedHashesDistinct`), and with a stale one the same hash can come back (`StaleReadRepeatsHash`).
- The number of status calls in a poll has a bound exactly if the interval is positive or the timeout is zero
  (`PollBoundExact`).

## Model

| member | source | states |
|---|---|---|
| Keys.SurfaceKeysInjective | src/ttl.rs:190-312 | mapping, instance and wasm-code ledger keys are injective and pairwise disjoint |
| Keys.MappingEntryKeyShape | src/ttl.rs:190-194 | the key is a vector of the symbol followed by the details, even for no details; refused exactly for names over 32 bytes or too many details |
| Keys.SurfaceKeyExact | src/ttl.rs:81-112 | the ledger entry of each surface, constructor by constructor: the instance sentinel in a persistent entry, the code hash, the vector of symbol and details, or the refusal |
| Fees.InclusionFeeExact | src/fee.rs:31-41 | the deploy and invoke bid is never under 100 nor over a u32, and above 100 is exactly the parsed p90 |
| Fees.RestoreFeeExact | src/ttl.rs:431-432 | the restore fee is min(100 + max(resource fee, 0), 2^32 - 1) for every resource fee |
| Fees.ReportedFee | src/fee.rs:31-40 | for a percentile given in decimal the fee is max(p90, 100), and a number too large for a u32 is an error for which the floor is bid |
| Fees.ParseU32Exact | src/fee.rs:34-38 | a percentile is read exactly if the text is an optional plus sign, leading zeros and the decimal notation of a u32, as that number |
| FeeSafety.BidsAreFair | src/ttl.rs:426-441 | over every run each sent transaction bids what its job and the last quote call for, at least 100, and a restore pays exactly its bid |
| Int128.U128ValSplits | src/utils.rs:115-120 | the unsigned split gives the only in-range halves with value hi * 2^64 + lo |
| Int128.I128ValSplits | src/utils.rs:107-112 | the signed split gives the only in-range halves, the high one signed, with value hi * 2^64 + lo |
| Int128.U128Order | src/utils.rs:115-120 | numeric order is the lexicographic order of the halves |
| Int128.I128Order | src/utils.rs:107-112 | numeric order is the lexicographic order of the halves, the high one signed |
| Int128.ToI128 | src/utils.rs:264-275 | filling the 16-byte buffer decodes exactly I128, to the number whose encoding the value is |
| Int128.ToU128 | src/utils.rs:276-286 | filling the 16-byte buffer decodes exactly U128, to the number whose encoding the value is |
| Hex.DecodeExact | src/ttl.rs:94-95 | hex decoding succeeds exactly on an even number of hex digits of either case; encoding the result gives the text in lower case |
| Hex.DigitsExact | src/ttl.rs:87-95 | the digits are the sixteen of base16 in either case, with the values of their places, written in lower case |
| Hex.EncodeAt | src/ttl.rs:87-89 | each byte is written as its high digit and then its low one, in order |
| Hex.WasmHashFromHexExact | src/ttl.rs:87-102 | a text parses to a hash exactly when it is 64 hex digits spelling it; write-then-read is the identity; all else is refused |
| Vectors.DecodeInvertsEncode | src/utils.rs:142-145 | decoding inverts encoding for vectors nested to any depth over the primitives |
| Vectors.EncodesExactlyWithinLimits | src/utils.rs:132-145 | encoding fails exactly when a length limit is exceeded somewhere inside |
| Vectors.EncodeInvertsDecode | src/utils.rs:297-311 | decoding succeeds exactly on values of the schema's shape; re-encoding gives the value back with every absent vector made empty |
| Vectors.ElementsKeepTheirPlaces | src/utils.rs:142-145 | each element of the encoded vector encodes the item at its place, and each decoded item is the element at its place |
| Vectors.EmptyVectorsAreUntyped | src/utils.rs:297-303 | empty and absent vectors decode alike at every element type and re-encode as empty |
| Net.Network.GetTransaction | src/poll.rs:22-31 | any status may be answered except a final one without its receipt, after any delay (see "Left out" for interval zero); the poll reacts to it as the protocol says |
| Poll.PollTransactionStatus | src/poll.rs:16-41 | the last status seen decides the result; Ok means the ledger records the success, TransactionFailed that it records the failure; the loop terminates |
| Poll.FirstFinalDecides | src/poll.rs:22-40 | that last status is the first one other than NotFound, so the first such status decides, and Timeout means exactly that there was none |
| TxBuilder.BuildTransaction | src/ttl.rs:471-484 | takes the account's next sequence number and moves the account on |
| TxBuilder.PrepareAndSend | src/txbuilder.rs:25-57 | on success exactly one transaction was sent, with the asked operation and at least the asked bid; it is the one named and is recorded successful; on an error at most one was sent |
| TxBuilder.BuildAndSimulate | src/txbuilder.rs:62-81 | follows the protocol's simulate-only path and sends nothing |
| Ttl.Submit | src/ttl.rs:389-407 | Executed names the transaction handed in, the only one sent, and it is recorded successful; an error ends the call |
| Ttl.RestoreEntry | src/ttl.rs:414-445 | on success one restore with the preamble's data and the computed fee was sent and is recorded, and the extend is retried |
| Ttl.PrepareExtend | src/ttl.rs:334-345 | one attempt: fresh account read, extend of the one key at the floor fee, prepared; nothing sent |
| Ttl.ExtendOrRestore | src/ttl.rs:345-383 | restore at most once, then one retry, at most two sends; follows the protocol, which by Agreement.RunsFollowSource restores whenever it is told to |
| Ttl.ExtendLedgerKeyTtl | src/ttl.rs:319-384 | Executed names a recorded extend that touched only its key, no value, and reached extendTo exactly if the key was live then |
| Ttl.WasmHashOfContract | src/ttl.rs:125-153 | Some(h) exactly if the persistent instance entry is live and its value is a contract instance running wasm h; none for an absent, archived, Stellar asset or other one |
| Outcomes.WasmHashOfExact | src/ttl.rs:140-152 | the same of the entries of any ledger |
| Ttl.LiveUntilLedger | src/ttl.rs:168-178 | the live-until ledger of a live entry, none for an absent or archived one |
| Operations.InvokeContract | src/invoke.rs:41-99 | follows the protocol, which by Agreement.RunsFollowSource stops on an error or a no-op of the simulation and otherwise quotes and submits |
| Operations.UploadWasm | src/deploy.rs:14-60 | follows the protocol, which by Agreement.RunsFollowSource returns a 32-byte hash as it is and fails as the source does on any other value |
| Operations.CreateContractInstance | src/deploy.rs:67-107 | follows the protocol and decodes an address or fails as the source does |
| Clients.Client.UploadWasm | src/client.rs:55-66 | a returned hash is the one a recorded upload stored the given blob under |
| Clients.Client.CreateContractInstance | src/client.rs:68-83 | a returned address is fresh and runs the given code with the given arguments, by a recorded creation, and can be looked up as the call returns |
| Clients.Client.DeployContract | src/client.rs:85-98 | on success the blob is stored under the returned hash, the address runs it where the creation landed, and can be looked up as the call returns |
| Clients.Client.InvokeContract | src/client.rs:100-117 | a no-op or refused simulation sends nothing; Executed means exactly one transaction was sent, the recorded one, with the asked operation |
| Clients.Client.ExtendTtl | src/client.rs:129-150 | the extend guarantee for the entry under the vector of symbol and details, which is exactly the footprint of the named transaction; a bad name or address sends nothing |
| Clients.Client.ExtendInstanceTtl | src/client.rs:158-173 | the extend guarantee for the persistent instance entry, which is exactly the footprint of the named transaction; a bad address sends nothing |
| Clients.Client.ExtendWasmTtl | src/client.rs:179-194 | the extend guarantee for the code entry, which is exactly the footprint of the named transaction |
| Clients.ReturnsWhatSourceReturns | src/client.rs:55-194 | what a client method returns is what the source returns for its call, given the answers the network gave |
| Agreement.RunsFollowSource | src/client.rs:55-194 | in every state of every run the client stands in its call exactly where the source stands that was given the same answers: same calls with the same transactions and no other, waiting where the source waits, and returned what the source returns |
| Answers.ExtendBegins | src/ttl.rs:334-345 | the first four steps of every extend: signer, account, operation, and the prepare of the extend of the one key at the floor fee, numbered next |
| Answers.PlainRefusalExact | src/ttl.rs:345-382 | in every run an extend returns a Simulation error with nothing sent exactly if its first prepare failed outright |
| Answers.RestoreIsCarriedOut | src/ttl.rs:348-379 | in every run and for every resource fee and data, a restore asked for is built, numbered next, given the fee min(100 + max(fee, 0), 2^32 - 1) and the data of the preamble, signed and sent, unless one of these calls fails, whose error is then returned |
| Answers.SimulationDecides | src/invoke.rs:57-98 | the answer to the simulation decides: an error ends in Simulation and a no-op in SkippedNoStateChange there and then, a state change always leads on to the quote, the account and the prepare of the call |
| Answers.SkippedExact | src/invoke.rs:72-77 | in every run a call returns SkippedNoStateChange exactly if a simulation of it answered that nothing would change |
| Answers.UploadDecodes | src/deploy.rs:44-60 | the status that confirms an upload: 32 bytes are the hash, returned or handed to the creation; no value is MissingReturnValue, any other value Xdr |
| Answers.CreateDecodes | src/deploy.rs:92-107 | the status that confirms a creation: an address is returned; no value is MissingReturnValue, any other value Xdr |
| Answers.ConfirmedExecutes | src/ttl.rs:357-379 | the status that confirms an extend or an invoke ends the call with its hash; the one that confirms a restore leads on to the retry |
| Answers.GaveUpExact | src/poll.rs:22-31 | a returned call has given up on a transaction exactly if its last step was a failed send, a failed status call, or the clock past the deadline |
| Answers.HistoryMatchesTrace | src/txbuilder.rs:25-57 | the history variables that count signers, prepares, signatures and sends are what the trace of the call shows |
| CallSafety.CallInvHolds | src/ttl.rs:319-445 | in every state of every run a call has sent only what it may, in the only possible orders, with exact counts of signers, prepares and signatures |
| CallSafety.ChainInvHolds | src/poll.rs:34-40 | every receipt is genuine, in the past, and used up its sequence number |
| Outcomes.ExecutedIsSound | src/ttl.rs:386-407 | Executed names the last transaction this call sent, it does what was asked (never the restore), and the ledger records it as successful, whatever the sends answered |
| Outcomes.ExtendRetriesOnce | src/ttl.rs:345-383 | at most two prepares and two sends; the retry is not built before the restore is recorded successful; two sends are restore then extend |
| Outcomes.PlainRefusalSendsNothing | src/ttl.rs:382 | a first prepare that fails otherwise ends the call in a Simulation error with nothing signed or sent |
| Outcomes.SecondRefusalIsFinal | src/ttl.rs:359-378 | a refused retry, with another RestorationRequired or otherwise, ends in a Simulation error with nothing sent but the restore |
| Outcomes.SignerSignsTwiceIffRestored | src/ttl.rs:348-379 | in every state of a TTL call one signer at most, and a second signature only after a recorded restore; a returned call signed twice exactly if it sent a restore and an extend, an Executed one exactly if it restored |
| Outcomes.ExtraSignatureMeansRestored | src/client.rs:85-98 | in every state of every call there are no more signatures than signers, except for the second one of a TTL call that has restored |
| Outcomes.InvokeSubmitsAtMostOnce | src/invoke.rs:57-98 | at most one send; Executed is one prepare, one signature, one send; no-op and simulation error sign nothing |
| Outcomes.DeployUploadsFirst | src/deploy.rs:112-131 | no creation is built before the upload is recorded successful, and it uses exactly the hash the upload returned |
| Outcomes.DeployIsCoherent | src/client.rs:85-98 | stored blob, live code at creation, and looking the address up gives the returned hash |
| Outcomes.UploadIsSound | src/deploy.rs:14-60 | over every run a returned hash names live code holding the blob, stored by the one transaction sent |
| Outcomes.CreateIsSound | src/deploy.rs:67-107 | over every run a returned address is new and runs the asked code where its creation landed |
| Aftermath.DeployedLooksUp | src/ttl.rs:125-153 | over every run, as a deploy returns, looking the address up gives the returned hash exactly while the instance is live, unless somebody else changed the instance or the creation was recorded before it was sent |
| Aftermath.CreatedLooksUp | src/ttl.rs:125-153 | the same as a creation on its own returns |
| Aftermath.UploadedIsStored | src/deploy.rs:14-60 | over every run, as an upload returns, the blob is stored under the returned hash, under the same conditions |
| Transparency.EveryTtlReceiptRaisesOnly | src/ttl.rs:451-469 | over every run each recorded restore or extend raised at most the key of its job, lowered nothing and changed no value |
| Transparency.ExecutedExtendReaches | src/ttl.rs:196-205 | in every run the key ends live until extendTo exactly if it was live as the extend landed, restored or not |
| Transparency.RestoreIsTransparent | src/ttl.rs:319-384 | next to any traffic, over the whole call every entry nobody else changed is the same but for the asked one, which kept its value and was not lowered; if the extend was not recorded before it was sent, that entry is live until extendTo exactly if it was live as the extend landed, and without a restore exactly if the entry the call began with was live until then |
| Transparency.RestoredKeyReaches | src/ttl.rs:348-379 | in every run the restore revives an expired key exactly if it names it and the key is no temporary entry's; if nobody else moves the entry and both transactions were new, extendTo is reached exactly if that life lasts until the extend lands |
| Transparency.RevivesOnlyPersistent | src/ttl.rs:216-217 | only persistent entries can be restored: over every run a recorded TTL transaction revives an expired entry exactly if it is a successful restore naming it and the entry is not temporary |
| Transparency.InstancesShareCode | src/ttl.rs:40-47 | a recorded extend of a code entry, asked for by hash, reaches extendTo for every contract that runs it, and all see the same live-until ledger |
| Transparency.SurfacesAreSeparate | src/ttl.rs:48-55 | over every run no TTL transaction for one surface touches the entry of another |
| Sequencing.OrderlyHolds | src/ttl.rs:329-343 | with up-to-date reads, settled starts and no other sender the account's sequence number counts exactly the landed transactions, and what is in hand carries the next number |
| Sequencing.SequencesAreGapFree | src/txbuilder.rs:34-40 | every send carries ledger sequence plus one; the run's transactions are numbered without a gap |
| Sequencing.SendsAreNew | src/ttl.rs:329-343 | with up-to-date reads and settled starts, whoever else sends, nothing is sent that is recorded already, and the pool holds nothing of the account but the one transaction in flight |
| Settling.AtMostOneOutstanding | src/ttl.rs:359-374 | if no call follows one that gave up, whatever the reads and other senders: never two unrecorded transactions of the client, and none outside watching or giving up |
| Settling.ReturnedCallsAreSettled | src/txbuilder.rs:47-56 | under the same condition, a call that does not give up leaves everything it sent, and everything of the account in the pool, recorded |
| Freshness.ExecutedIsNewIffReadIsFresh | src/ttl.rs:329-343 | in every run, the transaction an Executed outcome names landed after the last account read exactly if that read was up to date |
| Freshness.ExecutedHashesDistinct | src/ttl.rs:396-406 | with up-to-date reads alone, all Executed outcomes of a run name distinct transactions, in sequence order |
| Settling.SilentCallsLeaveNoTrace | src/invoke.rs:66-77 | whatever the reads, while nothing is sent the account's history is unchanged and nothing of it enters the pool; with no other sender its sequence number is unchanged too |
| PollSafety.PollCallsBounded | src/poll.rs:21-32 | with a positive interval at most 1 + ceil(timeout / interval) status calls, with a zero timeout one, for all statuses and latencies |
| PollSafety.PollVerdict | src/poll.rs:24-40 | Timeout only with every status NotFound and never before the deadline; TransactionFailed exactly on a first final failure; Executed only on success |
| PollSafety.PollEndsInTime | src/poll.rs:21-32 | with exact sleeps and bounded latency a poll ends by start + timeout + interval + latency |
| TraceSafety.TracesAccepted | src/txbuilder.rs:25-81 | every trace of every operation is accepted by one automaton |
| TraceSafety.EverySendIsReadPreparedAndSigned | src/ttl.rs:389-399 | each send follows the signing of the same transaction, an account read with no send between, and a prepare of it unless it is a restore |
| TraceSafety.OnlyItsStatusAfterSend | src/txbuilder.rs:47-56 | from a send until its status is final or the call ends the client only asks for that hash's status, sleeps and reads its clock |
| Witnesses.RestoredCallSignsTwice | src/ttl.rs:348-379 | for every client, restorable key, target, resource fee and data of the preamble, and everything the retry adds, there is a run in which one call restores and then extends an expired entry, its one signer signs both transactions, and extendTo is reached |
| Witnesses.InvokeExecutes | src/invoke.rs:79-98 | for every call, fee quote and assembly there is a run in which a state-changing invoke is submitted and Executed |
| Witnesses.DeployReturns | src/client.rs:85-98 | for every blob, arguments, hash and address there is a run in which a deploy returns them |
| Limits.ExpiryDefeatsExtend | src/ttl.rs:345-346 | an entry that expires before the landing: Executed, yet not reached |
| Limits.ZeroIntervalIsUnbounded | src/poll.rs:24-32 | with interval zero, a positive timeout and a still clock any number of status calls is possible |
| Limits.PollBoundExact | src/poll.rs:21-32 | the status calls of one poll have a bound over all runs exactly if the interval is positive or the timeout is zero |
| Limits.StaleReadRepeatsHash | src/ttl.rs:334-343 | after any Executed extend a stale read can make the next call return the same hash with nothing landed |

## Left out

- RPC transport, JSON, async scheduling and the RPC library's internals: replaced by arbitrary honest answers.
- XDR wire encoding, signatures and real hashing: a hash is the transaction itself, signing returns it unchanged.
- Strkey addresses: the address parser's answer is a parameter, and no address round trip is claimed.
- Numbers without a width: fees after assembly, sequence numbers and ledger numbers do not overflow in the model; bids, the restore fee and the codecs have their widths.
- One client and one account: concurrent calls of the same client are not runs of the model; other parties appear as foreign transactions.
- Net.Network.GetTransaction: takes at least one tick of the clock when the interval is zero and the timeout is not, which is exactly when the source's loop need not end without it; the results about runs do not use it.
- Poll.PollTransactionStatus: for that one setting its termination rests on that tick; the bound on its calls is not restated, as PollSafety.PollCallsBounded gives it for every valid network.
- Transparency.RevivesOnlyPersistent: states what may happen on the ledger; which refusal a simulation gives for an expired temporary entry is the RPC's answer and arbitrary in the model (Outcomes.PlainRefusalSendsNothing says what the client makes of a plain one).
- Operations.CreateContractInstance: constructor effects on other entries are arbitrary, and a constructor that replaces its own code is excluded.
- Client settings: account, interval and timeout are constants of `Network`, so the functions do not take them again.
- The free function `deploy::deploy_contract`, which shares one signer across both steps: the `Client` method is modelled.
- Addresses as vector elements, `ScVal::Map`, and the scalar helpers on their own: they appear only as schema leaves or opaque values.
- `read_contract`, `account_sequence`, `latest_ledger`, `.env` and wasm file reading, network presets, and error message texts: plain lookups, I/O and constants.
- Secret zeroisation and signer lifetimes: nothing Dafny can express.
