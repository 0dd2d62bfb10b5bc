# Relay-chain-gated block authorship, modelled in Dafny

This project models the decision logic around block authorship in a parachain
whose fork choice and finality come from the relay chain:

- **Filtering consensus (collator side)**, `filtering.dfy`. One attempt at
  producing a candidate is a fixed pipeline, and every step can end it with no
  candidate:
  1. Ask the keystore about the author key. Only the question is recorded; the
     answer is never used.
  2. Hash `parent` for the runtime-API block id, and ask the runtime whether
     the author may build at the relay parent number.
  3. Create a proposer.
  4. Assemble the inherent data: the base providers, then the parachain-system
     inherent read at the relay parent, then `put_data`.
  5. Propose, with an empty inherent digest and a 500 ms budget.
  6. Hash the unsealed proposed header (the pre-seal hash).
  7. Import the block. The import carries the `test` seal as post-digest,
     origin `Own`, fork choice `Custom(false)` and the proposal's storage
     changes.
  8. Return the header with the seal appended, the unchanged body and the
     proposal's proof.

  The collaborators are oracles in `Collaborators`. The class
  `FilteringConsensus` records these calls, with their arguments, in a ghost
  `trace`: the keystore query, the hash of `parent`, `can_author`, proposer
  creation, `create_inherent_data`, `create_at`, `put_data` (identifier and
  parachain inherent), `propose`, the pre-seal hash and `import_block`. The
  two hashes computed only for log lines are not recorded: the post-seal hash
  (client/consensus/filtering/src/lib.rs:275) and the hash of `parent` in the
  import-failure log (client/consensus/filtering/src/lib.rs:286).
  Its methods are proved to match the spec functions `Assemble`,
  `UpToProposal` and `Produce`, and the lemmas state the properties of those
  functions.
- **Block-mortality pallet**, `block_mortality.dfy`. The mandatory unsigned
  inherent `set_max_relay_parent(max)` is accepted iff `max` is at most the
  relay parent number that the parachain-system inherent stored earlier in the
  block. `create_inherent` reads the ceiling from the inherent data, and
  `check_inherent` uses the same height check that dispatch uses. The node's
  `InherentDataProvider` injects one fixed ceiling.
- **Example-inherent pallet**, `example_inherent.dfy`. This is the earlier
  variant of the same dispatchable. It reads `block_number` from the validation
  data. Only its error type and its provider are modelled besides the
  dispatchable.
- **Digest-stripping executor**, `exec.dfy`. `execute_block` deconstructs the
  block and removes every digest log with `retain(|_| false)`. It then calls
  the inner executor once, with the rebuilt block.
- Shared values are in `primitives.dfy`: headers, digests, blocks and
  validation data. `inherents.dfy` holds the inherent-data bundle, with
  `put_data`, `get_data::<u32>` and the SCALE `u32` codec. Cross-cutting lemmas
  are in `protocol.dfy`.

Storage reads in the pallets become parameters. For example,
`validationData: Option<...>` is what `parachain_system::validation_data()`
returns. Where the source panics through `expect`, the model has a
precondition:
- absent validation data once the origin check has passed;
- an undecodable `u32` payload in `create_inherent`.

Some behaviour one might expect of this protocol is not in the code; the
model follows the code:
- The freshness ceiling is produced by a provider that holds one fixed value
  (pallets/block-mortality/src/lib.rs:91-94 says so). It is not derived from
  the relay height the way the check derives its bound.
  `StaleCeilingRejected` shows the consequence: a provider fixed at 150,
  checked at relay height 101, is rejected.
- No guard against a block carrying several seals is live: the single-seal
  detection in rococo-parachains/runtime/src/exec.rs:25-32 is commented out.
  The executor strips every log, whatever its kind.
- Rejecting an import that has no storage changes is up to the importer, and
  the importer is not part of this code. The attempt always passes the
  proposal's storage changes (`ImportParamsExact`).
- The ineligible path also skips inherent assembly, because the eligibility
  check comes first.

## Model

| member | source | states |
|---|---|---|
| `Primitives.PushLog` | client/consensus/filtering/src/lib.rs:295-296 | pushing a log extends the digest by exactly that item and leaves every other header field unchanged |
| `Inherents.EncodeU32` | pallets/block-mortality/src/lib.rs:104-109 | a SCALE `u32` is four bytes |
| `Inherents.DecodeU32` | pallets/block-mortality/src/lib.rs:121-124 | decoding a `u32` succeeds iff at least four bytes are present |
| `Inherents.U32RoundTrip` | pallets/block-mortality/src/lib.rs:104-124 | decoding an encoded `u32` gives back the same value |
| `Inherents.PutData` | pallets/block-mortality/src/lib.rs:108 | `put_data` succeeds iff the bundle accepts it; on success the identifier maps to the payload, the key set grows by that identifier only and every other entry is kept; on failure the error names the identifier |
| `Inherents.GetU32` | pallets/block-mortality/src/lib.rs:122-124 | `get_data::<u32>` is `Ok(None)` iff the identifier is absent, and a decoding error iff the payload is shorter than four bytes |
| `Inherents.PutThenGetU32` | pallets/block-mortality/src/lib.rs:104-124 | a `u32` put under an identifier is read back unchanged |
| `BlockMortality.CheckRelayHeight` | pallets/block-mortality/src/lib.rs:50-60 | true iff the ceiling is at most the stored relay parent number; requires the validation data the source unwraps with `expect`; the same comparison decides `SetMaxRelayParent` and `CheckInherent`, whose ensures state the iff for their callers |
| `BlockMortality.CheckRelayHeightMonotone` | pallets/block-mortality/src/lib.rs:50-60 | an accepted ceiling stays accepted when it is lowered or when the stored relay parent number rises |
| `BlockMortality.SetMaxRelayParent` | pallets/block-mortality/src/lib.rs:39-43 | a non-inherent origin fails with `BadOrigin`; with the inherent origin, the call fails with `RelayParentTooHigh` iff `max` exceeds the stored relay parent number, and succeeds otherwise; validation data is needed only once the origin passes |
| `BlockMortality.CreateInherent` | pallets/block-mortality/src/lib.rs:121-127 | no call iff nothing is stored under `example_`; otherwise the call carries the decoded stored ceiling |
| `BlockMortality.CheckInherent` | pallets/block-mortality/src/lib.rs:129-139 | `Ok` iff the call's ceiling is at most the stored relay parent number; otherwise the error is `Other("Relay Parent Too High")` |
| `BlockMortality.CheckInherentMatchesDispatch` | pallets/block-mortality/src/lib.rs:129-139 | `check_inherent` accepts exactly the calls that dispatch with the inherent origin accepts |
| `BlockMortality.IsFatalError` | pallets/block-mortality/src/lib.rs:71-77 | every inherent error is fatal |
| `BlockMortality.TryFrom` | pallets/block-mortality/src/lib.rs:82-88 | any identifier other than `example_` gives `None`; `example_` gives the decoded error |
| `BlockMortality.ProviderIdentifier` | pallets/block-mortality/src/lib.rs:100-102 | the provider declares the pallet's identifier `example_` |
| `BlockMortality.ProvideInherentData` | pallets/block-mortality/src/lib.rs:104-109 | succeeds iff the insertion is accepted; afterwards the provider's ceiling is read back under its identifier and the other entries are kept |
| `BlockMortality.ProviderRoundTrip` | pallets/block-mortality/src/lib.rs:104-127 | `create_inherent` on the provider's data yields `set_max_relay_parent` with exactly the provider's ceiling |
| `BlockMortality.ProvidedCeilingChecked` | pallets/block-mortality/src/lib.rs:104-139 | the inherent built from a provider's data passes `check_inherent` iff the provider's ceiling is at most the stored relay height |
| `BlockMortality.StaleCeilingRejected` | pallets/block-mortality/src/lib.rs:121-139 | a ceiling of 150 checked at relay height 101 is rejected with the fatal freshness error |
| `ExampleInherent.SetMaxRelayParent` | pallets/example-inherent/src/lib.rs:43-59 | rejects any non-inherent origin; with the inherent origin, fails with `RelayParentTooHigh` iff the ceiling exceeds the stored `block_number`, succeeds otherwise, and never raises `ParachainInherentNotPresent` |
| `ExampleInherent.IsFatalError` | pallets/example-inherent/src/lib.rs:82-88 | every inherent error is fatal |
| `ExampleInherent.TryFrom` | pallets/example-inherent/src/lib.rs:93-99 | any identifier other than `example_` gives `None`; `example_` gives the decoded error |
| `ExampleInherent.ProviderIdentifier` | pallets/example-inherent/src/lib.rs:108-110 | the provider declares the pallet's identifier `example_` |
| `ExampleInherent.ProvideInherentData` | pallets/example-inherent/src/lib.rs:112-117 | writes exactly the provider's value under `example_`, adds no other key and keeps every other entry |
| `Exec.FilterSound` | rococo-parachains/runtime/src/exec.rs:20 | `retain` keeps only elements of the input that the predicate accepts |
| `Exec.FilterKeepsAll` | rococo-parachains/runtime/src/exec.rs:20 | `retain` with an accept-all predicate keeps everything, in order |
| `Exec.FilterDropsAll` | rococo-parachains/runtime/src/exec.rs:20-23 | `retain` with a reject-all predicate leaves nothing |
| `Exec.Retain` | rococo-parachains/runtime/src/exec.rs:20 | the single pass over the logs computes exactly the filtered sequence |
| `Exec.StripDigestsSpec` | rococo-parachains/runtime/src/exec.rs:13-35 | the block handed on has an empty digest log, every other header field unchanged and the same extrinsics in the same order |
| `Exec.StripDigestsIdempotent` | rococo-parachains/runtime/src/exec.rs:20-23 | stripping a header that has no logs changes nothing, and stripping twice equals stripping once |
| `Exec.InnerExecutor.ExecuteBlock` | rococo-parachains/runtime/src/exec.rs:35 | the inner executor receives the block it is given, appended to what it already executed |
| `Exec.ExecuteBlock` | rococo-parachains/runtime/src/exec.rs:12-40 | the inner executor is invoked exactly once, with the digest-stripped block |
| `Filtering.SealCountAppend` | client/consensus/filtering/src/lib.rs:296 | appending the test seal raises the seal count by one; appending any other log leaves it unchanged |
| `Filtering.AssembleAllOrNothing` | client/consensus/filtering/src/lib.rs:131-171 | assembly yields a bundle iff base creation, `create_at` and `put_data` all succeed; that bundle is the base plus the parachain inherent under its identifier, with nothing else changed; steps after a failing one are not called, and `put_data` is recorded with the parachain inherent that `create_at` returned |
| `Filtering.AssemblyRanked` | client/consensus/filtering/src/lib.rs:131-171 | assembly calls base creation, then `create_at`, then `put_data`, each at most once |
| `Filtering.IneligibleSkipsProduction` | client/consensus/filtering/src/lib.rs:217-227 | if `can_author` is false, there is no candidate and the only calls are the keystore query, the hash of `parent` and `can_author`; the proposer factory, `propose` and `import_block` are never invoked |
| `Filtering.KeystoreDoesNotGate` | client/consensus/filtering/src/lib.rs:204-215 | the outcome and the calls of an attempt are the same whatever `has_keys` answers |
| `Filtering.ProposalRequiresEveryEarlierStep` | client/consensus/filtering/src/lib.rs:217-253 | a proposal exists iff eligibility, proposer init, assembly and `propose` all succeed; `propose` is called last, with the assembled inherents, an empty digest and 500 ms |
| `Filtering.EarlyFailureSkipsImport` | client/consensus/filtering/src/lib.rs:229-253 | if any step before the proposal fails, there is no candidate, the proposed header is not hashed (no pre-seal hash) and nothing is imported |
| `Filtering.CallsInPipelineOrder` | client/consensus/filtering/src/lib.rs:194-301 | recorded calls are made in the order keystore, hash of `parent`, eligibility, proposer init, the assembly steps, `propose`, pre-seal hash of the proposed header, import, each at most once |
| `Filtering.ImportParamsExact` | client/consensus/filtering/src/lib.rs:255-268 | after a proposal, the unsealed proposed header is hashed; the import gets origin `Own`, the unsealed header, post-digests `[Seal("test", [])]`, body `Some(extrinsics)`, fork choice `Custom(false)` and the proposal's storage changes; the remaining fields keep their defaults |
| `Filtering.ImportFailureYieldsNothing` | client/consensus/filtering/src/lib.rs:279-292 | a failing import gives no candidate |
| `Filtering.SuccessfulCandidate` | client/consensus/filtering/src/lib.rs:295-300 | a candidate exists iff the import succeeds; its header is the proposed header with the seal appended to the logs and nothing else changed, with one more seal; its body is the proposed extrinsics and its proof is the proposal's proof |
| `Filtering.SealedExactlyOnce` | client/consensus/filtering/src/lib.rs:294-300 | if the proposer's header carried no test seal, the candidate carries exactly one |
| `Filtering.FilteringConsensus.BuildInherentData` | client/consensus/filtering/src/lib.rs:131-171 | returns the assembly result and appends exactly the assembly's calls to the trace |
| `Filtering.FilteringConsensus.ProduceCandidate` | client/consensus/filtering/src/lib.rs:194-301 | returns the attempt's result and appends exactly the attempt's calls to the trace |
| `Protocol.SealedCandidateExecutesAsProposed` | client/consensus/filtering/src/lib.rs:294-300 | after the runtime's executor strips the logs, the sealed candidate is the same block as the unsealed proposal, with the proposed extrinsics |
| `Protocol.PalletVariantsAgree` | pallets/example-inherent/src/lib.rs:43-59 | both pallet variants (this one and the block-mortality dispatchable at pallets/block-mortality/src/lib.rs:39-43) accept, reject on origin, or reject as too high on the same inputs |

## Left out

- Construction and wiring are not modelled: `new`, `Clone`, the builder params, the builder functions and the `ExecuteWithClient` impl. The class constructor sets only the para id and the author.
- Async execution, the `Mutex` locking of the proposer factory and the block import, and the effect of the 500 ms budget are not modelled. The budget appears only as the value passed to `propose`, and any collaborator call may succeed or fail.
- Logging, `println!` and the `post_hash()` computed for the log line are not modelled; they are observability only.
- The runtime API `can_author` is a total boolean oracle. Its error case makes the source panic through `expect`, and that panic is not modelled.
- The keystore, block hashing, `create_inherent_data`, `ParachainInherentData::create_at`, the SCALE encoding of `ParachainInherentData`, `propose` and `import_block` are oracles. Their internals are foreign code.
- `put_data` is fallible, with the verdict given by an oracle; the rule it uses (duplicate identifiers) belongs to the library. The value `sysi1337` of the parachain inherent identifier comes from the parachain-inherent crate, which is not part of this model.
- What the block import does to local storage is not modelled; only the call and its verdict are.
- The second argument of `import_block`, an empty cache, is not modelled.
- `error_to_string` in both pallets is not modelled. Its result is Rust `Debug` formatting of the decoded error.
- SCALE decoding of `InherentError` in `try_from` is a parameter.
- The weight and dispatch-class annotations on `set_max_relay_parent` are not modelled.
- In the example-inherent pallet, `FindAuthor`, `create_inherent` and `check_inherent` are not modelled. They refer to `Author`, `set_author`, `CanAuthor` and `EventHandler`, which the pallet never defines.
- The test modules of both pallets are not modelled. They exercise a `set_author` call and an `AuthorAlreadySet` error that the pallets do not have.
- The commented-out single-seal detection in the executor is not live, so it is not modelled.
- The block number in a header is an unbounded natural; the source leaves it generic.
- The second hash of `parent`, taken only for the error log of a failed import, is not recorded in the trace; it is observability only.
- BlockMortality.CheckRelayHeight: requires validation data, because the source panics through `expect` when it is absent; the panic is not modelled.
- BlockMortality.SetMaxRelayParent: requires validation data once the origin check has passed, because the source panics through `expect` when it is absent; the panic is not modelled.
- BlockMortality.CreateInherent: requires a stored payload under `example_` to hold at least four bytes, because the source panics through `expect` on a decoding error; the panic is not modelled.
- BlockMortality.CheckInherent: requires validation data, because the height check panics through `expect` when it is absent; the panic is not modelled.
- ExampleInherent.SetMaxRelayParent: requires validation data once the origin check has passed, because the source panics through `expect` when it is absent; the panic is not modelled.
