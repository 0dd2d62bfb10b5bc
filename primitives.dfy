/** Value types shared by the node-side consensus code and the runtime: fixed-width
    integers, bytes, block headers with their digest logs, blocks, and the
    relay-chain validation data a parachain block is built against. */
module Primitives {

  /** Rust `u8`. */
  newtype u8 = x: int | 0 <= x < 0x100

  /** Rust `u32`: relay-chain block numbers and the freshness ceiling. */
  newtype u32 = x: int | 0 <= x < 0x1_0000_0000

  type Bytes = seq<u8>

  /** A block or header hash; produced by hashing, which is outside this model. */
  type Hash = Bytes

  /** A 4-byte consensus engine identifier (`ConsensusEngineId`). */
  type EngineId = s: Bytes | |s| == 4 witness [0, 0, 0, 0]

  datatype Option<T> = None | Some(value: T)

  datatype Result<T, E> = Ok(value: T) | Err(error: E)

  /** One entry of a header's digest log (`DigestItem`). */
  datatype DigestItem =
    | ChangesTrieRoot(root: Hash)
    | PreRuntime(preEngine: EngineId, preData: Bytes)
    | Consensus(consensusEngine: EngineId, consensusData: Bytes)
    | Seal(engine: EngineId, signature: Bytes)
    | Other(otherData: Bytes)

  datatype Digest = Digest(logs: seq<DigestItem>)

  /** A parachain block header; the block number is generic in the source and
      is an unbounded natural here. */
  datatype Header = Header(
    parentHash: Hash,
    number: nat,
    stateRoot: Hash,
    extrinsicsRoot: Hash,
    digest: Digest)

  /** An opaque, already-encoded extrinsic. */
  type Extrinsic = Bytes

  /** A block, as `Block::new(header, extrinsics)` builds it and
      `block.deconstruct()` takes it apart. */
  datatype Block = Block(header: Header, extrinsics: seq<Extrinsic>)

  /** `PersistedValidationData`: the relay-chain snapshot a parachain block is
      built against. */
  datatype PersistedValidationData = PersistedValidationData(
    parentHead: Bytes,
    relayParentNumber: u32,
    relayParentStorageRoot: Hash,
    maxPovSize: u32)

  /** The header with `item` pushed onto the end of its digest log. */
  function PushLog(h: Header, item: DigestItem): (r: Header)
    ensures r.digest.logs == h.digest.logs + [item]
    ensures r.(digest := h.digest) == h
  {
    h.(digest := Digest(h.digest.logs + [item]))
  }
}
