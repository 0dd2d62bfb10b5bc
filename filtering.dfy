/** The filtering consensus on the collator side: one attempt at producing a
    parachain candidate. The attempt asks the runtime whether this node's
    author may build on `parent` at the relay parent number, creates a
    proposer, assembles the inherent data (the registered providers plus the
    parachain-system inherent), proposes a block, imports it with a test seal
    as post-digest, and returns the sealed block with its proof.

    Every collaborator (keystore, runtime API, proposer factory and proposer,
    inherent-data providers, relay-chain state reader, block import, hashing)
    is an oracle in `Collaborators`. The ghost `trace` of `FilteringConsensus`
    records, with their arguments, the keystore query, the hash of `parent`,
    `can_author`, proposer creation, `create_inherent_data`, `create_at`,
    `put_data` (identifier and parachain inherent), `propose`, the pre-seal
    hash of the proposed header and `import_block`. The two hashes computed
    only for log lines, the post-seal hash and the hash of `parent` reported
    when the import fails, are not recorded. The
    functions `Assemble`, `UpToProposal` and `Produce` give the outcome and
    the calls of an attempt; the methods are proved to follow them. */
module Filtering {
  import opened Primitives
  import opened Inherents

  type ParaId = u32

  /** The SCALE encoding of the author identity. */
  type AuthorId = Bytes

  /** A 4-byte key type (`KeyTypeId`). */
  type KeyTypeId = s: Bytes | |s| == 4 witness [0, 0, 0, 0]

  /** `KeyTypeId(*b"nmbs")`, the key type the keystore is asked about. */
  const NimbusKeyType: KeyTypeId := [0x6e, 0x6d, 0x62, 0x73]

  /** `*b"test"`, the engine of the seal appended to produced blocks. */
  const TestEngine: EngineId := [0x74, 0x65, 0x73, 0x74]

  /** `DigestItem::Seal(*b"test", Vec::new())`. */
  const TestSeal: DigestItem := Seal(TestEngine, [])

  /** The identifier of the parachain-system inherent, `*b"sysi1337"`; it is
      defined by the parachain-inherent crate, which is not part of this model. */
  const ParachainInherentId: InherentIdentifier := [0x73, 0x79, 0x73, 0x69, 0x31, 0x33, 0x33, 0x37]

  /** The wall-clock budget handed to `propose`, in milliseconds. */
  const ProposalBudgetMs: nat := 500

  /** `ParachainInherentData`: the validation data and the relay-chain state
      proof read at the relay parent. */
  datatype ParachainInherentData = ParachainInherentData(
    validationData: PersistedValidationData,
    relayChainState: seq<Bytes>)

  /** The storage changes a proposal computed (kept opaque). */
  datatype StorageChanges = StorageChanges(changes: map<Bytes, Option<Bytes>>)

  /** The storage proof recorded while building the block. */
  datatype StorageProof = StorageProof(trieNodes: set<Bytes>)

  /** `Proposal { block, storage_changes, proof }`. */
  datatype Proposal = Proposal(block: Block, storageChanges: StorageChanges, proof: StorageProof)

  datatype BlockOrigin = Genesis | NetworkInitialSync | NetworkBroadcast | ConsensusBroadcast | Own | File

  datatype ForkChoiceStrategy = LongestChain | Custom(isBest: bool)

  /** The fields of `BlockImportParams` this code sets or relies on. */
  datatype BlockImportParams = BlockImportParams(
    origin: BlockOrigin,
    header: Header,
    justification: Option<Bytes>,
    postDigests: seq<DigestItem>,
    body: Option<seq<Extrinsic>>,
    storageChanges: Option<StorageChanges>,
    finalized: bool,
    forkChoice: Option<ForkChoiceStrategy>,
    importExisting: bool)

  /** `ParachainCandidate { block, proof }`. */
  datatype ParachainCandidate = ParachainCandidate(block: Block, proof: StorageProof)

  /** The outcomes of the collaborators, as functions of their arguments. A
      failing step is `false` or `None`. */
  datatype Collaborators = Collaborators(
    hasKeys: seq<(Bytes, KeyTypeId)> -> bool,
    hash: Header -> Hash,
    canAuthor: (Hash, AuthorId, u32) -> bool,
    initProposer: Header -> bool,
    createInherentData: Option<InherentData>,
    createAt: (Hash, PersistedValidationData, ParaId) -> Option<ParachainInherentData>,
    encodeParachainInherent: ParachainInherentData -> Bytes,
    putDataAccepts: (InherentData, InherentIdentifier) -> bool,
    propose: (InherentData, Digest, nat) -> Option<Proposal>,
    importBlock: BlockImportParams -> bool)

  /** One call made to a collaborator, with its arguments. `HashParentCall` is
      `parent.hash()` for the runtime-API block id; `HashCall` is the pre-seal
      hash of the proposed header. */
  datatype CallEvent =
    | HasKeysCall(keys: seq<(Bytes, KeyTypeId)>)
    | HashParentCall(parent: Header)
    | CanAuthorCall(at: Hash, author: AuthorId, relayParentNumber: u32)
    | InitCall(parent: Header)
    | CreateInherentDataCall
    | CreateAtCall(relayParent: Hash, validationData: PersistedValidationData, paraId: ParaId)
    | PutDataCall(id: InherentIdentifier, inherent: ParachainInherentData)
    | ProposeCall(inherents: InherentData, inherentDigests: Digest, maxDurationMs: nat)
    | HashCall(hashed: Header)
    | ImportBlockCall(params: BlockImportParams)

  /** The outcome of a stage of the attempt and the calls it made. */
  datatype Step<T> = Step(result: Option<T>, calls: seq<CallEvent>)

  /** The position of each kind of call in the pipeline. */
  function Rank(e: CallEvent): (r: nat)
  {
    match e
    case HasKeysCall(_) => 0
    case HashParentCall(_) => 1
    case CanAuthorCall(_, _, _) => 2
    case InitCall(_) => 3
    case CreateInherentDataCall => 4
    case CreateAtCall(_, _, _) => 5
    case PutDataCall(_, _) => 6
    case ProposeCall(_, _, _) => 7
    case HashCall(_) => 8
    case ImportBlockCall(_) => 9
  }

  /** Calls appear in pipeline order, each kind at most once. */
  ghost predicate InPipelineOrder(calls: seq<CallEvent>)
  {
    forall i, j :: 0 <= i < j < |calls| ==> Rank(calls[i]) < Rank(calls[j])
  }

  /** The number of test seals in a digest log. */
  function SealCount(logs: seq<DigestItem>): (n: nat)
  {
    if logs == [] then 0 else (if logs[0] == TestSeal then 1 else 0) + SealCount(logs[1..])
  }

  lemma {:induction false} SealCountAppend(logs: seq<DigestItem>, item: DigestItem)
    ensures SealCount(logs + [item]) == SealCount(logs) + (if item == TestSeal then 1 else 0)
  {
    if logs == [] {
      assert logs + [item] == [item];
    } else {
      assert (logs + [item])[1..] == logs[1..] + [item];
      SealCountAppend(logs[1..], item);
    }
  }

  /** `BlockImportParams::new(origin, header)`: nothing but origin and header set. */
  function NewImportParams(origin: BlockOrigin, header: Header): (params: BlockImportParams)
  {
    BlockImportParams(origin, header, None, [], None, None, false, None, false)
  }

  /** The import parameters built from a proposal. */
  function SealedImportParams(p: Proposal): (params: BlockImportParams)
  {
    NewImportParams(Own, p.block.header).(
      postDigests := [TestSeal],
      body := Some(p.block.extrinsics),
      forkChoice := Some(Custom(false)),
      storageChanges := Some(p.storageChanges))
  }

  /** The candidate returned once a proposal has been imported. */
  function SealedCandidate(p: Proposal): (candidate: ParachainCandidate)
  {
    ParachainCandidate(Block(PushLog(p.block.header, TestSeal), p.block.extrinsics), p.proof)
  }

  /** `inherent_data`: base inherents, then the parachain-system inherent read
      at the relay parent, then its insertion; the first failure ends it. */
  function Assemble(c: Collaborators, paraId: ParaId, vd: PersistedValidationData, relayParent: Hash)
    : (a: Step<InherentData>)
  {
    match c.createInherentData
    case None => Step(None, [CreateInherentDataCall])
    case Some(base) =>
      var fetched := [CreateInherentDataCall, CreateAtCall(relayParent, vd, paraId)];
      match c.createAt(relayParent, vd, paraId)
      case None => Step(None, fetched)
      case Some(pid) =>
        var put := PutData(base, ParachainInherentId, c.encodeParachainInherent(pid),
                           c.putDataAccepts(base, ParachainInherentId));
        Step(if put.Ok? then Some(put.value) else None, fetched + [PutDataCall(ParachainInherentId, pid)])
  }

  /** The attempt up to and including `propose`. */
  function UpToProposal(c: Collaborators, paraId: ParaId, author: AuthorId, parent: Header,
                        relayParent: Hash, vd: PersistedValidationData): (s: Step<Proposal>)
  {
    var gate := [HasKeysCall([(author, NimbusKeyType)]), HashParentCall(parent),
                 CanAuthorCall(c.hash(parent), author, vd.relayParentNumber)];
    if !c.canAuthor(c.hash(parent), author, vd.relayParentNumber) then Step(None, gate)
    else if !c.initProposer(parent) then Step(None, gate + [InitCall(parent)])
    else
      var assembly := Assemble(c, paraId, vd, relayParent);
      var assembled := gate + [InitCall(parent)] + assembly.calls;
      match assembly.result
      case None => Step(None, assembled)
      case Some(inherents) =>
        Step(c.propose(inherents, Digest([]), ProposalBudgetMs),
             assembled + [ProposeCall(inherents, Digest([]), ProposalBudgetMs)])
  }

  /** `produce_candidate`: the whole attempt. */
  function Produce(c: Collaborators, paraId: ParaId, author: AuthorId, parent: Header,
                   relayParent: Hash, vd: PersistedValidationData): (a: Step<ParachainCandidate>)
  {
    var proposing := UpToProposal(c, paraId, author, parent, relayParent, vd);
    match proposing.result
    case None => Step(None, proposing.calls)
    case Some(p) =>
      var params := SealedImportParams(p);
      var calls := proposing.calls + [HashCall(p.block.header), ImportBlockCall(params)];
      Step(if c.importBlock(params) then Some(SealedCandidate(p)) else None, calls)
  }

  /** Inherent assembly is all or nothing: it yields a bundle exactly when
      all three steps succeed, and that bundle is the base bundle with the
      parachain-system inherent added under its identifier and nothing else
      changed. Steps after a failing one are never called. */
  lemma AssembleAllOrNothing(c: Collaborators, paraId: ParaId, vd: PersistedValidationData,
                             relayParent: Hash)
    ensures var a := Assemble(c, paraId, vd, relayParent);
            a.result.Some? <==>
              c.createInherentData.Some? && c.createAt(relayParent, vd, paraId).Some? &&
              c.putDataAccepts(c.createInherentData.value, ParachainInherentId)
    ensures var a := Assemble(c, paraId, vd, relayParent);
            a.result.Some? ==>
              var base := c.createInherentData.value.data;
              var pid := c.createAt(relayParent, vd, paraId).value;
              && a.result.value.data.Keys == base.Keys + {ParachainInherentId}
              && a.result.value.data[ParachainInherentId] == c.encodeParachainInherent(pid)
              && (forall k :: k in base && k != ParachainInherentId ==> a.result.value.data[k] == base[k])
    ensures var a := Assemble(c, paraId, vd, relayParent);
            && a.calls[0] == CreateInherentDataCall
            && (c.createInherentData.None? <==> |a.calls| == 1)
            && (c.createInherentData.Some? ==> a.calls[1] == CreateAtCall(relayParent, vd, paraId))
            && |a.calls| <= 3
            && (|a.calls| == 3 <==>
                  c.createInherentData.Some? && c.createAt(relayParent, vd, paraId).Some?)
            && (|a.calls| == 3 ==>
                  a.calls[2] == PutDataCall(ParachainInherentId, c.createAt(relayParent, vd, paraId).value))
  {
  }

  /** A node that may not author stops right after asking: no proposer, no
      inherents, no proposal, no import, no candidate. */
  lemma IneligibleSkipsProduction(c: Collaborators, paraId: ParaId, author: AuthorId, parent: Header,
                                  relayParent: Hash, vd: PersistedValidationData)
    requires !c.canAuthor(c.hash(parent), author, vd.relayParentNumber)
    ensures var a := Produce(c, paraId, author, parent, relayParent, vd);
            && a.result.None?
            && a.calls == [HasKeysCall([(author, NimbusKeyType)]), HashParentCall(parent),
                           CanAuthorCall(c.hash(parent), author, vd.relayParentNumber)]
            && (forall e :: e in a.calls ==> !e.InitCall? && !e.ProposeCall? && !e.ImportBlockCall?)
  {
  }

  /** The keystore answer is only looked at, never acted on: the attempt is the
      same whatever `has_keys` says. */
  lemma KeystoreDoesNotGate(c: Collaborators, hasKeys: seq<(Bytes, KeyTypeId)> -> bool,
                            paraId: ParaId, author: AuthorId, parent: Header,
                            relayParent: Hash, vd: PersistedValidationData)
    ensures Produce(c.(hasKeys := hasKeys), paraId, author, parent, relayParent, vd)
            == Produce(c, paraId, author, parent, relayParent, vd)
  {
  }

  /** A proposal is obtained exactly when eligibility, proposer creation,
      inherent assembly and `propose` all succeed; `propose` receives the
      assembled inherents, an empty inherent digest and the 500 ms budget. */
  lemma ProposalRequiresEveryEarlierStep(c: Collaborators, paraId: ParaId, author: AuthorId,
                                         parent: Header, relayParent: Hash,
                                         vd: PersistedValidationData)
    ensures var s := UpToProposal(c, paraId, author, parent, relayParent, vd);
            var a := Assemble(c, paraId, vd, relayParent);
            s.result.Some? <==>
              && c.canAuthor(c.hash(parent), author, vd.relayParentNumber)
              && c.initProposer(parent)
              && a.result.Some?
              && c.propose(a.result.value, Digest([]), ProposalBudgetMs).Some?
    ensures var s := UpToProposal(c, paraId, author, parent, relayParent, vd);
            var a := Assemble(c, paraId, vd, relayParent);
            (exists e :: e in s.calls && e.ProposeCall?) ==>
              && a.result.Some?
              && s.calls[|s.calls| - 1] == ProposeCall(a.result.value, Digest([]), ProposalBudgetMs)
  {
  }

  /** Any failure before a proposal exists ends the attempt without a
      candidate and without `import_block` ever being called. */
  lemma EarlyFailureSkipsImport(c: Collaborators, paraId: ParaId, author: AuthorId, parent: Header,
                                relayParent: Hash, vd: PersistedValidationData)
    requires UpToProposal(c, paraId, author, parent, relayParent, vd).result.None?
    ensures var a := Produce(c, paraId, author, parent, relayParent, vd);
            a.result.None? && forall e :: e in a.calls ==> !e.ImportBlockCall? && !e.HashCall?
  {
    var s := UpToProposal(c, paraId, author, parent, relayParent, vd);
    var gate := [HasKeysCall([(author, NimbusKeyType)]), HashParentCall(parent),
                 CanAuthorCall(c.hash(parent), author, vd.relayParentNumber)];
    var assembly := Assemble(c, paraId, vd, relayParent);
    assert forall e :: e in gate + [InitCall(parent)] + assembly.calls ==>
             !e.ImportBlockCall? && !e.HashCall?;
  }

  /** Every attempt calls its collaborators in pipeline order: keystore, hash
      of `parent`, eligibility, proposer creation, inherent assembly,
      `propose`, pre-seal hash, import; each at most once. */
  lemma CallsInPipelineOrder(c: Collaborators, paraId: ParaId, author: AuthorId, parent: Header,
                             relayParent: Hash, vd: PersistedValidationData)
    ensures InPipelineOrder(Produce(c, paraId, author, parent, relayParent, vd).calls)
  {
    var gate := [HasKeysCall([(author, NimbusKeyType)]), HashParentCall(parent),
                 CanAuthorCall(c.hash(parent), author, vd.relayParentNumber)];
    var assembly := Assemble(c, paraId, vd, relayParent);
    AssemblyRanked(c, paraId, vd, relayParent);
    var pre := gate + [InitCall(parent)];
    assert InPipelineOrder(pre);
    ConcatRanked(pre, assembly.calls, 3);
    var assembled := pre + assembly.calls;
    if assembly.result.Some? {
      var inh := assembly.result.value;
      ConcatRanked(assembled, [ProposeCall(inh, Digest([]), ProposalBudgetMs)], 6);
      var proposed := assembled + [ProposeCall(inh, Digest([]), ProposalBudgetMs)];
      var p := c.propose(inh, Digest([]), ProposalBudgetMs);
      if c.canAuthor(c.hash(parent), author, vd.relayParentNumber) && c.initProposer(parent) && p.Some? {
        var tail := [HashCall(p.value.block.header), ImportBlockCall(SealedImportParams(p.value))];
        ConcatRanked(proposed, tail, 7);
      }
    }
  }

  /** Every call of inherent assembly ranks between proposer creation and `propose`. */
  lemma AssemblyRanked(c: Collaborators, paraId: ParaId, vd: PersistedValidationData, relayParent: Hash)
    ensures InPipelineOrder(Assemble(c, paraId, vd, relayParent).calls)
    ensures forall e :: e in Assemble(c, paraId, vd, relayParent).calls ==> 4 <= Rank(e) <= 6
  {
  }

  /** Two sequences in pipeline order, the first ranked at most `m` and the
      second above `m`, concatenate to one in pipeline order. */
  lemma ConcatRanked(xs: seq<CallEvent>, ys: seq<CallEvent>, m: nat)
    requires InPipelineOrder(xs) && InPipelineOrder(ys)
    requires forall e :: e in xs ==> Rank(e) <= m
    requires forall e :: e in ys ==> m < Rank(e)
    ensures InPipelineOrder(xs + ys)
    ensures forall e :: e in xs + ys ==> Rank(e) <= m || e in ys
  {
    forall i, j | 0 <= i < j < |xs + ys|
      ensures Rank((xs + ys)[i]) < Rank((xs + ys)[j])
    {
      if j < |xs| {
      } else if i < |xs| {
        assert (xs + ys)[i] in xs && (xs + ys)[j] in ys;
      } else {
        assert (xs + ys)[i] == ys[i - |xs|] && (xs + ys)[j] == ys[j - |xs|];
      }
    }
  }

  /** Once a proposal exists, the proposed header is hashed as it is, and
      `import_block` receives exactly: origin `Own`, the unsealed proposed
      header, the test seal as the only post-digest, the proposed extrinsics as
      body, fork choice `Custom(false)` (the relay chain picks the best block)
      and the proposal's storage changes. */
  lemma ImportParamsExact(c: Collaborators, paraId: ParaId, author: AuthorId, parent: Header,
                          relayParent: Hash, vd: PersistedValidationData, p: Proposal)
    requires UpToProposal(c, paraId, author, parent, relayParent, vd).result == Some(p)
    ensures var calls := Produce(c, paraId, author, parent, relayParent, vd).calls;
            && |calls| >= 2
            && calls[|calls| - 2] == HashCall(p.block.header)
            && calls[|calls| - 1].ImportBlockCall?
            && var params := calls[|calls| - 1].params;
               && params.origin == Own
               && params.header == p.block.header
               && params.postDigests == [TestSeal]
               && params.body == Some(p.block.extrinsics)
               && params.forkChoice == Some(Custom(false))
               && params.storageChanges == Some(p.storageChanges)
               && params.justification.None? && !params.finalized && !params.importExisting
  {
  }

  /** A failing import ends the attempt without a candidate. */
  lemma ImportFailureYieldsNothing(c: Collaborators, paraId: ParaId, author: AuthorId, parent: Header,
                                   relayParent: Hash, vd: PersistedValidationData, p: Proposal)
    requires UpToProposal(c, paraId, author, parent, relayParent, vd).result == Some(p)
    requires !c.importBlock(SealedImportParams(p))
    ensures Produce(c, paraId, author, parent, relayParent, vd).result.None?
  {
  }

  /** A candidate is returned exactly when a proposal was imported. Its header
      is the proposed header with the test seal appended to the digest log and
      nothing else changed, so it holds one more test seal; its body is the
      proposed extrinsics and its proof the proposal's proof. */
  lemma SuccessfulCandidate(c: Collaborators, paraId: ParaId, author: AuthorId, parent: Header,
                            relayParent: Hash, vd: PersistedValidationData, p: Proposal)
    requires UpToProposal(c, paraId, author, parent, relayParent, vd).result == Some(p)
    ensures var r := Produce(c, paraId, author, parent, relayParent, vd).result;
            r.Some? <==> c.importBlock(SealedImportParams(p))
    ensures var r := Produce(c, paraId, author, parent, relayParent, vd).result;
            r.Some? ==>
              && r.value.block.header.digest.logs == p.block.header.digest.logs + [TestSeal]
              && r.value.block.header.(digest := p.block.header.digest) == p.block.header
              && SealCount(r.value.block.header.digest.logs) == SealCount(p.block.header.digest.logs) + 1
              && r.value.block.extrinsics == p.block.extrinsics
              && r.value.proof == p.proof
  {
    SealCountAppend(p.block.header.digest.logs, TestSeal);
  }

  /** A produced block carries the test seal exactly once when the proposer
      did not put one there itself. */
  lemma SealedExactlyOnce(c: Collaborators, paraId: ParaId, author: AuthorId, parent: Header,
                          relayParent: Hash, vd: PersistedValidationData, p: Proposal)
    requires UpToProposal(c, paraId, author, parent, relayParent, vd).result == Some(p)
    requires TestSeal !in p.block.header.digest.logs
    requires c.importBlock(SealedImportParams(p))
    ensures var r := Produce(c, paraId, author, parent, relayParent, vd).result;
            r.Some? && SealCount(r.value.block.header.digest.logs) == 1
  {
    SealCountAbsent(p.block.header.digest.logs);
    SuccessfulCandidate(c, paraId, author, parent, relayParent, vd, p);
  }

  lemma {:induction false} SealCountAbsent(logs: seq<DigestItem>)
    requires TestSeal !in logs
    ensures SealCount(logs) == 0
  {
    if logs != [] {
      assert logs[0] != TestSeal;
      assert forall x :: x in logs[1..] ==> x in logs;
      SealCountAbsent(logs[1..]);
    }
  }

  /** The collator's consensus handle. Only the para id and author it was
      built with matter here; `trace` records the collaborator calls made
      through it (see the module comment for which). */
  class FilteringConsensus {
    const paraId: ParaId
    const author: AuthorId
    ghost var trace: seq<CallEvent>

    constructor (paraId: ParaId, author: AuthorId)
      ensures this.paraId == paraId && this.author == author && trace == []
    {
      this.paraId := paraId;
      this.author := author;
      trace := [];
    }

    /** `inherent_data`. */
    method BuildInherentData(validationData: PersistedValidationData, relayParent: Hash,
                             c: Collaborators) returns (r: Option<InherentData>)
      modifies this
      ensures r == Assemble(c, paraId, validationData, relayParent).result
      ensures trace == old(trace) + Assemble(c, paraId, validationData, relayParent).calls
    {
      trace := trace + [CreateInherentDataCall];
      var base := c.createInherentData;
      if base.None? {
        return None;
      }
      var inherentData := base.value;
      trace := trace + [CreateAtCall(relayParent, validationData, paraId)];
      var parachainInherentData := c.createAt(relayParent, validationData, paraId);
      if parachainInherentData.None? {
        return None;
      }
      trace := trace + [PutDataCall(ParachainInherentId, parachainInherentData.value)];
      var put := PutData(inherentData, ParachainInherentId,
                         c.encodeParachainInherent(parachainInherentData.value),
                         c.putDataAccepts(inherentData, ParachainInherentId));
      if put.Err? {
        return None;
      }
      inherentData := put.value;
      return Some(inherentData);
    }

    /** `produce_candidate`. */
    method ProduceCandidate(parent: Header, relayParent: Hash, validationData: PersistedValidationData,
                            c: Collaborators) returns (r: Option<ParachainCandidate>)
      modifies this
      ensures r == Produce(c, paraId, author, parent, relayParent, validationData).result
      ensures trace == old(trace) + Produce(c, paraId, author, parent, relayParent, validationData).calls
    {
      ghost var start := trace;
      var keys := [(author, NimbusKeyType)];
      trace := trace + [HasKeysCall(keys)];
      var haveKey := c.hasKeys(keys);

      trace := trace + [HashParentCall(parent)];
      var at := c.hash(parent);
      trace := trace + [CanAuthorCall(at, author, validationData.relayParentNumber)];
      var eligible := c.canAuthor(at, author, validationData.relayParentNumber);
      if !eligible {
        return None;
      }

      trace := trace + [InitCall(parent)];
      if !c.initProposer(parent) {
        return None;
      }

      var inherentData := BuildInherentData(validationData, relayParent, c);
      if inherentData.None? {
        return None;
      }

      trace := trace + [ProposeCall(inherentData.value, Digest([]), ProposalBudgetMs)];
      var proposal := c.propose(inherentData.value, Digest([]), ProposalBudgetMs);
      if proposal.None? {
        return None;
      }
      assert trace == start + UpToProposal(c, paraId, author, parent, relayParent, validationData).calls;
      var Proposal(block, storageChanges, proof) := proposal.value;
      var header, extrinsics := block.header, block.extrinsics;

      trace := trace + [HashCall(header)];
      var preHash := c.hash(header);

      var testDigest := Seal(TestEngine, []);
      var params := NewImportParams(Own, header);
      params := params.(postDigests := params.postDigests + [testDigest]);
      params := params.(body := Some(extrinsics));
      params := params.(forkChoice := Some(Custom(false)));
      params := params.(storageChanges := Some(storageChanges));
      assert params == SealedImportParams(proposal.value);

      trace := trace + [ImportBlockCall(params)];
      if !c.importBlock(params) {
        return None;
      }

      var postHeader := header;
      postHeader := postHeader.(digest := postHeader.digest.(logs := postHeader.digest.logs + [testDigest]));
      r := Some(ParachainCandidate(Block(postHeader, extrinsics), proof));
    }
  }
}
