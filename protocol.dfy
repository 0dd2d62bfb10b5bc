/** Properties that connect the collator side with the runtime side. */
module Protocol {
  import opened Primitives
  import Filtering
  import Exec
  import BlockMortality
  import ExampleInherent

  /** The seal the collator appends is exactly what the runtime's executor
      strips: executing the returned candidate hands the inner executor the
      same block as executing the unsealed proposal would, with the proposed
      extrinsics unchanged. */
  lemma SealedCandidateExecutesAsProposed(p: Filtering.Proposal)
    ensures Exec.StripDigests(Filtering.SealedCandidate(p).block) == Exec.StripDigests(p.block)
    ensures Exec.StripDigests(Filtering.SealedCandidate(p).block).extrinsics == p.block.extrinsics
  {
    var sealed := Filtering.SealedCandidate(p).block;
    Exec.StripDigestsSpec(sealed);
    Exec.StripDigestsSpec(p.block);
  }

  /** The same origin in the example pallet's terms. */
  function ExampleOrigin(o: BlockMortality.Origin): (e: ExampleInherent.Origin)
  {
    match o
    case Root => ExampleInherent.Root
    case Signed(who) => ExampleInherent.Signed(who)
    case Unsigned => ExampleInherent.Unsigned
  }

  /** The two pallet variants make the same decision on the same origin,
      ceiling and relay height: both reject a non-inherent origin, and both
      accept exactly the ceilings that do not exceed the relay height. */
  lemma PalletVariantsAgree(origin: BlockMortality.Origin, max: u32,
                            vd: PersistedValidationData, evd: ExampleInherent.ValidationData)
    requires evd.blockNumber == vd.relayParentNumber
    ensures var r := BlockMortality.SetMaxRelayParent(origin, max, Some(vd));
            var e := ExampleInherent.SetMaxRelayParent(ExampleOrigin(origin), max, Some(evd));
            && (r.Ok? <==> e.Ok?)
            && (r == Err(BlockMortality.BadOrigin) <==> e == Err(ExampleInherent.BadOrigin))
            && (r == Err(BlockMortality.RelayParentTooHigh) <==> e == Err(ExampleInherent.RelayParentTooHigh))
  {
  }
}
