/** The example-inherent pallet: the earlier variant of the freshness inherent.
    Only the parts of it that are self-consistent are modelled: the
    dispatchable, the inherent error and the inherent-data provider. It reads the
    relay height from the `block_number` field of the parachain-system
    validation data (an older shape of that record than the one
    `BlockMortality` uses). */
module ExampleInherent {
  import opened Primitives
  import opened Inherents

  /** `INHERENT_IDENTIFIER = *b"example_"`. */
  const InherentId: InherentIdentifier := [0x65, 0x78, 0x61, 0x6d, 0x70, 0x6c, 0x65, 0x5f]

  /** The validation data as this pallet reads it; only the field it uses. */
  datatype ValidationData = ValidationData(blockNumber: u32)

  type AccountId = Bytes

  /** The origin of a dispatch; `Unsigned` is frame-system's `RawOrigin::None`. */
  datatype Origin = Root | Signed(who: AccountId) | Unsigned

  /** `BadOrigin` from `ensure_none`, and the pallet's two declared errors
      (`ParachainInherentNotPresent` is declared but never raised). */
  datatype DispatchError = BadOrigin | ParachainInherentNotPresent | RelayParentTooHigh

  datatype InherentError = Other(message: string)

  datatype InherentDataProvider = InherentDataProvider(ceiling: u32)

  /** `set_max_relay_parent`. The source first binds the relay height to zero
      and then immediately rebinds it to the stored block number, so the zero
      has no effect; the stored validation data is unwrapped with `expect`
      after the origin check, hence the precondition. */
  function SetMaxRelayParent(origin: Origin, maxRelayParent: u32, validationData: Option<ValidationData>)
    : (r: Result<(), DispatchError>)
    requires origin.Unsigned? ==> validationData.Some?
    ensures r == Err(BadOrigin) <==> !origin.Unsigned?
    ensures r == Err(RelayParentTooHigh) <==>
              origin.Unsigned? && maxRelayParent > validationData.value.blockNumber
    ensures r.Ok? <==> origin.Unsigned? && maxRelayParent <= validationData.value.blockNumber
    ensures r != Err(ParachainInherentNotPresent)
  {
    if !origin.Unsigned? then Err(BadOrigin)
    else
      var relayHeight := validationData.value.blockNumber;
      if maxRelayParent <= relayHeight then Ok(()) else Err(RelayParentTooHigh)
  }

  /** `is_fatal_error`: every inherent error of this pallet is fatal. */
  function IsFatalError(e: InherentError): (fatal: bool)
    ensures fatal
  {
    match e
    case Other(_) => true
  }

  /** `InherentError::try_from`: only data reported under this pallet's
      identifier is decoded (SCALE decoding is the `decode` parameter). */
  function TryFrom(id: InherentIdentifier, data: Bytes, decode: Bytes -> Option<InherentError>)
    : (r: Option<InherentError>)
    ensures id != InherentId ==> r.None?
    ensures id == InherentId ==> r == decode(data)
  {
    if id == InherentId then decode(data) else None
  }

  /** `inherent_identifier` of the provider. */
  function ProviderIdentifier(p: InherentDataProvider): (id: InherentIdentifier)
    ensures id == InherentId
  {
    InherentId
  }

  /** `provide_inherent_data`: writes exactly the provider's value, SCALE-encoded,
      under the pallet's identifier and leaves every other entry alone. */
  function ProvideInherentData(p: InherentDataProvider, data: InherentData, accepted: bool)
    : (r: Result<InherentData, InherentDataError>)
    ensures r.Ok? <==> accepted
    ensures r.Ok? ==> r.value.data.Keys == data.data.Keys + {ProviderIdentifier(p)}
    ensures r.Ok? ==> GetU32(r.value, ProviderIdentifier(p)) == Ok(Some(p.ceiling))
    ensures r.Ok? ==> forall k :: k in data.data && k != InherentId ==>
                        r.value.data[k] == data.data[k]
  {
    U32RoundTrip(p.ceiling);
    PutData(data, InherentId, EncodeU32(p.ceiling), accepted)
  }
}
