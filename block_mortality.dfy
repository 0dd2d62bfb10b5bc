/** The block-mortality pallet: a mandatory unsigned inherent carrying a `u32`
    freshness ceiling, accepted only while the ceiling does not exceed the relay
    parent number recorded by the parachain-system inherent earlier in the same
    block. Storage reads become parameters: `validationData` is what
    `parachain_system::validation_data()` returns at the time of the call. */
module BlockMortality {
  import opened Primitives
  import opened Inherents

  /** `INHERENT_IDENTIFIER = *b"example_"`. */
  const InherentId: InherentIdentifier := [0x65, 0x78, 0x61, 0x6d, 0x70, 0x6c, 0x65, 0x5f]

  /** The message of the only inherent error `check_inherent` raises. */
  const TooHighMessage: string := "Relay Parent Too High"

  type AccountId = Bytes

  /** The origin of a dispatch; `Unsigned` is frame-system's `RawOrigin::None`,
      the origin inherents are dispatched with. */
  datatype Origin = Root | Signed(who: AccountId) | Unsigned

  /** Dispatch errors: `BadOrigin` is what `ensure_none` raises, the other is the
      pallet's own `Error::RelayParentTooHigh`. */
  datatype DispatchError = BadOrigin | RelayParentTooHigh

  /** The pallet's only call. */
  datatype Call = SetMaxRelayParentCall(max: u32)

  /** `InherentError`; its only variant carries a runtime string. */
  datatype InherentError = Other(message: string)

  /** The provider the node registers: it injects one fixed ceiling. */
  datatype InherentDataProvider = InherentDataProvider(ceiling: u32)

  /** `check_relay_height`: the ceiling may not exceed the stored relay parent
      number. The source unwraps the storage item with `expect`, so it must be
      present. */
  function CheckRelayHeight(max: u32, validationData: Option<PersistedValidationData>): (ok: bool)
    requires validationData.Some?
    ensures ok <==> max <= validationData.value.relayParentNumber
  {
    max <= validationData.value.relayParentNumber
  }

  /** A ceiling that is accepted stays accepted when it is lowered or when the
      relay parent moves forward. */
  lemma CheckRelayHeightMonotone(max: u32, max': u32,
                                 vd: PersistedValidationData, vd': PersistedValidationData)
    requires CheckRelayHeight(max, Some(vd))
    requires max' <= max && vd.relayParentNumber <= vd'.relayParentNumber
    ensures CheckRelayHeight(max', Some(vd'))
  {
  }

  /** The dispatchable `set_max_relay_parent`: `ensure_none` first, then the
      height check. Validation data is only read (and so only needed) once the
      origin check has passed. */
  function SetMaxRelayParent(origin: Origin, max: u32, validationData: Option<PersistedValidationData>)
    : (r: Result<(), DispatchError>)
    requires origin.Unsigned? ==> validationData.Some?
    ensures r == Err(BadOrigin) <==> !origin.Unsigned?
    ensures r == Err(RelayParentTooHigh) <==>
              origin.Unsigned? && max > validationData.value.relayParentNumber
    ensures r.Ok? <==> origin.Unsigned? && max <= validationData.value.relayParentNumber
  {
    if !origin.Unsigned? then Err(BadOrigin)
    else if CheckRelayHeight(max, validationData) then Ok(())
    else Err(RelayParentTooHigh)
  }

  /** `create_inherent`: builds the call from the `u32` stored under the
      pallet's identifier, or nothing when none is stored. A stored payload that
      does not decode makes the source panic, hence the precondition. */
  function CreateInherent(data: InherentData): (r: Option<Call>)
    requires InherentId in data.data ==> |data.data[InherentId]| >= 4
    ensures r.None? <==> InherentId !in data.data
    ensures r.Some? ==> Some(r.value.max) == DecodeU32(data.data[InherentId])
  {
    match GetU32(data, InherentId)
    case Ok(Some(v)) => Some(SetMaxRelayParentCall(v))
    case Ok(None) => None
    case Err(_) => assert false; None
  }

  /** `check_inherent`: the call is checked with the very same height check the
      dispatchable uses; the inherent data is not consulted. */
  function CheckInherent(call: Call, data: InherentData, validationData: Option<PersistedValidationData>)
    : (r: Result<(), InherentError>)
    requires validationData.Some?
    ensures r.Ok? <==> call.max <= validationData.value.relayParentNumber
    ensures r.Err? ==> r.error == InherentError.Other(TooHighMessage)
  {
    match call
    case SetMaxRelayParentCall(max) =>
      if CheckRelayHeight(max, validationData) then Ok(()) else Err(InherentError.Other(TooHighMessage))
  }

  /** Block authors and block importers agree: `check_inherent` accepts exactly
      the calls that dispatching with the inherent origin accepts. */
  lemma CheckInherentMatchesDispatch(call: Call, data: InherentData,
                                     validationData: Option<PersistedValidationData>)
    requires validationData.Some?
    ensures CheckInherent(call, data, validationData).Ok?
            <==> SetMaxRelayParent(Unsigned, call.max, validationData).Ok?
  {
  }

  /** `is_fatal_error`: every inherent error of this pallet is fatal. */
  function IsFatalError(e: InherentError): (fatal: bool)
    ensures fatal
  {
    match e
    case Other(_) => true
  }

  /** `InherentError::try_from`: only data reported under this pallet's
      identifier is decoded (SCALE decoding is the `decode` parameter). */
  function TryFrom(id: InherentIdentifier, data: Bytes, decode: Bytes -> Option<InherentError>)
    : (r: Option<InherentError>)
    ensures id != InherentId ==> r.None?
    ensures id == InherentId ==> r == decode(data)
  {
    if id == InherentId then decode(data) else None
  }

  /** `inherent_identifier` of the provider. */
  function ProviderIdentifier(p: InherentDataProvider): (id: InherentIdentifier)
    ensures id == InherentId
  {
    InherentId
  }

  /** `provide_inherent_data`: puts the provider's ceiling, SCALE-encoded, under
      the pallet's identifier (`accepted` is the bundle's verdict on the
      insertion). */
  function ProvideInherentData(p: InherentDataProvider, data: InherentData, accepted: bool)
    : (r: Result<InherentData, InherentDataError>)
    ensures r.Ok? <==> accepted
    ensures r.Ok? ==> GetU32(r.value, ProviderIdentifier(p)) == Ok(Some(p.ceiling))
    ensures r.Ok? ==> forall k :: k in data.data && k != InherentId ==>
                        k in r.value.data && r.value.data[k] == data.data[k]
  {
    U32RoundTrip(p.ceiling);
    PutData(data, InherentId, EncodeU32(p.ceiling), accepted)
  }

  /** Round trip: what the provider puts in, `create_inherent` turns back into
      `set_max_relay_parent` with the same ceiling. */
  lemma ProviderRoundTrip(p: InherentDataProvider, data: InherentData, accepted: bool)
    requires ProvideInherentData(p, data, accepted).Ok?
    ensures var d := ProvideInherentData(p, data, accepted).value;
            InherentId in d.data && |d.data[InherentId]| >= 4 &&
            CreateInherent(d) == Some(SetMaxRelayParentCall(p.ceiling))
  {
    var d := ProvideInherentData(p, data, accepted).value;
    assert GetU32(d, InherentId) == Ok(Some(p.ceiling));
  }

  /** End to end on the runtime side: the inherent created from a provider's
      ceiling passes `check_inherent` exactly when the ceiling does not exceed
      the stored relay parent number. */
  lemma ProvidedCeilingChecked(p: InherentDataProvider, data: InherentData, accepted: bool,
                               validationData: Option<PersistedValidationData>)
    requires ProvideInherentData(p, data, accepted).Ok?
    requires validationData.Some?
    ensures var d := ProvideInherentData(p, data, accepted).value;
            InherentId in d.data && |d.data[InherentId]| >= 4 &&
            CreateInherent(d).Some? &&
            (CheckInherent(CreateInherent(d).value, d, validationData).Ok? <==>
             p.ceiling <= validationData.value.relayParentNumber)
  {
    ProviderRoundTrip(p, data, accepted);
  }

  /** The stale-ceiling scenario: a provider fixed at 150, checked in a block
      whose relay parent is 101, is rejected with the fatal freshness error. */
  lemma StaleCeilingRejected(data: InherentData, accepted: bool, vd: PersistedValidationData)
    requires ProvideInherentData(InherentDataProvider(150), data, accepted).Ok?
    requires vd.relayParentNumber == 101
    ensures var d := ProvideInherentData(InherentDataProvider(150), data, accepted).value;
            InherentId in d.data && |d.data[InherentId]| >= 4 &&
            CreateInherent(d).Some? &&
            CheckInherent(CreateInherent(d).value, d, Some(vd)) == Err(InherentError.Other(TooHighMessage)) &&
            IsFatalError(InherentError.Other(TooHighMessage))
  {
    ProviderRoundTrip(InherentDataProvider(150), data, accepted);
  }
}
