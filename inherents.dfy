/** The inherent-data bundle handed to the block proposer: a map from 8-byte
    inherent identifiers to SCALE-encoded payloads, with the two accessors the
    pallets and the node use (`put_data`, `get_data::<u32>`) and the SCALE
    encoding of a `u32`. */
module Inherents {
  import opened Primitives

  /** An 8-byte inherent identifier (`InherentIdentifier`). */
  type InherentIdentifier = s: Bytes | |s| == 8 witness [0, 0, 0, 0, 0, 0, 0, 0]

  /** `InherentData`: each identifier appears at most once, which a map gives
      for free. */
  datatype InherentData = InherentData(data: map<InherentIdentifier, Bytes>)

  /** Why an inherent-data access failed. */
  datatype InherentDataError =
    | PutRejected(putId: InherentIdentifier)
    | DecodingFailed(getId: InherentIdentifier)

  /** SCALE encoding of a `u32`: four bytes, least significant first. */
  function EncodeU32(v: u32): (r: Bytes)
    ensures |r| == 4
  {
    [(v % 0x100) as u8,
     (v / 0x100 % 0x100) as u8,
     (v / 0x1_0000 % 0x100) as u8,
     (v / 0x100_0000) as u8]
  }

  /** SCALE decoding of a `u32` from the front of `b`: it needs four bytes and
      ignores any that follow. */
  function DecodeU32(b: Bytes): (r: Option<u32>)
    ensures r.Some? <==> |b| >= 4
  {
    if |b| < 4 then None
    else Some((b[0] as int + 0x100 * b[1] as int + 0x1_0000 * b[2] as int
               + 0x100_0000 * b[3] as int) as u32)
  }

  /** Decoding an encoded `u32` gives it back. */
  lemma U32RoundTrip(v: u32)
    ensures DecodeU32(EncodeU32(v)) == Some(v)
  {
    var n := v as int;
    var q1 := n / 0x100;
    var q2 := n / 0x1_0000;
    var q3 := n / 0x100_0000;
    assert n == 0x100 * q1 + n % 0x100;
    assert q1 == 0x100 * q2 + q1 % 0x100 by {
      assert n == 0x1_0000 * q2 + n % 0x1_0000;
    }
    assert q2 == 0x100 * q3 + q2 % 0x100 by {
      assert n == 0x100_0000 * q3 + n % 0x100_0000;
    }
    var e := EncodeU32(v);
    assert e[0] as int == n % 0x100 && e[1] as int == q1 % 0x100;
    assert e[2] as int == q2 % 0x100 && e[3] as int == q3;
  }

  /** `put_data(id, value)`: whether the library accepts the insertion is its
      own business (`accepted`); when it does, `id` maps to the encoded value
      and every other entry is kept. */
  function PutData(d: InherentData, id: InherentIdentifier, encoded: Bytes, accepted: bool)
    : (r: Result<InherentData, InherentDataError>)
    ensures r.Ok? <==> accepted
    ensures r.Err? ==> r.error == PutRejected(id)
    ensures r.Ok? ==> r.value.data.Keys == d.data.Keys + {id} && r.value.data[id] == encoded
    ensures r.Ok? ==> forall k :: k in d.data && k != id ==> r.value.data[k] == d.data[k]
  {
    if accepted then Ok(InherentData(d.data[id := encoded])) else Err(PutRejected(id))
  }

  /** `get_data::<u32>(id)`: absent is `Ok(None)`, present and decodable is
      `Ok(Some(v))`, present but too short is a decoding error. */
  function GetU32(d: InherentData, id: InherentIdentifier): (r: Result<Option<u32>, InherentDataError>)
    ensures r.Ok? && r.value.None? <==> id !in d.data
    ensures r.Err? <==> id in d.data && |d.data[id]| < 4
    ensures r.Err? ==> r.error == DecodingFailed(id)
  {
    if id !in d.data then Ok(None)
    else match DecodeU32(d.data[id])
      case None => Err(DecodingFailed(id))
      case Some(v) => Ok(Some(v))
  }

  /** A `u32` put under `id` is read back unchanged from the bundle. */
  lemma PutThenGetU32(d: InherentData, id: InherentIdentifier, v: u32, accepted: bool)
    requires PutData(d, id, EncodeU32(v), accepted).Ok?
    ensures GetU32(PutData(d, id, EncodeU32(v), accepted).value, id) == Ok(Some(v))
  {
    U32RoundTrip(v);
  }
}
