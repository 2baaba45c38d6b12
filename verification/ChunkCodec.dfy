/** The binary frame of the transfer protocol: magic, transfer id, payload. */
module ChunkCodec {
  import opened Common

  const FRAME_MAGIC: string := "NSC1"
  const FRAME_MAGIC_BYTES: nat := 4
  const TRANSFER_ID_LENGTH: nat := 36
  const FRAME_HEADER_BYTES: nat := 40

  datatype DecodedChunk = DecodedChunk(transferId: string, payload: seq<byte>)

  /** The two RangeErrors of encodeChunk. */
  datatype EncodeError = WrongLength(length: nat) | NotAscii(at: nat)

  predicate Ascii(c: char) { c as int <= 0x7f }

  /** Ids for which encodeChunk does not throw. */
  predicate ValidId(id: string) {
    |id| == TRANSFER_ID_LENGTH && forall i :: 0 <= i < |id| ==> Ascii(id[i])
  }

  /** The bytes of a text whose characters are all below 256. */
  function Codes(s: string): (r: seq<byte>)
    requires forall i :: 0 <= i < |s| ==> s[i] as int < 256
    ensures |r| == |s|
    ensures forall i :: 0 <= i < |s| ==> r[i] == s[i] as int
  {
    seq(|s|, i requires 0 <= i < |s| => s[i] as int)
  }

  /** Each byte as the character of that code, as String.fromCharCode reads it. */
  function Chars(b: seq<byte>): (r: string)
    ensures |r| == |b|
    ensures forall i :: 0 <= i < |b| ==> r[i] as int == b[i]
  {
    seq(|b|, i requires 0 <= i < |b| => b[i] as char)
  }

  /** The frame that carries `payload` for transfer `id`. */
  function Encode(id: string, payload: seq<byte>): seq<byte>
    requires ValidId(id)
  {
    Codes(FRAME_MAGIC) + Codes(id) + payload
  }

  /** What a received binary frame means; None when it is not one of ours. */
  function Decode(data: seq<byte>): Option<DecodedChunk> {
    if |data| < FRAME_HEADER_BYTES || data[..FRAME_MAGIC_BYTES] != Codes(FRAME_MAGIC) then None
    else Some(DecodedChunk(Chars(data[FRAME_MAGIC_BYTES..FRAME_HEADER_BYTES]), data[FRAME_HEADER_BYTES..]))
  }

  /** Decoding inverts encoding, for every id that encodes and every payload. */
  lemma DecodeEncode(id: string, payload: seq<byte>)
    requires ValidId(id)
    ensures Decode(Encode(id, payload)) == Some(DecodedChunk(id, payload))
    ensures |Encode(id, payload)| == FRAME_HEADER_BYTES + |payload|
  {
    var frame := Encode(id, payload);
    var head := Codes(FRAME_MAGIC) + Codes(id);
    assert frame == head + payload;
    assert head[..FRAME_MAGIC_BYTES] == Codes(FRAME_MAGIC);
    assert frame[..FRAME_MAGIC_BYTES] == Codes(FRAME_MAGIC);
    assert frame[FRAME_MAGIC_BYTES..FRAME_HEADER_BYTES] == Codes(id);
    assert Chars(Codes(id)) == id;
  }

  /** Encoding inverts decoding exactly on the frames whose id is ASCII; on every other decodable frame it throws. */
  lemma EncodeDecode(data: seq<byte>)
    requires Decode(data).Some?
    ensures var d := Decode(data).value;
            && |d.transferId| == TRANSFER_ID_LENGTH
            && (ValidId(d.transferId) <==> forall i :: FRAME_MAGIC_BYTES <= i < FRAME_HEADER_BYTES ==> data[i] <= 0x7f)
            && (ValidId(d.transferId) ==> Encode(d.transferId, d.payload) == data)
  {
    var d := Decode(data).value;
    var head := data[FRAME_MAGIC_BYTES..FRAME_HEADER_BYTES];
    assert forall i :: FRAME_MAGIC_BYTES <= i < FRAME_HEADER_BYTES ==> data[i] == head[i - FRAME_MAGIC_BYTES];
    forall i | FRAME_MAGIC_BYTES <= i < FRAME_HEADER_BYTES
      ensures d.transferId[i - FRAME_MAGIC_BYTES] as int == data[i]
    {
    }
    assert forall j :: 0 <= j < TRANSFER_ID_LENGTH ==> d.transferId[j] as int == data[j + FRAME_MAGIC_BYTES];
    if ValidId(d.transferId) {
      assert Codes(d.transferId) == head;
      assert data == data[..FRAME_MAGIC_BYTES] + head + data[FRAME_HEADER_BYTES..];
    }
  }

  /** encodeChunk: fills a fresh frame byte by byte, throwing on a malformed id. */
  method EncodeChunk(transferId: string, payload: seq<byte>) returns (r: Result<seq<byte>, EncodeError>)
    ensures r.Ok? <==> ValidId(transferId)
    ensures r.Ok? ==> r.value == Encode(transferId, payload)
    ensures r.Err? && r.error.WrongLength? ==> |transferId| == r.error.length != TRANSFER_ID_LENGTH
    ensures r.Err? && r.error.NotAscii? ==>
              && |transferId| == TRANSFER_ID_LENGTH
              && r.error.at < |transferId| && !Ascii(transferId[r.error.at])
              && forall j :: 0 <= j < r.error.at ==> Ascii(transferId[j])
  {
    if |transferId| != TRANSFER_ID_LENGTH {
      return Err(WrongLength(|transferId|));
    }
    var frame := new byte[FRAME_HEADER_BYTES + |payload|](_ => 0);
    for i := 0 to FRAME_MAGIC_BYTES
      invariant forall j :: 0 <= j < i ==> frame[j] == FRAME_MAGIC[j] as int
    {
      frame[i] := FRAME_MAGIC[i] as int;
    }
    assert frame[..FRAME_MAGIC_BYTES] == Codes(FRAME_MAGIC);
    for i := 0 to TRANSFER_ID_LENGTH
      invariant frame[..FRAME_MAGIC_BYTES] == Codes(FRAME_MAGIC)
      invariant forall j :: 0 <= j < i ==> Ascii(transferId[j]) && frame[FRAME_MAGIC_BYTES + j] == transferId[j] as int
    {
      if transferId[i] as int > 0x7f {
        return Err(NotAscii(i));
      }
      frame[FRAME_MAGIC_BYTES + i] := transferId[i] as int;
    }
    assert frame[FRAME_MAGIC_BYTES..FRAME_HEADER_BYTES] == Codes(transferId);
    forall i | 0 <= i < |payload| {
      frame[FRAME_HEADER_BYTES + i] := payload[i];
    }
    assert frame[..FRAME_MAGIC_BYTES] == Codes(FRAME_MAGIC);
    assert frame[FRAME_MAGIC_BYTES..FRAME_HEADER_BYTES] == Codes(transferId);
    assert frame[FRAME_HEADER_BYTES..] == payload;
    assert frame[..] == frame[..FRAME_MAGIC_BYTES] + frame[FRAME_MAGIC_BYTES..FRAME_HEADER_BYTES]
        + frame[FRAME_HEADER_BYTES..];
    r := Ok(frame[..]);
  }

  /** decodeChunk: compares the magic and reads the id byte by byte. */
  method DecodeChunk(data: seq<byte>) returns (r: Option<DecodedChunk>)
    ensures r == Decode(data)
  {
    if |data| < FRAME_HEADER_BYTES { return None; }
    for i := 0 to FRAME_MAGIC_BYTES
      invariant forall j :: 0 <= j < i ==> data[j] == FRAME_MAGIC[j] as int
    {
      if data[i] != FRAME_MAGIC[i] as int {
        assert data[..FRAME_MAGIC_BYTES][i] != Codes(FRAME_MAGIC)[i];
        return None;
      }
    }
    assert data[..FRAME_MAGIC_BYTES] == Codes(FRAME_MAGIC);
    var transferId := "";
    for i := 0 to TRANSFER_ID_LENGTH
      invariant transferId == Chars(data[FRAME_MAGIC_BYTES..FRAME_MAGIC_BYTES + i])
    {
      transferId := transferId + [data[FRAME_MAGIC_BYTES + i] as char];
      assert data[FRAME_MAGIC_BYTES..FRAME_MAGIC_BYTES + i + 1] == data[FRAME_MAGIC_BYTES..FRAME_MAGIC_BYTES + i]
          + [data[FRAME_MAGIC_BYTES + i]];
    }
    r := Some(DecodedChunk(transferId, data[FRAME_HEADER_BYTES..]));
  }
}
