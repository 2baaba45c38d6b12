/** The send loop's rechunking: arbitrary stream reads in, full chunks out. */
module Rechunk {
  import opened Common
  import opened ChunkCodec

  const CHUNK_SIZE: nat := 65536

  /** The canonical split: full chunks from the front, a shorter last one if bytes remain. */
  function Split(s: seq<byte>): seq<seq<byte>> {
    if |s| == 0 then []
    else if |s| <= CHUNK_SIZE then [s]
    else [s[..CHUNK_SIZE]] + Split(s[CHUNK_SIZE..])
  }

  /** chunkCount: the ceiling of size / CHUNK_SIZE, zero for a size that is not positive. */
  function ChunkCount(size: int): nat {
    if size <= 0 then 0 else (size + CHUNK_SIZE - 1) / CHUNK_SIZE
  }

  /** A list of payloads in canonical form: all full but the last, the last neither empty nor oversized. */
  predicate Canonical(chunks: seq<seq<byte>>) {
    forall i :: 0 <= i < |chunks| ==> 0 < |chunks[i]| <= CHUNK_SIZE && (i + 1 < |chunks| ==> |chunks[i]| == CHUNK_SIZE)
  }

  /** The split is canonical, complete, and as long as chunkCount announces. */
  lemma {:induction false} SplitIsCanonical(s: seq<byte>)
    ensures Canonical(Split(s))
    ensures Flatten(Split(s)) == s
    ensures |Split(s)| == ChunkCount(|s|)
  {
    if |s| == 0 {
    } else if |s| <= CHUNK_SIZE {
      assert Flatten([s]) == s + Flatten([]);
    } else {
      var rest := s[CHUNK_SIZE..];
      SplitIsCanonical(rest);
      assert Split(s)[1..] == Split(rest);
      assert s == s[..CHUNK_SIZE] + rest;
      assert ChunkCount(|s|) == ChunkCount(|rest|) + 1;
      assert Split(rest) != [];
    }
  }

  /** Only one list of payloads is canonical for a given content. */
  lemma {:induction false} CanonicalIsSplit(chunks: seq<seq<byte>>)
    requires Canonical(chunks)
    ensures chunks == Split(Flatten(chunks))
  {
    if chunks == [] {
    } else if |chunks| == 1 {
      assert chunks == [chunks[0]];
      assert Flatten(chunks) == chunks[0] + Flatten(chunks[1..]);
      assert Flatten(chunks) == chunks[0];
    } else {
      var rest := chunks[1..];
      assert Canonical(rest) by {
        forall i | 0 <= i < |rest|
          ensures 0 < |rest[i]| <= CHUNK_SIZE && (i + 1 < |rest| ==> |rest[i]| == CHUNK_SIZE)
        {
          assert rest[i] == chunks[i + 1];
        }
      }
      CanonicalIsSplit(rest);
      var s := Flatten(chunks);
      assert s == chunks[0] + Flatten(rest);
      assert Flatten(rest) == rest[0] + Flatten(rest[1..]);
      assert |rest[0]| > 0;
      assert s[..CHUNK_SIZE] == chunks[0] && s[CHUNK_SIZE..] == Flatten(rest);
    }
  }

  /** Full chunks in front of a canonical list keep it canonical. */
  lemma {:induction false} SplitPrepend(full: seq<seq<byte>>, tail: seq<byte>)
    requires forall i :: 0 <= i < |full| ==> |full[i]| == CHUNK_SIZE
    ensures Split(Flatten(full) + tail) == full + Split(tail)
  {
    if full == [] {
      assert Flatten(full) + tail == tail;
    } else {
      var rest := full[1..];
      SplitPrepend(rest, tail);
      var s := Flatten(full) + tail;
      assert s == full[0] + (Flatten(rest) + tail);
      assert s[..CHUNK_SIZE] == full[0] && s[CHUNK_SIZE..] == Flatten(rest) + tail;
      if Flatten(rest) + tail == [] {
        assert Split(s) == [full[0]];
        assert rest + Split(tail) == [];
      }
      assert full + Split(tail) == [full[0]] + (rest + Split(tail));
    }
  }

  /** streamFile without its channel: the payloads handed to sendChunk, in order, for one list of stream reads. */
  method StreamPayloads(parts: seq<seq<byte>>) returns (payloads: seq<seq<byte>>)
    ensures payloads == Split(Flatten(parts))
  {
    payloads := [];
    var carry: seq<byte> := [];
    var r := 0;
    assert Flatten(payloads) + carry == Flatten(parts[..0]);
    while r < |parts|
      invariant 0 <= r <= |parts|
      invariant forall i :: 0 <= i < |payloads| ==> |payloads[i]| == CHUNK_SIZE
      invariant |carry| < CHUNK_SIZE
      invariant Flatten(payloads) + carry == Flatten(parts[..r])
    {
      var view := carry + parts[r];
      carry := [];
      assert parts[..r + 1] == parts[..r] + [parts[r]];
      FlattenAppend(parts[..r], parts[r]);
      assert Flatten(payloads) + view == Flatten(parts[..r + 1]);
      var offset := 0;
      while |view| - offset >= CHUNK_SIZE
        invariant 0 <= offset <= |view|
        invariant forall i :: 0 <= i < |payloads| ==> |payloads[i]| == CHUNK_SIZE
        invariant Flatten(payloads) + view[offset..] == Flatten(parts[..r + 1])
      {
        var chunk := view[offset..offset + CHUNK_SIZE];
        FlattenAppend(payloads, chunk);
        assert view[offset..] == chunk + view[offset + CHUNK_SIZE..];
        payloads := payloads + [chunk];
        offset := offset + CHUNK_SIZE;
      }
      if offset < |view| {
        carry := view[offset..];
      }
      assert carry == view[offset..];
      r := r + 1;
    }
    assert parts[..r] == parts;
    SplitPrepend(payloads, carry);
    if |carry| > 0 {
      payloads := payloads + [carry];
    } else {
      assert payloads + Split(carry) == payloads;
    }
  }

  /**
   * The binary frames of one whole transfer: what the peer decodes is the canonical split of the file.
   * A malformed id makes the first encodeChunk throw, so only an empty file gets past one.
   */
  method StreamFrames(transferId: string, parts: seq<seq<byte>>) returns (r: Result<seq<seq<byte>>, EncodeError>)
    ensures r.Ok? <==> ValidId(transferId) || Flatten(parts) == []
    ensures r.Ok? ==>
              && |r.value| == ChunkCount(|Flatten(parts)|) == |Split(Flatten(parts))|
              && forall i :: 0 <= i < |r.value| ==>
                   && Decode(r.value[i]) == Some(DecodedChunk(transferId, Split(Flatten(parts))[i]))
                   && |r.value[i]| <= FRAME_HEADER_BYTES + CHUNK_SIZE
  {
    var payloads := StreamPayloads(parts);
    SplitIsCanonical(Flatten(parts));
    var frames: seq<seq<byte>> := [];
    for i := 0 to |payloads|
      invariant |frames| == i
      invariant i > 0 ==> ValidId(transferId)
      invariant forall j :: 0 <= j < i ==>
                  && Decode(frames[j]) == Some(DecodedChunk(transferId, payloads[j]))
                  && |frames[j]| <= FRAME_HEADER_BYTES + CHUNK_SIZE
    {
      var frame := EncodeChunk(transferId, payloads[i]);
      if frame.Err? {
        return Err(frame.error);
      }
      DecodeEncode(transferId, payloads[i]);
      frames := frames + [frame.value];
    }
    r := Ok(frames);
  }
}
