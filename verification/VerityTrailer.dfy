/** The self-describing verity blob: data, hash tree, padding, 8-byte trailer. */
module VerityTrailer {
  import opened Wrappers
  import opened Bytes

  function Pow256(k: nat): (p: nat)
    ensures p > 0
  {
    if k == 0 then 1 else 256 * Pow256(k - 1)
  }

  /** `u64::from_le_bytes` on any number of bytes. */
  function FromLittleEndian(bytes: seq<byte>): (v: nat)
    ensures v < Pow256(|bytes|)
  {
    if bytes == [] then 0 else bytes[0] as nat + 256 * FromLittleEndian(bytes[1..])
  }

  function ToLittleEndian(v: nat, k: nat): (bytes: seq<byte>)
    ensures |bytes| == k
  {
    if k == 0 then [] else [(v % 256) as byte] + ToLittleEndian(v / 256, k - 1)
  }

  lemma {:induction false} LittleEndianRoundTrip(v: nat, k: nat)
    requires v < Pow256(k)
    ensures FromLittleEndian(ToLittleEndian(v, k)) == v
  {
    if k > 0 {
      LittleEndianRoundTrip(v / 256, k - 1);
    }
  }

  datatype TrailerError = TooSmall(total: nat) | InvalidTrailer(hashSize: nat, total: nat)

  /** Offset and size of the hash area, as the trailer of the blob claims. */
  function Trailer(blob: seq<byte>): Result<(nat, nat), TrailerError> {
    if |blob| < 8 then Failure(TooSmall(|blob|))
    else
      var size := FromLittleEndian(blob[|blob| - 8..]);
      if size > |blob| - 8 then Failure(InvalidTrailer(size, |blob|))
      else Success((|blob| - 8 - size, size))
  }

  /** An open file: fixed content and a read position. */
  class BlobFile {
    const data: seq<byte>
    var pos: nat

    constructor (data: seq<byte>)
      ensures this.data == data && pos == 0
    {
      this.data := data;
      pos := 0;
    }

    method SeekFromEnd(back: nat) returns (at: nat)
      requires back <= |data|
      modifies this
      ensures pos == at == |data| - back
    {
      pos := |data| - back;
      at := pos;
    }

    method ReadExact(buf: array<byte>) returns (ok: bool)
      modifies this, buf
      ensures ok <==> old(pos) + buf.Length <= |data|
      ensures ok ==> buf[..] == data[old(pos)..old(pos) + buf.Length] && pos == old(pos) + buf.Length
    {
      ok := pos + buf.Length <= |data|;
      if ok {
        for i := 0 to buf.Length
          modifies buf
          invariant buf[..i] == data[pos..pos + i]
        {
          buf[i] := data[pos + i];
        }
        pos := pos + buf.Length;
      }
    }
  }

  /** Seek to the end for the size, then read the last eight bytes. */
  method ReadVerityTrailer(f: BlobFile) returns (r: Result<(nat, nat), TrailerError>)
    modifies f
    ensures r == Trailer(f.data)
  {
    var total := f.SeekFromEnd(0);
    if total < 8 {
      return Failure(TooSmall(total));
    }
    var _ := f.SeekFromEnd(8);
    var buf := new byte[8];
    var ok := f.ReadExact(buf);
    assert ok && buf[..] == f.data[total - 8..];
    var hashSize := FromLittleEndian(buf[..]);
    if total - 8 < hashSize {
      return Failure(InvalidTrailer(hashSize, total));
    }
    r := Success((total - 8 - hashSize, hashSize));
  }

  /** The build layout; the recorded size covers the hash tree and its padding. */
  function Layout(data: seq<byte>, hash: seq<byte>, pad: seq<byte>): seq<byte> {
    data + hash + pad + ToLittleEndian(|hash| + |pad|, 8)
  }

  /** Reading back a laid-out blob finds the end of the data, for any padding. */
  lemma TrailerOfLayout(data: seq<byte>, hash: seq<byte>, pad: seq<byte>)
    requires |hash| + |pad| < Pow256(8)
    ensures Trailer(Layout(data, hash, pad)) == Success((|data|, |hash| + |pad|))
  {
    var blob := Layout(data, hash, pad);
    assert blob[|blob| - 8..] == ToLittleEndian(|hash| + |pad|, 8);
    LittleEndianRoundTrip(|hash| + |pad|, 8);
  }

  /** The reader succeeds exactly when the claimed hash area fits in front of
      the trailer, and then the three areas fill the blob. */
  lemma TrailerExact(blob: seq<byte>)
    ensures Trailer(blob).Success?
       <==> |blob| >= 8 && FromLittleEndian(blob[|blob| - 8..]) + 8 <= |blob|
    ensures Trailer(blob).Success? ==>
      var (offset, size) := Trailer(blob).value;
      && offset + size + 8 == |blob|
      && Layout(blob[..offset], blob[offset..offset + size], []) == blob
  {
    hide FromLittleEndian, ToLittleEndian, Pow256;
    if Trailer(blob).Success? {
      var (offset, size) := Trailer(blob).value;
      var tail := blob[|blob| - 8..];
      EncodeDecode(tail);
      assert |blob[offset..offset + size]| == size;
      Reassemble(blob, offset, tail);
    }
  }

  lemma Reassemble(blob: seq<byte>, offset: nat, tail: seq<byte>)
    requires offset + |tail| <= |blob| && tail == blob[|blob| - |tail|..]
    ensures blob[..offset] + blob[offset..|blob| - |tail|] + [] + tail == blob
  {
  }

  lemma {:induction false} EncodeDecode(bytes: seq<byte>)
    ensures ToLittleEndian(FromLittleEndian(bytes), |bytes|) == bytes
  {
    if bytes != [] {
      EncodeDecode(bytes[1..]);
      var v := FromLittleEndian(bytes);
      assert v % 256 == bytes[0] as nat && v / 256 == FromLittleEndian(bytes[1..]);
    }
  }
}
