/**
 * The CRILAYLA decompressor (lib/cri/crilayla.py). The compressed stream is
 * read from its end as one little-endian integer, most significant bits
 * first; each token is either a literal byte or a back-reference copied from
 * the output produced so far, and the output is built backwards and
 * reversed at the end.
 */
module Crilayla {
  import opened Wrappers
  import opened Bytes

  datatype LaylaError =
    | BadMagic          // the stream does not start with "CRILAYLA"
    | ShortRead         // the input ends before a field it announces
    | NegativeShift     // a read of more bits than remain
    | Diverges          // a back-reference into an empty output, which never finishes
    | SizeMismatch      // the output is not exactly the announced size

  // ---- the bit reader ----

  /**
   * Reading `count` bits when `remaining` are left: the bits just below the
   * unread top of `data`, most significant first, and the new count left.
   */
  function ReadBits(data: nat, remaining: nat, count: nat): (r: Result<(nat, nat), LaylaError>)
    ensures r.Ok? <==> count <= remaining
    ensures r.Err? ==> r.error == NegativeShift
    ensures r.Ok? ==> r.value.0 < Pow2(count) && r.value.1 == remaining - count
  {
    if remaining < count then Err(NegativeShift)
    else Ok(((data / Pow2(remaining - count)) % Pow2(count), remaining - count))
  }

  /** `_BitStream`: the encoded bytes as one little-endian integer and the number of bits not yet read. */
  class BitStream {
    const data: nat
    var remaining: nat

    constructor (encoded: seq<byte>)
      ensures data == LeValue(encoded) && remaining == 8 * |encoded|
    {
      data := LeValue(encoded);
      remaining := 8 * |encoded|;
    }

    /** `read(count)`: the next `count` bits, consuming exactly `count` bits; too few left is an error. */
    method Read(count: nat) returns (r: Result<nat, LaylaError>)
      modifies this
      ensures r.Ok? <==> count <= old(remaining)
      ensures r.Ok? ==> ReadBits(data, old(remaining), count) == Ok((r.value, remaining))
      ensures r.Err? ==> r.error == NegativeShift && remaining == old(remaining)
    {
      if remaining < count {
        return Err(NegativeShift);
      }
      var bits := data / Pow2(remaining - count);
      bits := bits % Pow2(count);
      remaining := remaining - count;
      return Ok(bits);
    }
  }

  lemma ShiftMask(data: nat, p: nat, q: nat, s: nat)
    requires p > 0 && q > 0 && s > 0
    ensures (data / p) % (q * s) == ((data / (p * q)) % s) * q + (data / p) % q
  {
    DivModSplit(data, p, q);
    var y: nat := data / p;
    DivModSplit(y, q, s);
  }

  /** Reading `a` bits and then `b` bits gives the same bits as reading `a + b` at once. */
  lemma ReadBitsCompose(data: nat, remaining: nat, a: nat, b: nat)
    requires a + b <= remaining
    ensures ReadBits(data, remaining, a + b).value.0
         == ReadBits(data, remaining, a).value.0 * Pow2(b) + ReadBits(data, remaining - a, b).value.0
  {
    var low := remaining - a - b;
    Pow2Add(low, b);
    Pow2Add(b, a);
    ShiftMask(data, Pow2(low), Pow2(b), Pow2(a));
  }

  // ---- back-references ----

  /** `buffer[start:]` with Python's slice rules: a negative start counts from the end, clamped at 0. */
  function Snapshot(buffer: seq<byte>, start: int): (r: seq<byte>)
    ensures 0 <= start <= |buffer| ==> r == buffer[start..]
    ensures r == [] <==> buffer == [] || start >= |buffer|
  {
    if start >= |buffer| then []
    else if start >= 0 then buffer[start..]
    else if |buffer| + start >= 0 then buffer[|buffer| + start..]
    else buffer
  }

  /** `n` bytes cycling through `data` from its start. */
  function Cycle(data: seq<byte>, n: nat): (r: seq<byte>)
    requires data != [] || n == 0
    ensures |r| == n
    ensures forall i :: 0 <= i < n ==> r[i] == data[i % |data|]
  {
    seq(n, i requires 0 <= i < n => data[i % |data|])
  }

  /** What `_copy` appends: `length` bytes cycling through the snapshot; an empty snapshot never finishes. */
  function CopySpec(buffer: seq<byte>, start: int, length: nat): (r: Result<seq<byte>, LaylaError>)
    ensures r.Err? <==> length > 0 && Snapshot(buffer, start) == []
    ensures r.Ok? ==> |r.value| == |buffer| + length && r.value[..|buffer|] == buffer
  {
    var snap := Snapshot(buffer, start);
    if length > 0 && snap == [] then Err(Diverges)
    else Ok(buffer + Cycle(snap, length))
  }

  lemma CycleStep(data: seq<byte>, m: nat, k: nat)
    requires data != [] && k <= |data|
    ensures Cycle(data, |data| * m + k) == Cycle(data, |data| * m) + data[..k]
  {
    var n := |data| * m;
    forall i | n <= i < n + k ensures Cycle(data, n + k)[i] == (Cycle(data, n) + data[..k])[i] {
      DivModUnique(i, |data|, m, i - n);
    }
  }

  lemma AppendChunk(buffer: seq<byte>, data: seq<byte>, m: nat, k: nat)
    requires data != [] && k <= |data|
    ensures buffer + Cycle(data, |data| * m) + data[..k] == buffer + Cycle(data, |data| * m + k)
  {
    CycleStep(data, m, k);
  }

  /**
   * `_copy`: appends `length` bytes taken cyclically from the snapshot
   * `buffer[start:]`, a chunk of at most the snapshot's length at a time.
   */
  method Copy(buffer: seq<byte>, start: int, length: nat) returns (r: Result<seq<byte>, LaylaError>)
    ensures r == CopySpec(buffer, start, length)
  {
    var data := Snapshot(buffer, start);
    var dataLength := |data|;
    if dataLength == 0 && length > 0 {
      return Err(Diverges);
    }
    var out := buffer;
    var left := length;
    ghost var rounds := 0;
    while left > 0
      invariant 0 <= left <= length
      invariant out == buffer + Cycle(data, length - left)
      invariant left > 0 ==> length - left == dataLength * rounds
    {
      var chunkLength := if left < dataLength then left else dataLength;
      AppendChunk(buffer, data, rounds, chunkLength);
      out := out + data[..chunkLength];
      left := left - chunkLength;
      assert dataLength * (rounds + 1) == dataLength * rounds + dataLength;
      rounds := rounds + 1;
    }
    return Ok(out);
  }

  /** Bytes `d` apart in a cycle of length `d` are equal. */
  lemma ModBack(x: nat, d: nat)
    requires 0 < d <= x
    ensures x % d == (x - d) % d
  {
    var q := (x - d) / d;
    var e := (x - d) % d;
    assert x - d == d * q + e;
    assert d * (q + 1) == d * q + d;
    DivModUnique(x, d, q + 1, e);
  }

  /**
   * A back-reference `offset` bytes behind the end of the output repeats
   * the output: every appended byte equals the byte `offset` positions
   * earlier, so a copy may overlap the bytes it is producing.
   */
  lemma CopyRepeats(buffer: seq<byte>, offset: nat, length: nat)
    requires 0 < offset <= |buffer|
    ensures CopySpec(buffer, |buffer| - offset, length).Ok?
    ensures forall i {:trigger CopySpec(buffer, |buffer| - offset, length).value[i]} :: |buffer| <= i < |buffer| + length ==>
      CopySpec(buffer, |buffer| - offset, length).value[i] == CopySpec(buffer, |buffer| - offset, length).value[i - offset]
  {
    var snap := Snapshot(buffer, |buffer| - offset);
    assert snap == buffer[|buffer| - offset..];
    var r := buffer + Cycle(snap, length);
    assert CopySpec(buffer, |buffer| - offset, length) == Ok(r);
    forall i | |buffer| <= i < |buffer| + length ensures r[i] == r[i - offset] {
      RepeatAt(buffer, snap, length, offset, i);
    }
  }

  /** One byte of a copy equals the byte `offset` positions before it. */
  lemma RepeatAt(buffer: seq<byte>, snap: seq<byte>, length: nat, offset: nat, i: nat)
    requires 0 < offset <= |buffer| && snap == buffer[|buffer| - offset..]
    requires |buffer| <= i < |buffer| + length
    ensures (buffer + Cycle(snap, length))[i] == (buffer + Cycle(snap, length))[i - offset]
  {
    var cycle := Cycle(snap, length);
    var r := buffer + cycle;
    var x := i - |buffer|;
    assert |snap| == offset;
    assert r[i] == cycle[x];
    assert cycle[x] == snap[x % offset];
    if x < offset {
      DivModUnique(x, offset, 0, x);
      assert r[i - offset] == buffer[|buffer| - offset + x];
    } else {
      ModBack(x, offset);
      assert r[i - offset] == cycle[x - offset];
      assert cycle[x - offset] == snap[(x - offset) % offset];
    }
  }

  // ---- tokens ----

  /** The widths of the length chunks of a back-reference: 2, 3, 5, then 8 for ever. */
  function ChunkWidth(k: nat): (w: nat)
    ensures w >= 2
  {
    if k == 0 then 2 else if k == 1 then 3 else if k == 2 then 5 else 8
  }

  /**
   * The length of a back-reference, from chunk `k` on with `acc` so far:
   * chunks are added until one is not all ones.
   */
  function ReadLength(data: nat, remaining: nat, k: nat, acc: nat): (r: Result<(nat, nat), LaylaError>)
    ensures r.Ok? ==> r.value.0 >= acc && r.value.1 < remaining
    decreases remaining
  {
    match ReadBits(data, remaining, ChunkWidth(k))
    case Err(e) => Err(e)
    case Ok((chunk, rest)) =>
      if chunk != Pow2(ChunkWidth(k)) - 1 then Ok((acc + chunk, rest))
      else ReadLength(data, rest, k + 1, acc + chunk)
  }

  lemma ReadLengthUnfold(data: nat, remaining: nat, k: nat, acc: nat)
    requires ChunkWidth(k) <= remaining
    ensures var (chunk, rest) := ReadBits(data, remaining, ChunkWidth(k)).value;
      ReadLength(data, remaining, k, acc)
        == if chunk != Pow2(ChunkWidth(k)) - 1 then Ok((acc + chunk, rest))
           else ReadLength(data, rest, k + 1, acc + chunk)
  {
  }

  /** One token: a literal byte, or a back-reference with its offset and length. */
  function Step(data: nat, remaining: nat, buffer: seq<byte>): (r: Result<(nat, seq<byte>), LaylaError>)
    ensures r.Ok? ==> r.value.0 < remaining && |r.value.1| > |buffer| && r.value.1[..|buffer|] == buffer
  {
    match ReadBits(data, remaining, 1)
    case Err(e) => Err(e)
    case Ok((flag, afterFlag)) =>
      if flag == 0 then
        match ReadBits(data, afterFlag, 8)
        case Err(e) => Err(e)
        case Ok((b, afterByte)) =>
          assert Pow2(8) == 256;
          Ok((afterByte, buffer + [b as byte]))
      else
        match ReadBits(data, afterFlag, 13)
        case Err(e) => Err(e)
        case Ok((o, afterOffset)) =>
          match ReadLength(data, afterOffset, 0, 3)
          case Err(e) => Err(e)
          case Ok((length, afterLength)) =>
            match CopySpec(buffer, |buffer| - (3 + o), length)
            case Err(e) => Err(e)
            case Ok(out) => Ok((afterLength, out))
  }

  function Reverse(s: seq<byte>): (r: seq<byte>)
    ensures |r| == |s| && forall i :: 0 <= i < |s| ==> r[i] == s[|s| - 1 - i]
  {
    seq(|s|, i requires 0 <= i < |s| => s[|s| - 1 - i])
  }

  /** Tokens until the output holds `size` bytes; overshooting is a size mismatch; the output is reversed. */
  function Run(data: nat, remaining: nat, buffer: seq<byte>, size: nat): (r: Result<seq<byte>, LaylaError>)
    ensures r.Ok? ==> |r.value| == size
    decreases size - |buffer|
  {
    if |buffer| >= size then
      if |buffer| != size then Err(SizeMismatch) else Ok(Reverse(buffer))
    else
      match Step(data, remaining, buffer)
      case Err(e) => Err(e)
      case Ok((rest, out)) => Run(data, rest, out, size)
  }

  /** A token whose first nine bits are below 256 is a literal: the flag is 0 and the byte is those bits. */
  lemma LiteralToken(data: nat, remaining: nat, buffer: seq<byte>)
    requires 9 <= remaining && ReadBits(data, remaining, 9).value.0 < 256
    ensures Step(data, remaining, buffer).Ok?
    ensures Step(data, remaining, buffer).value.1 == buffer + [ReadBits(data, remaining, 9).value.0 as byte]
    ensures Step(data, remaining, buffer).value.0 == remaining - 9
  {
    var flag := ReadBits(data, remaining, 1).value.0;
    var b := ReadBits(data, remaining - 1, 8).value.0;
    assert ReadBits(data, remaining, 9).value.0 == flag * 256 + b by {
      ReadBitsCompose(data, remaining, 1, 8);
      assert Pow2(8) == 256;
    }
    assert flag == 0;
    assert Step(data, remaining, buffer) == Ok((remaining - 9, buffer + [b as byte]));
  }

  /**
   * A back-reference token appends at least three bytes, each equal to the
   * byte `3 + read(13)` positions before it, when that much output exists.
   */
  lemma BackReferenceToken(data: nat, remaining: nat, buffer: seq<byte>)
    requires 14 <= remaining && ReadBits(data, remaining, 1).value.0 == 1
    requires 3 + ReadBits(data, remaining - 1, 13).value.0 <= |buffer|
    requires ReadLength(data, remaining - 14, 0, 3).Ok?
    ensures Step(data, remaining, buffer).Ok?
    ensures var out := Step(data, remaining, buffer).value.1;
      var offset := 3 + ReadBits(data, remaining - 1, 13).value.0;
      |out| >= |buffer| + 3 && forall i :: |buffer| <= i < |out| ==> out[i] == out[i - offset]
  {
    var offset := 3 + ReadBits(data, remaining - 1, 13).value.0;
    var length := ReadLength(data, remaining - 14, 0, 3).value.0;
    CopyRepeats(buffer, offset, length);
  }

  /** The inner loop of `_decode` over `_chunk_lengths`: the length of a back-reference, starting at 3. */
  method ReadCopyLength(stream: BitStream) returns (r: Result<nat, LaylaError>)
    modifies stream
    ensures r.Ok? ==> ReadLength(stream.data, old(stream.remaining), 0, 3) == Ok((r.value, stream.remaining))
    ensures r.Err? ==> ReadLength(stream.data, old(stream.remaining), 0, 3) == Err(r.error)
  {
    ghost var start := stream.remaining;
    var length: nat := 3;
    var k: nat := 0;
    while true
      invariant ReadLength(stream.data, stream.remaining, k, length) == ReadLength(stream.data, start, 0, 3)
      decreases stream.remaining
    {
      ghost var chunkStart := stream.remaining;
      var chunk := stream.Read(ChunkWidth(k));
      if chunk.Err? {
        return Err(chunk.error);
      }
      ReadLengthUnfold(stream.data, chunkStart, k, length);
      length := length + chunk.value;
      if chunk.value != Pow2(ChunkWidth(k)) - 1 {
        return Ok(length);
      }
      k := k + 1;
    }
  }

  /** One pass of the `_decode` loop: reads one token and extends the output. */
  method DecodeToken(stream: BitStream, buffer: seq<byte>) returns (r: Result<seq<byte>, LaylaError>)
    modifies stream
    ensures r.Ok? ==> Step(stream.data, old(stream.remaining), buffer) == Ok((stream.remaining, r.value))
    ensures r.Err? ==> Step(stream.data, old(stream.remaining), buffer) == Err(r.error)
  {
    var flag := stream.Read(1);
    if flag.Err? {
      return Err(flag.error);
    }
    if flag.value == 0 {
      var b := stream.Read(8);
      if b.Err? {
        return Err(b.error);
      }
      assert Pow2(8) == 256;
      return Ok(buffer + [b.value as byte]);
    }
    var o := stream.Read(13);
    if o.Err? {
      return Err(o.error);
    }
    var offset := 3 + o.value;
    var length := ReadCopyLength(stream);
    if length.Err? {
      return Err(length.error);
    }
    r := Copy(buffer, |buffer| - offset, length.value);
  }

  /** `_decode`: runs tokens until the output is `size` bytes long, then reverses it. */
  method DecodeBody(encoded: seq<byte>, size: nat) returns (r: Result<seq<byte>, LaylaError>)
    ensures r == Run(LeValue(encoded), 8 * |encoded|, [], size)
  {
    var stream := new BitStream(encoded);
    ghost var expected := Run(LeValue(encoded), 8 * |encoded|, [], size);
    var buffer: seq<byte> := [];
    while |buffer| < size
      invariant Run(stream.data, stream.remaining, buffer, size) == expected
      decreases size - |buffer|
    {
      var next := DecodeToken(stream, buffer);
      if next.Err? {
        return Err(next.error);
      }
      buffer := next.value;
    }
    if |buffer| != size {
      return Err(SizeMismatch);
    }
    return Ok(Reverse(buffer));
  }

  // ---- the container ----

  /** The eight-byte signature that opens a compressed stream. */
  function Magic(): (r: seq<byte>)
    ensures |r| == 8
  {
    Ascii("CRILAYLA")
  }

  /** The unsigned little-endian field of `n` bytes at `pos`. */
  function Field(input: seq<byte>, pos: nat, n: nat): nat
    requires pos + n <= |input|
  {
    LeValue(input[pos..pos + n])
  }

  /**
   * `decode`: the signature, the decoded size and the encoded size (4 bytes
   * each), the encoded bytes, then 256 bytes stored verbatim; the result is
   * those 256 bytes followed by the decoded ones.
   */
  function DecodeSpec(input: seq<byte>): (r: Result<seq<byte>, LaylaError>)
    ensures 16 <= |input| && input[..8] == Magic() && r.Ok? ==>
      var size := Field(input, 8, 4);
      var encodedSize := Field(input, 12, 4);
      16 + encodedSize + 256 <= |input| &&
      |r.value| == 256 + size &&
      r.value[..256] == input[16 + encodedSize..16 + encodedSize + 256] &&
      Run(LeValue(input[16..16 + encodedSize]), 8 * encodedSize, [], size) == Ok(r.value[256..])
    ensures |input| < 16 ==> r.Err?
    ensures 16 <= |input| && input[..8] != Magic() ==> r == Err(BadMagic)
  {
    if |input| < 8 then Err(ShortRead)
    else if input[..8] != Magic() then Err(BadMagic)
    else if |input| < 16 then Err(ShortRead)
    else
      var size := Field(input, 8, 4);
      var encodedSize := Field(input, 12, 4);
      if |input| < 16 + encodedSize + 256 then Err(ShortRead)
      else
        var encoded := input[16..16 + encodedSize];
        var prefix := input[16 + encodedSize..16 + encodedSize + 256];
        match Run(LeValue(encoded), 8 * encodedSize, [], size)
        case Err(e) => Err(e)
        case Ok(data) => Ok(prefix + data)
  }

  /** `decode`, reading the header fields in order and running `_decode` on the encoded bytes. */
  method Decode(input: seq<byte>) returns (r: Result<seq<byte>, LaylaError>)
    ensures r == DecodeSpec(input)
  {
    if |input| < 8 {
      return Err(ShortRead);
    }
    if input[..8] != Magic() {
      return Err(BadMagic);
    }
    if |input| < 16 {
      return Err(ShortRead);
    }
    var size := LeValue(input[8..12]);
    var encodedSize := LeValue(input[12..16]);
    if |input| < 16 + encodedSize + 256 {
      return Err(ShortRead);
    }
    var encoded := input[16..16 + encodedSize];
    var prefix := input[16 + encodedSize..16 + encodedSize + 256];
    var data := DecodeBody(encoded, size);
    if data.Err? {
      return Err(data.error);
    }
    if |data.value| != size {
      return Err(SizeMismatch);
    }
    return Ok(prefix + data.value);
  }
}
