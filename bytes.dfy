/**
 * Byte strings and the little-endian integer codec the CRI formats use
 * (`int.from_bytes(..., "little")` and the fixed-width writers), plus the
 * file model the archive writer and reader work on: a byte string that a
 * write at a position overwrites, zero-filling any gap.
 */
module Bytes {
  import opened Wrappers

  type byte = bv8

  function Pow2(k: nat): (r: nat)
    ensures r >= 1
  {
    if k == 0 then 1 else 2 * Pow2(k - 1)
  }

  lemma Pow2Add(a: nat, b: nat)
    ensures Pow2(a + b) == Pow2(a) * Pow2(b)
  {
    if a > 0 {
      Pow2Add(a - 1, b);
    }
  }

  lemma MulDistinct(d: nat, a: nat, b: nat)
    requires d > 0 && a < b
    ensures d * a + d <= d * b
  {
    var k := b - a;
    assert d * b == d * a + d * k;
    assert d * k == d * (k - 1) + d;
    assert d * (k - 1) >= 0;
  }

  lemma MulLe(p: nat, a: nat, b: nat)
    requires a <= b
    ensures p * a <= p * b
  {
    assert p * b == p * a + p * (b - a);
  }

  /** Two distinct multiples of `d` are at least `d` apart. */
  lemma MultiplesApart(d: nat, x: nat, y: nat)
    requires d > 0 && x % d == 0 && y % d == 0 && x < y
    ensures x + d <= y
  {
    var k := x / d;
    var j := y / d;
    assert x == d * k && y == d * j;
    if j <= k {
      MulLe(d, j, k);
    } else {
      MulDistinct(d, k, j);
    }
  }

  /** Quotient and remainder are the only such pair. */
  lemma DivModUnique(y: nat, d: nat, m: nat, r: nat)
    requires d > 0 && y == d * m + r && r < d
    ensures y / d == m && y % d == r
  {
    var m2 := y / d;
    var r2 := y % d;
    assert y == d * m2 + r2;
    if m2 > m {
      MulDistinct(d, m, m2);
    } else if m2 < m {
      MulDistinct(d, m2, m);
    }
  }

  /** Quotient and remainder are the only such pair, for any dividend. */
  lemma DivModUniqueInt(y: int, d: nat, m: int, r: nat)
    requires d > 0 && y == d * m + r && r < d
    ensures y / d == m && y % d == r
  {
    var m2 := y / d;
    var r2 := y % d;
    assert y == d * m2 + r2;
    if m2 > m {
      MulAtLeast(d, m2 - m);
    } else if m2 < m {
      MulAtLeast(d, m - m2);
    }
  }

  lemma MulAtLeast(d: nat, k: int)
    requires k >= 1
    ensures d * k >= d
  {
    var j: nat := k - 1;
    assert d * k == d * j + d;
  }

  /** Dividing by p and then by q is dividing by p * q, and the remainder splits accordingly. */
  lemma DivModSplit(y: nat, p: nat, q: nat)
    requires p > 0 && q > 0
    ensures y / (p * q) == (y / p) / q
    ensures y % (p * q) == ((y / p) % q) * p + y % p
  {
    var a := y / p;
    var b := a / q;
    var c := a % q;
    var e := y % p;
    var pq := p * q;
    assert pq > 0 by {
      MulAtLeast(p, q);
    }
    SplitSum(y, p, q, a, b, c, e);
    assert c * p <= pq - p by {
      MulLe(p, c, q - 1);
      Distribute(p, q - 1, 1);
    }
    DivModUnique(y, pq, b, c * p + e);
  }

  lemma SplitSum(y: nat, p: nat, q: nat, a: nat, b: nat, c: nat, e: nat)
    requires y == p * a + e && a == q * b + c
    ensures y == (p * q) * b + (c * p + e)
  {
    Distribute(p, q * b, c);
    assert p * (q * b) == (p * q) * b;
  }

  lemma Distribute(p: nat, x: nat, z: nat)
    ensures p * (x + z) == p * x + p * z
  {
  }

  /** `int.from_bytes(bs, "little")` */
  function LeValue(bs: seq<byte>): (r: nat)
    ensures r < Pow2(8 * |bs|)
  {
    if bs == [] then 0
    else
      var rest := LeValue(bs[1..]);
      LeBound(bs[0] as nat, rest, |bs| - 1);
      bs[0] as nat + 256 * rest
  }

  /** One more byte in front multiplies the range by 256. */
  lemma LeBound(b: nat, rest: nat, w: nat)
    requires b < 256 && rest < Pow2(8 * w)
    ensures b + 256 * rest < Pow2(8 * (w + 1))
  {
    Pow2Add(8, 8 * w);
    assert Pow2(8) == 256;
    MulLe(256, rest, Pow2(8 * w) - 1);
    assert 8 * (w + 1) == 8 + 8 * w;
  }

  /** The low `width` bytes of `n`, least significant first; `LeRoundTrip` says when nothing is lost. */
  function LeBytes(n: nat, width: nat): (r: seq<byte>)
    ensures |r| == width
  {
    if width == 0 then [] else [(n % 256) as byte] + LeBytes(n / 256, width - 1)
  }

  /** Decoding an encoding gives the number back. */
  lemma {:induction false} LeRoundTrip(n: nat, width: nat)
    requires n < Pow2(8 * width)
    ensures LeValue(LeBytes(n, width)) == n
  {
    if width > 0 {
      var q := n / 256;
      var b := n % 256;
      assert q < Pow2(8 * (width - 1)) by {
        Pow2Step(width - 1);
        QuotientBound(n, Pow2(8 * (width - 1)));
      }
      LeRoundTrip(q, width - 1);
      var r := LeBytes(n, width);
      assert r[0] as nat == b by {
        ByteOfSmall(b);
      }
      assert r[1..] == LeBytes(q, width - 1);
      assert LeValue(r) == r[0] as nat + 256 * LeValue(r[1..]);
    }
  }

  lemma Pow2Step(w: nat)
    ensures Pow2(8 * (w + 1)) == 256 * Pow2(8 * w)
  {
    Pow2Add(8, 8 * w);
    assert Pow2(8) == 256;
    assert 8 * (w + 1) == 8 + 8 * w;
  }

  lemma QuotientBound(n: nat, k: nat)
    requires n < 256 * k
    ensures n / 256 < k
  {
  }

  /** Encoding a decoded byte string gives it back. */
  lemma {:induction false} LeBytesOfValue(bs: seq<byte>)
    ensures LeBytes(LeValue(bs), |bs|) == bs
  {
    if bs != [] {
      LeBytesOfValue(bs[1..]);
      var b := bs[0] as nat;
      var rest := LeValue(bs[1..]);
      var n := b + 256 * rest;
      assert LeValue(bs) == n;
      DivModOf(n, b, rest);
      ByteOfSmall(b);
      assert bs == [bs[0]] + bs[1..];
    }
  }

  lemma DivModOf(n: nat, b: nat, q: nat)
    requires b < 256 && n == b + 256 * q
    ensures n % 256 == b && n / 256 == q
  {
  }

  lemma ByteOfSmall(b: nat)
    requires b < 256
    ensures (b as byte) as nat == b
  {
    if b < 16 {
    } else if b < 128 {
    } else {
    }
  }

  function Zeros(n: nat): (r: seq<byte>)
    ensures |r| == n && forall i :: 0 <= i < n ==> r[i] == 0
  {
    if n == 0 then [] else [0] + Zeros(n - 1)
  }

  /** One byte written at `pos`: the file first grows by zeros until it reaches `pos`. */
  function Put(file: seq<byte>, pos: nat, b: byte): (r: seq<byte>)
    ensures |r| == if pos < |file| then |file| else pos + 1
    ensures r[pos] == b
    decreases if pos < |file| then 0 else pos + 1 - |file|
  {
    if pos < |file| then file[pos := b] else Put(file + [0], pos, b)
  }

  /** Every other byte stays, and the gap reads as zeros. */
  lemma {:induction false} PutBytes(file: seq<byte>, pos: nat, b: byte)
    ensures forall i :: 0 <= i < |file| && i != pos ==> Put(file, pos, b)[i] == file[i]
    ensures forall i :: |file| <= i < pos ==> Put(file, pos, b)[i] == 0
    decreases if pos < |file| then 0 else pos + 1 - |file|
  {
    if pos >= |file| {
      PutBytes(file + [0], pos, b);
    }
  }

  /**
   * Writing `data` at `pos` of a file, byte after byte. Writing nothing
   * changes nothing, even past the end; otherwise the file grows to cover
   * the data. `WriteAtBytes` says what each byte of the result is.
   */
  function WriteAt(file: seq<byte>, pos: nat, data: seq<byte>): (r: seq<byte>)
    ensures data == [] ==> r == file
    ensures data != [] ==> |r| == if pos + |data| > |file| then pos + |data| else |file|
    decreases |data|
  {
    if data == [] then file else WriteAt(Put(file, pos, data[0]), pos + 1, data[1..])
  }

  /**
   * The data can be read back where it was written; bytes before `pos` stay
   * (a gap past the end reads as zeros) and bytes after the data stay.
   */
  lemma {:induction false} WriteAtBytes(file: seq<byte>, pos: nat, data: seq<byte>)
    ensures var r := WriteAt(file, pos, data);
      && (data != [] ==> r[pos..pos + |data|] == data)
      && (forall i :: 0 <= i < |file| && i < pos ==> r[i] == file[i])
      && (forall i :: |file| <= i < pos && data != [] ==> r[i] == 0)
      && (forall i :: pos + |data| <= i < |file| ==> r[i] == file[i])
    decreases |data|
  {
    if data != [] {
      var put := Put(file, pos, data[0]);
      var r := WriteAt(put, pos + 1, data[1..]);
      PutBytes(file, pos, data[0]);
      WriteAtBytes(put, pos + 1, data[1..]);
      forall i | 0 <= i < |data| ensures r[pos + i] == data[i] {
        if i > 0 {
          assert r[pos + 1..pos + |data|][i - 1] == r[pos + i];
        }
      }
      assert r[pos..pos + |data|] == data;
    }
  }

  /** One write to a seekable file: `data` at offset `at`. */
  datatype Write = Write(at: nat, data: seq<byte>)

  /** The file that results from applying the writes in order to `file`. */
  function Replay(file: seq<byte>, log: seq<Write>): (r: seq<byte>)
    decreases |log|
  {
    if log == [] then file else Replay(WriteAt(file, log[0].at, log[0].data), log[1..])
  }

  /** The contents of a file that started empty and received the writes in order. */
  function Contents(log: seq<Write>): seq<byte> {
    Replay([], log)
  }

  /** Replaying two logs one after the other is replaying their concatenation. */
  lemma {:induction false} ReplayAppend(file: seq<byte>, s: seq<Write>, t: seq<Write>)
    ensures Replay(file, s + t) == Replay(Replay(file, s), t)
    decreases |s|
  {
    if s != [] {
      assert (s + t)[0] == s[0] && (s + t)[1..] == s[1..] + t;
      ReplayAppend(WriteAt(file, s[0].at, s[0].data), s[1..], t);
    } else {
      assert s + t == t;
    }
  }

  /** Three logs that take `file` through `f1` and `f2` to `f3` take it there together. */
  lemma ReplayChain(file: seq<byte>, a: seq<Write>, b: seq<Write>, c: seq<Write>,
                    f1: seq<byte>, f2: seq<byte>, f3: seq<byte>)
    requires Replay(file, a) == f1 && Replay(f1, b) == f2 && Replay(f2, c) == f3
    ensures Replay(file, a + b + c) == f3
  {
    ReplayThree(file, a, b, c);
  }

  lemma AppendThree<T>(w: seq<T>, a: seq<T>, b: seq<T>, c: seq<T>)
    ensures w + (a + b + c) == w + a + b + c
  {
  }

  /** Replaying three logs one after the other is replaying their concatenation. */
  lemma ReplayThree(file: seq<byte>, a: seq<Write>, b: seq<Write>, c: seq<Write>)
    ensures Replay(file, a + b + c) == Replay(Replay(Replay(file, a), b), c)
  {
    ReplayAppend(file, a + b, c);
    ReplayAppend(file, a, b);
  }

  /** The last write of a log is applied to what the others left. */
  lemma ContentsSnoc(log: seq<Write>, w: Write)
    ensures Contents(log + [w]) == WriteAt(Contents(log), w.at, w.data)
  {
    ReplayAppend([], log, [w]);
    assert [w][1..] == [];
  }

  /** Reading `n` bytes at `pos`: fails when the file ends first. */
  function ReadAt(file: seq<byte>, pos: nat, n: nat): (r: Option<seq<byte>>)
    ensures r.Some? <==> pos + n <= |file|
    ensures r.Some? ==> r.value == file[pos..pos + n] && |r.value| == n
  {
    if pos + n <= |file| then Some(file[pos..pos + n]) else None
  }

  /** What was written can be read back at the same place. */
  lemma ReadWhatWasWritten(file: seq<byte>, pos: nat, data: seq<byte>)
    requires data != []
    ensures ReadAt(WriteAt(file, pos, data), pos, |data|) == Some(data)
  {
    WriteAtBytes(file, pos, data);
  }

  /** Two writes back to back are one write of both. */
  lemma {:induction false} WriteAtConcat(file: seq<byte>, pos: nat, a: seq<byte>, b: seq<byte>)
    ensures WriteAt(WriteAt(file, pos, a), pos + |a|, b) == WriteAt(file, pos, a + b)
    decreases |a|
  {
    if a != [] {
      var put := Put(file, pos, a[0]);
      WriteAtConcat(put, pos + 1, a[1..], b);
      assert (a + b)[0] == a[0] && (a + b)[1..] == a[1..] + b;
    } else {
      assert a + b == b;
    }
  }

  /** A write elsewhere leaves a stretch of the file as it was. */
  lemma WriteAtKeeps(file: seq<byte>, pos: nat, data: seq<byte>, o: nat, n: nat)
    requires o + n <= |file| && (o + n <= pos || pos + |data| <= o)
    ensures ReadAt(WriteAt(file, pos, data), o, n) == ReadAt(file, o, n)
  {
    var r := WriteAt(file, pos, data);
    WriteAtBytes(file, pos, data);
    assert forall i :: o <= i < o + n ==> r[i] == file[i];
    assert r[o..o + n] == file[o..o + n];
  }

  /** ASCII text as bytes, for the chunk tags. */
  function Ascii(s: string): (r: seq<byte>)
    requires forall i :: 0 <= i < |s| ==> s[i] as int < 128
    ensures |r| == |s|
  {
    seq(|s|, i requires 0 <= i < |s| => (s[i] as int) as byte)
  }
}
