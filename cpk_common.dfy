/**
 * What the CPK archive writer and reader share (lib/cri/cpk/_common.py):
 * the offset where file contents may begin and the table cipher, an XOR
 * with a rolling one-byte key.
 */
module CpkCommon {
  import opened Bytes

  /** The header area: contents never start before this offset. */
  const BODY_OFFSET: nat := 2048

  /** The key byte applied at position i: 0x5F, then multiplied by 0x15 modulo 256 at each step. */
  function Key(i: nat): byte {
    if i == 0 then 0x5F else Key(i - 1) * 0x15
  }

  /** The cipher, position by position. */
  function CryptSpec(data: seq<byte>): (r: seq<byte>)
    ensures |r| == |data|
    ensures forall i :: 0 <= i < |data| ==> r[i] == data[i] ^ Key(i)
  {
    seq(|data|, i requires 0 <= i < |data| => data[i] ^ Key(i))
  }

  /** `crypt`: XORs a copy of the data in place while the key rolls forward. */
  method Crypt(data: seq<byte>) returns (out: seq<byte>)
    ensures out == CryptSpec(data)
  {
    var buffer := new byte[|data|](i requires 0 <= i < |data| => data[i]);
    ghost var spec := CryptSpec(data);
    var key: byte := 0x5F;
    for i := 0 to |data|
      invariant key == Key(i)
      invariant forall k :: 0 <= k < i ==> buffer[k] == spec[k]
      invariant forall k :: i <= k < |data| ==> buffer[k] == data[k]
    {
      buffer[i] := buffer[i] ^ key;
      key := key * 0x15;
    }
    out := buffer[..];
    assert out == spec;
  }

  /** The cipher undoes itself. */
  lemma CryptInvolution(data: seq<byte>)
    ensures CryptSpec(CryptSpec(data)) == data
  {
    var once := CryptSpec(data);
    var twice := CryptSpec(once);
    forall i | 0 <= i < |data| ensures twice[i] == data[i] {
      XorTwice(data[i], Key(i));
    }
  }

  lemma XorTwice(b: byte, k: byte)
    ensures (b ^ k) ^ k == b
  {
  }

  /** Output byte i depends on input byte i and on i only. */
  lemma CryptLocal(a: seq<byte>, b: seq<byte>, i: nat)
    requires i < |a| && i < |b| && a[i] == b[i]
    ensures CryptSpec(a)[i] == CryptSpec(b)[i]
  {
  }

  /** Encrypting a longer message starts with the encryption of its prefix. */
  lemma CryptPrefix(a: seq<byte>, b: seq<byte>)
    ensures CryptSpec(a + b)[..|a|] == CryptSpec(a)
  {
  }
}
