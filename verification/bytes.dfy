/** Octets and the two byte orders used on the wire. */
module Bytes {

  type byte = x: int | 0 <= x < 256

  type u16 = x: int | 0 <= x < 0x1_0000

  datatype Option<+T> = None | Some(value: T)

  /** Little-endian 16-bit encoding, as `att_put_u16` writes it. */
  function PutU16(x: u16): (r: seq<byte>)
    ensures |r| == 2 && GetU16(r) == x
  {
    [x % 256, x / 256]
  }

  /** Little-endian 16-bit decoding, as `att_get_u16` reads it. */
  function GetU16(s: seq<byte>): (r: u16)
    requires |s| >= 2
  {
    var lo: int, hi: int := s[0], s[1];
    lo + 256 * hi
  }

  /** Strings of octets one after the other. */
  function Joined(parts: seq<seq<byte>>): seq<byte> {
    if parts == [] then [] else parts[0] + Joined(parts[1..])
  }

  lemma {:induction false} JoinedSnoc(parts: seq<seq<byte>>, e: seq<byte>)
    ensures Joined(parts + [e]) == Joined(parts) + e
  {
    if parts == [] {
      assert [e][1..] == [];
      assert parts + [e] == [e];
    } else {
      JoinedSnoc(parts[1..], e);
      assert (parts + [e])[1..] == parts[1..] + [e];
    }
  }

  /** A big-endian number of `n` octets. */
  function BigEndian(x: nat, n: nat): (r: seq<byte>)
    ensures |r| == n
  {
    if n == 0 then [] else BigEndian(x / 256, n - 1) + [x % 256]
  }

  function FromBigEndian(s: seq<byte>): nat {
    if s == [] then 0 else FromBigEndian(s[..|s| - 1]) * 256 + s[|s| - 1]
  }

  function Pow256(n: nat): nat {
    if n == 0 then 1 else 256 * Pow256(n - 1)
  }

  lemma {:induction false} BigEndianRoundTrip(x: nat, n: nat)
    requires x < Pow256(n)
    ensures FromBigEndian(BigEndian(x, n)) == x
  {
    if n > 0 {
      BigEndianRoundTrip(x / 256, n - 1);
      var s := BigEndian(x, n);
      assert s[..n - 1] == BigEndian(x / 256, n - 1);
    }
  }
}
