/** Vocabulary shared by every layer: optional values, bytes and the
    little-endian integers of the frame header. */
module Wire {

  datatype Option<+T> = None | Some(value: T)

  type byte = b: int | 0 <= b < 256

  ghost predicate NoDup<T>(s: seq<T>) {
    forall i, j :: 0 <= i < j < |s| ==> s[i] != s[j]
  }

  function Pow256(w: nat): (p: nat)
    ensures p > 0
  {
    if w == 0 then 1 else 256 * Pow256(w - 1)
  }

  // `put_u32_le` / `put_u64_le`
  function PutLe(n: nat, w: nat): (s: seq<byte>)
    ensures |s| == w
  {
    if w == 0 then [] else [n % 256] + PutLe(n / 256, w - 1)
  }

  // `LittleEndian::read_u32` / `read_u64`
  function ReadLe(s: seq<byte>): nat {
    if s == [] then 0 else s[0] + 256 * ReadLe(s[1..])
  }

  lemma {:induction false} PutThenRead(n: nat, w: nat)
    requires n < Pow256(w)
    ensures ReadLe(PutLe(n, w)) == n
  {
    if w > 0 {
      assert PutLe(n, w)[1..] == PutLe(n / 256, w - 1);
      PutThenRead(n / 256, w - 1);
    }
  }

  // The other way round: bytes are determined by the integer they stand for.
  lemma {:induction false} ReadThenPut(s: seq<byte>)
    ensures PutLe(ReadLe(s), |s|) == s && ReadLe(s) < Pow256(|s|)
  {
    if s != [] {
      var rest := ReadLe(s[1..]);
      ReadThenPut(s[1..]);
      assert ReadLe(s) % 256 == s[0] && ReadLe(s) / 256 == rest;
      assert s == [s[0]] + s[1..];
    }
  }

  function Flatten<T>(parts: seq<seq<T>>): seq<T> {
    if parts == [] then [] else parts[0] + Flatten(parts[1..])
  }
}
