// Shared vocabulary: optional values, results, and the 84-byte header record.

module Base {
  datatype Option<+T> = None | Some(value: T)

  datatype Result<+T, +E> = Ok(value: T) | Err(error: E)

  const MAX_SAFE: int := 0x1F_FFFF_FFFF_FFFF   // Number.MAX_SAFE_INTEGER

  predicate IsSafe(n: int) { -MAX_SAFE <= n <= MAX_SAFE }

  function Min(a: int, b: int): int { if a < b then a else b }

  function Max(a: int, b: int): int { if a < b then b else a }

  // Sequences that agree up to n have the same slices below n.
  lemma SameSlice<T>(a: seq<T>, b: seq<T>, n: nat, i: nat, j: nat)
    requires i <= j <= n <= |a| && n <= |b| && a[..n] == b[..n]
    ensures a[i..j] == b[i..j]
  {
    assert a[..n][i..j] == a[i..j] && b[..n][i..j] == b[i..j];
  }

  // toLowerCase on the ASCII text addresses and hashes are written in.
  function Lower(c: char): char { if 'A' <= c <= 'Z' then ((c as int) - ('A' as int) + ('a' as int)) as char else c }

  function LowerCase(s: string): (t: string)
    ensures |t| == |s| && forall i :: 0 <= i < |s| ==> t[i] == Lower(s[i])
  {
    seq(|s|, i requires 0 <= i < |s| => Lower(s[i]))
  }

  predicate Distinct<T(==)>(s: seq<T>) { forall i, j :: 0 <= i < j < |s| ==> s[i] != s[j] }
}

module Headers {
  // Hashes in the lower-case hex form the source compares them in.
  type Digest = string

  // One header record. `serializeHeader` and `deserializeHeader` are inverse on in-range fields, so a record and
  // its header are the same value here.
  datatype Header = Header(version: nat, prev: Digest, merkle: Digest, time: nat, bits: nat, nonce: nat)

  const CHUNK: nat := 4096          // SPV_CHUNK
  const FLOOR_HEIGHT: nat := 29960  // SPV_FLOOR.height
  const FIRST_CHUNK: nat := 7       // floor(SPV_FLOOR.height / SPV_CHUNK)
  const MAX_CHUNK: nat := FIRST_CHUNK + 4096
  const SEED: nat := 46             // LWMA_WINDOW + 1

  function ChunkOf(height: int): int { height / CHUNK }
}
