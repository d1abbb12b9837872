/** Vocabulary shared by every component: optional values, bytes, and the two
    folds the models need (flattening chunks, and summing over a map). */
module Prelude {

  datatype Option<+T> = None | Some(value: T)

  type byte = b: int | 0 <= b < 256

  type bytes = seq<byte>

  /** A 32-bit number, most significant byte first. */
  function PutU32(n: nat): (r: bytes)
    requires n < 0x1_0000_0000
    ensures |r| == 4
  {
    [n / 256 / 256 / 256, n / 256 / 256 % 256, n / 256 % 256, n % 256]
  }

  function GetU32(b: bytes): (n: nat)
    requires |b| == 4
    ensures n < 0x1_0000_0000
  {
    var b0, b1, b2, b3 := b[0] as int, b[1] as int, b[2] as int, b[3] as int;
    ((b0 * 256 + b1) * 256 + b2) * 256 + b3
  }

  lemma GetPutU32(n: nat)
    requires n < 0x1_0000_0000
    ensures GetU32(PutU32(n)) == n
  {
  }

  lemma PutGetU32(b: bytes)
    requires |b| == 4
    ensures PutU32(GetU32(b)) == b
  {
    var b0, b1, b2, b3 := b[0] as int, b[1] as int, b[2] as int, b[3] as int;
    var top := b0 * 256 + b1;
    assert GetU32(b) / 256 == top * 256 + b2 && (top * 256 + b2) / 256 == top;
  }

  /** The concatenation of a sequence of chunks. */
  function Flat<T>(chunks: seq<seq<T>>): (r: seq<T>) {
    if chunks == [] then [] else Flat(chunks[..|chunks| - 1]) + chunks[|chunks| - 1]
  }

  lemma FlatAppend<T>(chunks: seq<seq<T>>, chunk: seq<T>)
    ensures Flat(chunks + [chunk]) == Flat(chunks) + chunk
  {
    assert (chunks + [chunk])[..|chunks|] == chunks;
  }

  lemma {:induction false} FlatConcat<T>(a: seq<seq<T>>, b: seq<seq<T>>)
    ensures Flat(a + b) == Flat(a) + Flat(b)
    decreases |b|
  {
    if b == [] {
      assert a + b == a;
    } else {
      var front, last := b[..|b| - 1], b[|b| - 1];
      assert a + b == (a + front) + [last] && b == front + [last];
      FlatConcat(a, front);
      FlatAppend(a + front, last);
      FlatAppend(front, last);
    }
  }

  /** The sum of a weight over the keys of a map. */
  ghost function Total<V>(m: map<nat, V>, w: V -> int): (r: int)
    decreases |m|
  {
    if m == map[] then 0 else
      var k :| k in m; w(m[k]) + Total(m - {k}, w)
  }

  /** Any key may be taken out first. */
  lemma {:induction false} TotalSplit<V>(m: map<nat, V>, w: V -> int, k: nat)
    requires k in m
    ensures Total(m, w) == w(m[k]) + Total(m - {k}, w)
    decreases |m|
  {
    var j :| j in m && Total(m, w) == w(m[j]) + Total(m - {j}, w);
    if j != k {
      TotalSplit(m - {j}, w, k);
      TotalSplit(m - {k}, w, j);
      assert m - {j} - {k} == m - {k} - {j};
    }
  }

  /** Updating or adding one key changes the sum by that key's weight alone. */
  lemma TotalUpdate<V>(m: map<nat, V>, w: V -> int, k: nat, v: V)
    ensures Total(m[k := v], w) == Total(m, w) + w(v) - (if k in m then w(m[k]) else 0)
  {
    var n := m[k := v];
    TotalSplit(n, w, k);
    assert n - {k} == m - {k};
    if k in m {
      TotalSplit(m, w, k);
    } else {
      assert m - {k} == m;
    }
  }

  /** A sum of non-negative weights bounds each of them. */
  lemma {:induction false} TotalBounds<V>(m: map<nat, V>, w: V -> int)
    requires forall k :: k in m ==> w(m[k]) >= 0
    ensures Total(m, w) >= 0
    ensures forall k :: k in m ==> w(m[k]) <= Total(m, w)
    decreases |m|
  {
    if m != map[] {
      var j :| j in m && Total(m, w) == w(m[j]) + Total(m - {j}, w);
      TotalBounds(m - {j}, w);
      forall k | k in m ensures w(m[k]) <= Total(m, w) {
        if k != j { assert k in m - {j}; }
      }
    }
  }

  /** A sum of zeros is zero. */
  lemma {:induction false} TotalOfZeros<V>(m: map<nat, V>, w: V -> int)
    requires forall k :: k in m ==> w(m[k]) == 0
    ensures Total(m, w) == 0
    decreases |m|
  {
    if m != map[] {
      var j :| j in m && Total(m, w) == w(m[j]) + Total(m - {j}, w);
      TotalOfZeros(m - {j}, w);
    }
  }
}
