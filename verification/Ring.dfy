/** The backlog ring of a port (internal/hub/hub.go): a window over the most
    recent console output, shifted in place. */
module Ring {
  import opened Prelude

  /** The last n elements of a history, or all of it when it is shorter. */
  function Last<T>(n: nat, h: seq<T>): (r: seq<T>)
    ensures |r| == if |h| <= n then |h| else n
    ensures exists i :: 0 <= i <= |h| && r == h[i..]
  {
    if |h| <= n then h[0..] else h[|h| - n..]
  }

  /** A window is enough: what falls out of it never comes back in. */
  lemma LastOfLast<T>(n: nat, h: seq<T>, p: seq<T>)
    ensures Last(n, Last(n, h) + p) == Last(n, h + p)
  {
    if |h| > n {
      assert h == h[..|h| - n] + Last(n, h);
      assert h + p == h[..|h| - n] + (Last(n, h) + p);
    }
  }

  lemma LastOfLong<T>(n: nat, h: seq<T>, p: seq<T>)
    requires |p| >= n
    ensures Last(n, h + p) == p[|p| - n..]
  {
  }

  lemma LastOfFull<T>(n: nat, h: seq<T>, p: seq<T>)
    requires |p| < n && |h| + |p| > n && |h| <= n
    ensures Last(n, h + p) == h[|h| + |p| - n..] + p
  {
  }

  class Buffer {
    const size: nat
    const data: array<byte>
    var len: nat

    ghost predicate Valid()
      reads this
    {
      data.Length == size && len <= size
    }

    ghost function Contents(): (s: bytes)
      requires Valid()
      reads this, data
    {
      data[..len]
    }

    constructor (size: nat)
      ensures Valid() && fresh(data) && this.size == size && Contents() == []
    {
      this.size := size;
      data := new byte[size](_ => 0);
      len := 0;
    }

    /** ring.Write: afterwards the buffer is the last `size` bytes of everything. */
    method Write(p: bytes)
      requires Valid()
      modifies this, data
      ensures Valid()
      ensures Contents() == Last(size, old(Contents()) + p)
    {
      if |p| >= size {
        LastOfLong(size, Contents(), p);
        len := 0;
        Append(p[|p| - size..]);
        return;
      }
      if len + |p| > size {
        var drop := len + |p| - size;
        LastOfFull(size, Contents(), p);
        Shift(drop);
      }
      Append(p);
    }

    /** copy(r.buf, r.buf[drop:]) and the reslice that follows it. */
    method Shift(drop: nat)
      requires Valid() && drop <= len
      modifies this, data
      ensures Valid() && len == old(len) - drop
      ensures Contents() == old(Contents())[drop..]
    {
      var n := len - drop;
      for i := 0 to n
        invariant forall k :: 0 <= k < i ==> data[k] == old(data[k + drop])
        invariant forall k :: i <= k < data.Length ==> data[k] == old(data[k])
        invariant len == old(len)
      {
        data[i] := data[i + drop];
      }
      len := n;
    }

    method Append(p: bytes)
      requires Valid() && len + |p| <= size
      modifies this, data
      ensures Valid() && len == old(len) + |p|
      ensures Contents() == old(Contents()) + p
    {
      for i := 0 to |p|
        invariant len == old(len)
        invariant forall k :: 0 <= k < len ==> data[k] == old(data[k])
        invariant forall k :: 0 <= k < i ==> data[len + k] == p[k]
      {
        data[len + i] := p[i];
      }
      len := len + |p|;
    }

    /** ring.Bytes: a copy, so later writes cannot reach it. */
    method Bytes() returns (out: bytes)
      requires Valid()
      ensures out == Contents()
    {
      out := data[..len];
    }
  }
}
