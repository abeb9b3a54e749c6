/** The buffer of a socket: bytes are taken from the front and put behind the rest, in one block of memory. */
module NetBuffer {
  import opened Octets

  const CHUNK_SIZE := 8192
  const INT_LIMIT := 0x8000_0000

  /** Arrays that begin alike have the same bytes in any stretch of that beginning. */
  lemma SameStretch(a: array<Octet>, b: array<Octet>, n: nat, from: nat, count: nat)
    requires from + count <= n <= a.Length && n <= b.Length && a[..n] == b[..n]
    ensures a[from..from + count] == b[from..from + count]
  {
    forall k | from <= k < from + count ensures a[k] == b[k] {
      assert a[..n][k] == b[..n][k];
    }
  }

  class Buffer {
    var ptr: array<Octet>
    var pos: nat
    var count: nat
    var left: nat

    /** What has been taken, what is there, and what is free make up the memory. */
    ghost predicate Valid()
      reads this
    {
      pos + count + left == ptr.Length
    }

    /** The bytes that are in the buffer. */
    ghost function Contents(): (s: seq<Octet>)
      requires Valid()
      reads this, ptr
      ensures |s| == count
    {
      ptr[pos..pos + count]
    }

    constructor ()
      ensures Valid() && Contents() == [] && fresh(ptr)
    {
      ptr := new Octet[0];
      pos, count, left := 0, 0, 0;
    }

    constructor Copy(that: Buffer)
      requires that.Valid() && that.count < INT_LIMIT - CHUNK_SIZE
      ensures Valid() && Contents() == that.Contents() && fresh(ptr)
    {
      ptr := new Octet[0];
      pos, count, left := 0, 0, 0;
      new;
      Append(that.ptr[that.pos..that.pos + that.count]);
    }

    /** Moves the bytes to the start of the memory. */
    method Compact()
      requires Valid()
      modifies this`pos, this`left, ptr
      ensures Valid() && ptr == old(ptr) && count == old(count) && pos == 0 && left == old(left + pos)
      ensures Contents() == old(Contents())
    {
      ghost var was := ptr[..];
      var i := 0;
      while i < count
        modifies ptr
        invariant 0 <= i <= count && forall k :: 0 <= k < i ==> ptr[k] == was[pos + k]
        invariant forall k :: pos + i <= k < pos + count ==> ptr[k] == was[k]
      {
        ptr[i] := ptr[pos + i];
        i := i + 1;
      }
      left := left + pos;
      pos := 0;
    }

    /** Moves everything to larger memory. */
    method Grow(n: nat)
      requires Valid() && n + count + pos < INT_LIMIT - CHUNK_SIZE && pos + left < n
      modifies this`ptr, this`left
      ensures Valid() && fresh(ptr) && count == old(count) && pos == old(pos) && left >= n
      ensures Contents() == old(Contents())
    {
      var newSize := ((n + count + pos) / CHUNK_SIZE + 1) * CHUNK_SIZE;
      var newPtr := new Octet[newSize];
      var i := 0;
      while i < ptr.Length
        invariant 0 <= i <= ptr.Length <= newSize && Valid() && Contents() == old(Contents())
        invariant ptr == old(ptr) && left == old(left)
        invariant newPtr[..i] == ptr[..i]
      {
        newPtr[i] := ptr[i];
        i := i + 1;
      }
      SameStretch(newPtr, ptr, ptr.Length, pos, count);
      ptr := newPtr;
      left := newSize - count - pos;
    }

    /** Puts bytes behind the ones there, for sizes that fit an int; either way of making room leaves enough. */
    method Append(data: seq<Octet>)
      requires Valid() && |data| + count + pos < INT_LIMIT - CHUNK_SIZE
      modifies this, ptr
      ensures Valid() && Contents() == old(Contents()) + data && (ptr == old(ptr) || fresh(ptr))
      ensures pos <= old(pos) && (old(left) >= |data| ==> ptr == old(ptr) && pos == old(pos))
    {
      var n := |data|;
      if left < n {
        if pos + left >= n {
          Compact();
        } else {
          Grow(n);
        }
      }
      Put(data);
    }

    /** Writes bytes into the free memory. */
    method Put(data: seq<Octet>)
      requires Valid() && |data| <= left
      modifies this`count, this`left, ptr
      ensures Valid() && Contents() == old(Contents()) + data
    {
      var n := |data|;
      var i := 0;
      while i < n
        invariant 0 <= i <= n && Valid() && count == old(count) && left == old(left)
        invariant forall k :: pos <= k < pos + count ==> ptr[k] == old(ptr[k])
        invariant forall k :: 0 <= k < i ==> ptr[pos + count + k] == data[k]
      {
        ptr[pos + count + i] := data[i];
        i := i + 1;
      }
      count := count + n;
      left := left - n;
      assert forall k :: 0 <= k < n ==> ptr[pos + old(count) + k] == data[k];
    }

    /** Takes bytes from the front. */
    method Seek(n: nat)
      requires Valid() && n <= count
      modifies this`pos, this`count
      ensures Valid() && Contents() == old(Contents())[n..]
    {
      pos := pos + n;
      count := count - n;
    }

    method Clear()
      requires Valid()
      modifies this`pos, this`count
      ensures Valid() && Contents() == []
    {
      Seek(count);
    }

    /** Takes over the bytes of another buffer; a buffer assigned to itself is emptied instead. */
    method Assign(that: Buffer)
      requires Valid() && that.Valid() && that.count < INT_LIMIT - CHUNK_SIZE && (that != this ==> that.ptr != ptr)
      modifies this, ptr
      ensures Valid() && Contents() == if that == this then [] else old(that.Contents())
      ensures that != this ==> that.Valid() && that.Contents() == old(that.Contents())
    {
      left := left + pos + count;
      pos, count := 0, 0;
      Append(that.ptr[that.pos..that.pos + that.count]);
    }
  }
}
