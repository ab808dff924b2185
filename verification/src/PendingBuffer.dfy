/**
The relay queue of one direction of a session (src/net/pending_buffer.hpp). The unread bytes are a
suffix of `data`; consuming moves `offset`, appending may first drop the consumed prefix, and
prepending writes into the consumed prefix when it is long enough. Every operation is specified on
the plain byte queue `Contents()`.
*/
module PendingBuffers {

  const MAXIMUM_RETAINED_BUFFER_BYTES: nat := 4096

  class PendingBuffer {
    var data: string
    var offset: nat

    ghost predicate Valid()
      reads this
    {
      offset <= |data|
    }

    /** The unread bytes, oldest first. */
    ghost function Contents(): (s: string)
      requires Valid()
      reads this
    {
      data[offset..]
    }

    constructor ()
      ensures Valid() && Contents() == ""
    {
      data, offset := "", 0;
    }

    function Size(): (n: nat)
      requires Valid()
      reads this
      ensures n == |Contents()|
    {
      |data| - offset
    }

    predicate Empty()
      requires Valid()
      reads this
      ensures Empty() <==> Contents() == ""
    {
      offset == |data|
    }

    /** The first `n` unread bytes, as handed to a send call. */
    function Front(n: nat): (s: string)
      requires Valid() && n <= Size()
      reads this
      ensures s == Contents()[..n]
    {
      data[offset..offset + n]
    }

    method Append(bytes: string)
      requires Valid()
      modifies this
      ensures Valid()
      ensures Contents() == old(Contents()) + bytes
    {
      CompactIfNeeded();
      data := data + bytes;
    }

    method Prepend(bytes: string)
      requires Valid()
      modifies this
      ensures Valid()
      ensures Contents() == bytes + old(Contents())
    {
      if bytes == "" {
        return;
      }
      if offset >= |bytes| {
        var start := offset - |bytes|;
        data := data[..start] + bytes + data[offset..];
        offset := start;
        return;
      }
      data := bytes + data[offset..];
      offset := 0;
    }

    /** Drops the first `count` unread bytes, or all of them when there are fewer. */
    method Consume(count: nat)
      requires Valid()
      modifies this
      ensures Valid()
      ensures Contents() == if count <= |old(Contents())| then old(Contents())[count..] else ""
    {
      if count < Size() {
        offset := offset + count;
        return;
      }
      data := "";
      offset := 0;
    }

    method CompactIfNeeded()
      requires Valid()
      modifies this
      ensures Valid()
      ensures Contents() == old(Contents())
      ensures offset <= MAXIMUM_RETAINED_BUFFER_BYTES && (offset > 0 ==> offset < |data| / 2)
    {
      if offset > 0 && (offset >= |data| / 2 || offset > MAXIMUM_RETAINED_BUFFER_BYTES) {
        data := data[offset..];
        offset := 0;
      }
    }
  }
}
