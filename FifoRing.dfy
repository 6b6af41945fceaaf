// The UART-DMA firmware's byte ring: a caller-provided buffer, a write index
// advanced by block writes and a read index advanced by block reads, one slot
// kept free to tell full from empty.
module FifoRing {
  import opened CInt
  import opened Ring

  /** ringbuf_t. */
  class RingBuf {
    const buf: array<u8>
    const size: nat
    var head: nat
    var tail: nat

    ghost predicate Valid()
      reads this
    {
      buf.Length == size && size > 1 && head < size && tail < size
    }

    /** The unread bytes, oldest first. */
    function Contents(): seq<int>
      requires Valid()
      reads this, buf
    {
      Window(buf[..], tail, head)
    }

    /** ringbuf_init: adopts the buffer, empty. */
    constructor (mem: array<u8>)
      requires mem.Length > 1
      ensures Valid() && buf == mem && size == mem.Length && head == 0 && tail == 0
      ensures Contents() == []
    {
      buf := mem;
      size := mem.Length;
      head := 0;
      tail := 0;
    }

    /** ringbuf_available: the number of unread bytes. */
    function Available(): (n: nat)
      requires Valid()
      reads this, buf
      ensures n == |Contents()| && n == (head - tail) % size && n <= size - 1
    {
      WindowSize(buf[..], tail, head);
      var h := head;
      var t := tail;
      if h >= t then h - t else (size - t) + h
    }

    /** One byte of ringbuf_write: stores at head and advances it. */
    method Push(x: u8)
      requires Valid() && Next(head, size) != tail
      modifies buf, this`head
      ensures Valid() && tail == old(tail)
      ensures Contents() == old(Contents()) + [x]
    {
      WindowPush(buf[..], tail, head, x);
      buf[head] := x;
      head := Next(head, size);
    }

    /** One byte of ringbuf_read: takes the byte at tail and advances it. */
    method Pop() returns (x: u8)
      requires Valid() && tail != head
      modifies this`tail
      ensures Valid() && head == old(head)
      ensures [x] + Contents() == old(Contents())
    {
      WindowPop(buf[..], tail, head);
      x := buf[tail];
      tail := Next(tail, size);
    }

    /** ringbuf_write: copies bytes in order until the ring is full and
      * returns how many it took; unread bytes are never overwritten. */
    method Write(data: array<u8>, len: nat) returns (written: nat)
      requires Valid() && len <= data.Length && data != buf
      modifies buf, this`head
      ensures Valid() && tail == old(tail)
      ensures written == Min(len, size - 1 - old(|Contents()|))
      ensures Contents() == old(Contents()) + data[..written]
      ensures Contents() == old(Contents()) + Accepted(old(Contents()), data[..len], size)
    {
      written := 0;
      while written < len
        invariant Valid() && tail == old(tail) && written <= len
        invariant Contents() == old(Contents()) + data[..written]
        invariant written <= size - 1 - old(|Contents()|)
      {
        var next := Next(head, size);
        WindowFull(buf[..], tail, head);
        if next == tail {
          break;
        }
        Push(data[written]);
        assert data[..written + 1] == data[..written] + [data[written]];
        written := written + 1;
      }
      WindowFull(buf[..], tail, head);
    }

    /** ringbuf_read: copies the oldest bytes out until len or empty and
      * returns how many. */
    method Read(out: array<u8>, len: nat) returns (read: nat)
      requires Valid() && len <= out.Length && out != buf
      modifies out, this`tail
      ensures Valid() && head == old(head)
      ensures read == Min(len, old(|Contents()|))
      ensures out[..read] == Taken(old(Contents()), len) && out[read..] == old(out[read..])
      ensures Contents() == old(Contents())[read..]
    {
      ghost var c := Contents();
      read := 0;
      while read < len
        invariant Valid() && head == old(head) && read <= len
        invariant read <= |c|
        invariant forall k :: 0 <= k < read ==> out[k] == c[k]
        invariant forall k :: read <= k < out.Length ==> out[k] == old(out[k])
        invariant Contents() == c[read..]
      {
        WindowSize(buf[..], tail, head);
        if tail == head {
          break;
        }
        var x := Pop();
        out[read] := x;
        read := read + 1;
      }
      WindowSize(buf[..], tail, head);
      assert out[..read] == c[..read];
    }
  }
}
