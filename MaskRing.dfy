// The utility byte ring fed from a receive interrupt: a fixed power-of-two
// buffer, masked indices, and a counter of bytes dropped on overflow.
module MaskRing {
  import opened CInt
  import opened Ring

  /** RB_SIZE and RB_MASK; the size must be a power of two. */
  const RB_LOG2: nat := 8
  const RB_SIZE: int := 0x100
  const RB_MASK: int := RB_SIZE - 1

  /** rb_next: (x + 1) & RB_MASK, which for a power-of-two size is the index
    * after x modulo the size. */
  function RbNext(x: int): (n: int)
    requires 0 <= x < RB_SIZE
    ensures n == Next(x, RB_SIZE) && n == (x + 1) % RB_SIZE
  {
    Pow2Values();
    MaskedNextIsNext(x, RB_LOG2);
    MaskedNext(x, RB_MASK)
  }

  /** ringbuf_t. */
  class RingBuf {
    var head: u16
    var tail: u16
    var drop: u32
    const buf: array<u8>

    ghost predicate Valid()
      reads this
    {
      buf.Length == RB_SIZE && head < RB_SIZE && tail < RB_SIZE
    }

    /** The unread bytes, oldest first. */
    function Contents(): seq<int>
      requires Valid()
      reads this, buf
    {
      Window(buf[..], tail, head)
    }

    constructor ()
      ensures Valid() && fresh(buf) && head == 0 && tail == 0 && drop == 0
    {
      head := 0;
      tail := 0;
      drop := 0;
      buf := new u8[RB_SIZE](_ => 0);
    }

    /** rb_init: empties the ring and clears the drop counter. */
    method Init()
      requires buf.Length == RB_SIZE
      modifies this`head, this`tail, this`drop
      ensures Valid() && Contents() == [] && head == 0 && tail == 0 && drop == 0
    {
      head := 0;
      tail := 0;
      drop := 0;
    }

    /** rb_write_isr: stores one byte and returns 1, or, when full, counts a
      * drop and returns 0 with the contents unchanged. */
    method WriteIsr(b: u8) returns (r: int)
      requires Valid()
      modifies buf, this`head, this`drop
      ensures Valid() && tail == old(tail)
      ensures r == 1 || r == 0
      ensures r == 0 <==> old(|Contents()|) == RB_SIZE - 1
      ensures r == 0 ==> Contents() == old(Contents()) && drop == U32(old(drop) + 1)
                         && buf[..] == old(buf[..]) && head == old(head)
      ensures r == 1 ==> Contents() == old(Contents()) + [b] && drop == old(drop)
    {
      WindowFull(buf[..], tail, head);
      var h := head;
      var n := RbNext(h);
      if n == tail {
        drop := U32(drop + 1);
        return 0;
      }
      WindowPush(buf[..], tail, head, b);
      buf[h] := b;
      head := n;
      return 1;
    }

    /** rb_read: takes the oldest byte and returns 1, or returns 0 on an empty
      * ring, leaving the ring and the output (given as its prior value) alone. */
    method Read(prior: u8) returns (r: int, out: u8)
      requires Valid()
      modifies this`tail
      ensures Valid() && head == old(head)
      ensures r == 0 <==> old(Contents()) == []
      ensures r == 0 ==> out == prior && tail == old(tail)
      ensures r == 1 ==> [out] + Contents() == old(Contents())
    {
      WindowSize(buf[..], tail, head);
      var t := tail;
      if t == head {
        return 0, prior;
      }
      WindowPop(buf[..], tail, head);
      out := buf[t];
      tail := RbNext(t);
      r := 1;
    }

    /** rb_drop_count. */
    function DropCount(): (n: u32)
      reads this
      ensures n == drop
    {
      drop
    }

    /** rb_available: (head - tail) & RB_MASK, the number of unread bytes. */
    function Available(): (n: int)
      requires Valid()
      reads this, buf
      ensures n == |Contents()| && 0 <= n <= RB_SIZE - 1
    {
      Pow2Values();
      MaskedDistance(head, tail, RB_LOG2);
      WindowSize(buf[..], tail, head);
      And(head - tail, RB_MASK)
    }
  }
}
