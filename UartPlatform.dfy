// The platform UART driver: reception through a circular DMA buffer that a
// poll drains into a receive ring, transmission through a ring drained in
// chunks of up to 64 bytes by the transmit-complete interrupt.
module UartPlatform {
  import opened CInt
  import opened Ring

  const UART_RX_DMA_SZ: int := 256
  const UART_RX_RB_SZ: int := 1024
  const UART_TX_RB_SZ: int := 1024
  const UART_TX_CHUNK: int := 64

  /** rb_t: a ring over caller memory whose capacity is a power of two. */
  class UartRing {
    const buf: array<u8>
    const cap: u16
    const mask: u16
    ghost const log2: nat
    var head: u16
    var tail: u16

    ghost predicate Valid()
      reads this
    {
      buf.Length == cap && 2 <= cap && cap == Pow2(log2) && Pow2(log2) <= TWO16
      && mask == cap - 1 && head < cap && tail < cap
    }

    /** The unread bytes, oldest first. */
    function Contents(): seq<int>
      requires Valid()
      reads this, buf
    {
      Window(buf[..], tail, head)
    }

    /** rb_init: adopts the memory, sets the mask and starts empty. */
    constructor (mem: array<u8>, capacity: u16, ghost k: nat)
      requires mem.Length == capacity && 2 <= capacity && capacity == Pow2(k)
      ensures Valid() && buf == mem && cap == capacity && mask == capacity - 1 && log2 == k
      ensures Contents() == []
    {
      buf := mem;
      cap := capacity;
      mask := U16(capacity - 1);
      log2 := k;
      head := 0;
      tail := 0;
    }

    /** rb_init again on the ring's own memory: empty. */
    method Reset()
      requires Valid()
      modifies this`head, this`tail
      ensures Valid() && Contents() == []
    {
      head := 0;
      tail := 0;
    }

    /** rb_write_byte: 1 and the byte appended, or 0 when full (one slot is
      * kept free). */
    method WriteByte(b: u8) returns (r: int)
      requires Valid()
      modifies buf, this`head
      ensures Valid() && tail == old(tail)
      ensures r == 0 <==> old(|Contents()|) == cap - 1
      ensures r == 0 ==> Contents() == old(Contents()) && head == old(head)
      ensures r == 1 ==> Contents() == old(Contents()) + [b]
      ensures r == 0 || r == 1
    {
      WindowFull(buf[..], tail, head);
      var h := head;
      MaskedNextIsNext(h, log2);
      var n := MaskedNext(h, mask);
      if n == tail {
        return 0;
      }
      WindowPush(buf[..], tail, head, b);
      buf[h] := b;
      head := n;
      return 1;
    }

    /** rb_read_byte: 1 and the oldest byte, or 0 when empty with the output
      * (given as its prior value) untouched. */
    method ReadByte(prior: u8) returns (r: int, out: u8)
      requires Valid()
      modifies this`tail
      ensures Valid() && head == old(head)
      ensures r == 0 <==> old(Contents()) == []
      ensures r == 0 ==> out == prior && tail == old(tail)
      ensures r == 1 ==> [out] + Contents() == old(Contents())
      ensures r == 0 || r == 1
    {
      WindowSize(buf[..], tail, head);
      var t := tail;
      if t == head {
        return 0, prior;
      }
      WindowPop(buf[..], tail, head);
      out := buf[t];
      MaskedNextIsNext(t, log2);
      tail := MaskedNext(t, mask);
      r := 1;
    }

    /** One byte of platform_uart_rx_poll: the byte is queued, or the drop
      * count goes up by one (wrapping) when the ring is full. */
    method Offer(b: u8, drop0: u32) returns (kept: bool, drop: u32)
      requires Valid()
      modifies buf, this`head
      ensures Valid() && tail == old(tail)
      ensures kept <==> old(|Contents()|) < cap - 1
      ensures Contents() == Offered(old(Contents()), b, cap)
      ensures drop == if kept then drop0 else if drop0 == TWO32 - 1 then 0 else drop0 + 1
    {
      var ok := WriteByte(b);
      kept := ok == 1;
      drop := if kept then drop0 else U32(drop0 + 1);
    }

    /** The loop of platform_uart_rx_poll: offers every byte of the circular
      * source window from last up to pos, in order; each one the ring refuses
      * adds one (wrapping) to the drop count. */
    method Absorb(src: array<u8>, last: u16, pos: u16, drop0: u32) returns (drop: u32)
      requires Valid() && src != buf && last < src.Length && pos < src.Length
      modifies buf, this`head
      ensures Valid() && tail == old(tail)
      ensures Contents() == Fed(old(Contents()), Walk(src[..], last, pos), cap)
      ensures drop == U32(drop0 + Refused(old(Contents()), Walk(src[..], last, pos), cap))
    {
      ghost var moved := Walk(src[..], last, pos);
      ghost var q0 := Contents();
      var at := last;
      drop := drop0;
      ghost var total: int := drop0;
      ghost var laps := 0;
      while pos != at
        invariant Valid() && tail == old(tail) && 0 <= at < src.Length
        invariant Fed(Contents(), Walk(src[..], at, pos), cap) == Fed(q0, moved, cap)
        invariant total == drop + laps * TWO32
        invariant total + Refused(Contents(), Walk(src[..], at, pos), cap) == drop0 + Refused(q0, moved, cap)
        decreases if at <= pos then pos - at else src.Length - at + pos
      {
        var b := src[at];
        at := Next(at, src.Length);
        var kept;
        kept, drop := Offer(b, drop);
        if !kept {
          total := total + 1;
          if drop == 0 {
            laps := laps + 1;
          }
        }
      }
      ModUnique(total, TWO32, laps, drop);
    }

    /** The loop of tx_kick: moves up to max of the oldest bytes into out. */
    method ReadInto(out: array<u8>, max: nat) returns (n: nat)
      requires Valid() && out != buf && max <= out.Length
      modifies this`tail, out
      ensures Valid() && head == old(head)
      ensures n == Min(max, old(|Contents()|))
      ensures out[..n] == Taken(old(Contents()), max)
      ensures Contents() == old(Contents())[n..]
    {
      ghost var c := Contents();
      n := 0;
      while n < max
        invariant Valid() && head == old(head) && n <= max && n <= |c|
        invariant forall j :: 0 <= j < n ==> out[j] == c[j]
        invariant Contents() == c[n..]
      {
        var ok, b := ReadByte(0);
        if ok == 0 {
          break;
        }
        out[n] := b;
        n := n + 1;
      }
      assert out[..n] == c[..n];
    }
  }

  /** The queue after offering one byte to a ring of the given capacity: it
    * is appended while a slot is free. */
  function Offered(q: seq<int>, b: int, cap: int): seq<int>
  {
    if |q| < cap - 1 then q + [b] else q
  }

  /** The queue after offering the bytes of d one at a time. */
  function Fed(q: seq<int>, d: seq<int>, cap: int): seq<int>
    decreases |d|
  {
    if d == [] then q else Fed(Offered(q, d[0], cap), d[1..], cap)
  }

  /** How many of those offers the ring refused. */
  function Refused(q: seq<int>, d: seq<int>, cap: int): nat
    decreases |d|
  {
    if d == [] then 0
    else (if |q| < cap - 1 then 0 else 1) + Refused(Offered(q, d[0], cap), d[1..], cap)
  }

  /** Offering bytes one at a time keeps exactly the prefix that fits and
    * refuses the rest. */
  lemma {:induction false} FedIsAccepted(q: seq<int>, d: seq<int>, cap: int)
    requires |q| <= cap - 1
    ensures Fed(q, d, cap) == q + Accepted(q, d, cap)
    ensures Refused(q, d, cap) == |d| - |Accepted(q, d, cap)|
    decreases |d|
  {
    if d != [] {
      var q1 := Offered(q, d[0], cap);
      FedIsAccepted(q1, d[1..], cap);
      if |q| < cap - 1 {
        assert Accepted(q, d, cap) == [d[0]] + Accepted(q1, d[1..], cap);
      }
    }
  }

  /** The DMA write position for a transfer counter that counts down from the
    * buffer size: UART_RX_DMA_SZ - counter, as uint16_t. */
  function DmaPosition(counter: int): (pos: int)
    requires 1 <= counter <= UART_RX_DMA_SZ
    ensures 0 <= pos < UART_RX_DMA_SZ
  {
    U16(UART_RX_DMA_SZ - counter)
  }

  /** The driver's static state. */
  class PlatformUart {
    const s_rx_dma: array<u8>
    var s_rx_last: u16
    var s_rx_rb: UartRing
    var s_rx_drop: u32
    var s_tx_rb: UartRing
    const s_tx_chunk: array<u8>
    var s_tx_busy: bool
    var s_tx_drop: u32

    ghost predicate Valid()
      reads this, s_rx_rb, s_tx_rb
    {
      s_rx_dma.Length == UART_RX_DMA_SZ && s_rx_last < UART_RX_DMA_SZ
      && s_tx_chunk.Length == UART_TX_CHUNK
      && s_rx_rb.Valid() && s_tx_rb.Valid() && s_rx_rb != s_tx_rb
      && s_rx_rb.buf != s_tx_rb.buf
      && s_rx_rb.buf != s_rx_dma && s_rx_rb.buf != s_tx_chunk
      && s_tx_rb.buf != s_tx_chunk && s_tx_rb.buf != s_rx_dma
    }

    /** The rings as platform_uart_init leaves them, over the two distinct
      * static buffers. */
    constructor (rxMem: array<u8>, txMem: array<u8>)
      requires rxMem.Length == UART_RX_RB_SZ && txMem.Length == UART_TX_RB_SZ && rxMem != txMem
      ensures Valid() && fresh(s_rx_dma) && fresh(s_tx_chunk) && fresh(s_rx_rb) && fresh(s_tx_rb)
      ensures s_rx_rb.Contents() == [] && s_tx_rb.Contents() == [] && !s_tx_busy
      ensures s_rx_drop == 0 && s_tx_drop == 0 && s_rx_last == 0
    {
      Pow2Values();
      s_rx_dma := new u8[UART_RX_DMA_SZ](_ => 0);
      s_rx_last := 0;
      s_rx_rb := new UartRing(rxMem, UART_RX_RB_SZ, 10);
      s_rx_drop := 0;
      s_tx_rb := new UartRing(txMem, UART_TX_RB_SZ, 10);
      s_tx_chunk := new u8[UART_TX_CHUNK](_ => 0);
      s_tx_busy := false;
      s_tx_drop := 0;
    }

    /** platform_uart_init, given whether HAL_UART_Receive_DMA starts and the
      * DMA transfer counter afterwards: both rings start empty; on success the
      * poll position is the current DMA position and the result 0, otherwise
      * -1 with the position left alone. The drop counters are kept. */
    method Init(dmaOk: bool, dmaCounter: int) returns (r: int)
      requires Valid() && 1 <= dmaCounter <= UART_RX_DMA_SZ
      modifies this`s_rx_last, s_rx_rb, s_tx_rb
      ensures Valid() && s_rx_rb.Contents() == [] && s_tx_rb.Contents() == []
      ensures r == (if dmaOk then 0 else -1)
      ensures s_rx_last == if dmaOk then DmaPosition(dmaCounter) else old(s_rx_last)
    {
      s_rx_rb.Reset();
      s_tx_rb.Reset();
      if !dmaOk {
        return -1;
      }
      s_rx_last := U16(UART_RX_DMA_SZ - dmaCounter);
      return 0;
    }

    /** platform_uart_rx_poll, given the DMA transfer counter: moves every byte
      * the DMA has written since the last poll, in order, into the receive ring;
      * the bytes that do not fit are counted as dropped. */
    method RxPoll(dmaCounter: int)
      requires Valid() && 1 <= dmaCounter <= UART_RX_DMA_SZ
      modifies this`s_rx_last, this`s_rx_drop, s_rx_rb, s_rx_rb.buf
      ensures Valid() && s_rx_rb.tail == old(s_rx_rb.tail)
      ensures s_tx_rb.Contents() == old(s_tx_rb.Contents())
      ensures s_rx_last == DmaPosition(dmaCounter)
      ensures var moved := Window(s_rx_dma[..], old(s_rx_last), DmaPosition(dmaCounter));
              var kept := Accepted(old(s_rx_rb.Contents()), moved, s_rx_rb.cap);
              s_rx_rb.Contents() == old(s_rx_rb.Contents()) + kept
              && s_rx_drop == U32(old(s_rx_drop) + (|moved| - |kept|))
    {
      var pos := U16(UART_RX_DMA_SZ - dmaCounter);
      s_rx_drop := s_rx_rb.Absorb(s_rx_dma, s_rx_last, pos, s_rx_drop);
      FedIsAccepted(old(s_rx_rb.Contents()), Walk(s_rx_dma[..], old(s_rx_last), pos), s_rx_rb.cap);
      WalkIsWindow(s_rx_dma[..], old(s_rx_last), pos);
      s_rx_last := pos;
    }

    /** platform_uart_read_byte: the oldest received byte, if any. */
    method ReadByte(prior: u8) returns (r: int, out: u8)
      requires Valid()
      modifies s_rx_rb`tail
      ensures Valid()
      ensures r == 0 <==> old(s_rx_rb.Contents()) == []
      ensures r == 0 ==> out == prior && s_rx_rb.Contents() == old(s_rx_rb.Contents())
      ensures r == 1 ==> [out] + s_rx_rb.Contents() == old(s_rx_rb.Contents())
    {
      r, out := s_rx_rb.ReadByte(prior);
    }

    /** platform_uart_rx_drop_count. */
    function RxDropCount(): (n: u32)
      reads this
      ensures n == s_rx_drop
    {
      s_rx_drop
    }

    /** platform_uart_tx_drop_count. */
    function TxDropCount(): (n: u32)
      reads this
      ensures n == s_tx_drop
    {
      s_tx_drop
    }

    /** tx_kick, given whether HAL_UART_Transmit_IT accepts the chunk: unless a
      * transfer is under way, moves up to 64 of the oldest queued bytes into the
      * chunk and starts sending them. Returns the chunk length. */
    method TxKick(halOk: bool) returns (n: int)
      requires Valid()
      modifies this`s_tx_busy, s_tx_rb`tail, s_tx_chunk
      ensures Valid() && s_rx_rb.Contents() == old(s_rx_rb.Contents())
      ensures old(s_tx_busy) ==> n == 0 && s_tx_busy && s_tx_rb.Contents() == old(s_tx_rb.Contents())
      ensures !old(s_tx_busy) ==>
                n == Min(UART_TX_CHUNK, old(|s_tx_rb.Contents()|))
                && s_tx_chunk[..n] == Taken(old(s_tx_rb.Contents()), UART_TX_CHUNK)
                && s_tx_rb.Contents() == old(s_tx_rb.Contents())[n..]
                && s_tx_busy == (n > 0 && halOk)
    {
      n := 0;
      if s_tx_busy {
        return;
      }
      n := s_tx_rb.ReadInto(s_tx_chunk, UART_TX_CHUNK);
      if n == 0 {
        return;
      }
      s_tx_busy := true;
      if !halOk {
        s_tx_busy := false;
      }
    }

    /** The queueing half of platform_uart_write: appends bytes until the ring
      * is full; a full ring counts one drop and stops. */
    method TxQueue(data: array<u8>, len: nat) returns (w: int)
      requires Valid() && len <= data.Length && data != s_tx_rb.buf
      modifies this`s_tx_drop, s_tx_rb`head, s_tx_rb.buf
      ensures Valid() && s_tx_rb.tail == old(s_tx_rb.tail)
      ensures s_rx_rb.Contents() == old(s_rx_rb.Contents())
      ensures var kept := Accepted(old(s_tx_rb.Contents()), data[..len], s_tx_rb.cap);
              w == |kept| && s_tx_rb.Contents() == old(s_tx_rb.Contents()) + kept
      ensures s_tx_drop == if w < len then U32(old(s_tx_drop) + 1) else old(s_tx_drop)
    {
      ghost var q0 := s_tx_rb.Contents();
      w := 0;
      var i := 0;
      while i < len
        invariant Valid() && s_tx_rb.tail == old(s_tx_rb.tail) && i <= len && w == i
        invariant |q0| + i <= s_tx_rb.cap - 1
        invariant s_tx_rb.Contents() == q0 + data[..i]
        invariant s_tx_drop == old(s_tx_drop)
        invariant s_rx_rb.Contents() == old(s_rx_rb.Contents())
      {
        var ok := s_tx_rb.WriteByte(data[i]);
        if ok == 0 {
          s_tx_drop := U32(s_tx_drop + 1);
          break;
        }
        assert data[..i + 1] == data[..i] + [data[i]];
        w := w + 1;
        i := i + 1;
      }
      assert data[..len][..w] == data[..w];
    }

    /** platform_uart_write: queues what fits, then starts sending. Returns the
      * number of bytes queued, 0 for an empty write. */
    method Write(data: array<u8>, len: nat, halOk: bool) returns (w: int)
      requires Valid() && len <= data.Length && data != s_tx_rb.buf && data != s_tx_chunk
      modifies this`s_tx_drop, this`s_tx_busy, s_tx_rb, s_tx_rb.buf, s_tx_chunk
      ensures Valid() && s_rx_rb.Contents() == old(s_rx_rb.Contents())
      ensures len == 0 ==> w == 0 && s_tx_rb.Contents() == old(s_tx_rb.Contents()) && s_tx_drop == old(s_tx_drop)
                           && s_tx_busy == old(s_tx_busy) && s_tx_chunk[..] == old(s_tx_chunk[..])
      ensures len > 0 ==> w == |Accepted(old(s_tx_rb.Contents()), data[..len], s_tx_rb.cap)|
      ensures len > 0 ==> s_tx_drop == if w < len then U32(old(s_tx_drop) + 1) else old(s_tx_drop)
      ensures len > 0 ==>
                var queued := old(s_tx_rb.Contents()) + Accepted(old(s_tx_rb.Contents()), data[..len], s_tx_rb.cap);
                var n := if old(s_tx_busy) then 0 else Min(UART_TX_CHUNK, |queued|);
                s_tx_rb.Contents() == queued[n..] && s_tx_chunk[..n] == queued[..n]
                && s_tx_busy == (old(s_tx_busy) || (n > 0 && halOk))
    {
      if len == 0 {
        return 0;
      }
      w := TxQueue(data, len);
      var _ := TxKick(halOk);
    }

    /** HAL_UART_TxCpltCallback for this UART: the transfer is done; send the
      * next chunk. */
    method TxComplete(halOk: bool)
      requires Valid()
      modifies this`s_tx_busy, s_tx_rb`tail, s_tx_chunk
      ensures Valid() && s_rx_rb.Contents() == old(s_rx_rb.Contents())
      ensures var n := Min(UART_TX_CHUNK, old(|s_tx_rb.Contents()|));
              s_tx_chunk[..n] == Taken(old(s_tx_rb.Contents()), UART_TX_CHUNK)
              && s_tx_rb.Contents() == old(s_tx_rb.Contents())[n..]
              && s_tx_busy == (n > 0 && halOk)
    {
      s_tx_busy := false;
      var _ := TxKick(halOk);
    }
  }
}
