// Byte rings with one slot kept free: the unread bytes are the window from the
// read index (tail) up to the write index (head), wrapping at the capacity.
// The three rings of the firmware share these facts; each keeps its own
// index arithmetic (a compare-and-reset or a power-of-two mask).
module Ring {
  import opened CInt

  /** The index after i: the compare-and-reset form. */
  function Next(i: int, n: int): (r: int)
    requires 0 <= i < n
    ensures 0 <= r < n && r == (i + 1) % n
  {
    ModStep(i, n);
    if i + 1 >= n then 0 else i + 1
  }

  /** The index after i: the mask form, (uint16_t)((i + 1) & mask). */
  function MaskedNext(i: int, mask: int): int
    requires mask >= 0
  {
    U16(And(i + 1, mask))
  }

  /** For a power-of-two capacity the mask form is the compare-and-reset form. */
  lemma MaskedNextIsNext(i: int, k: nat)
    requires 0 <= i < Pow2(k) <= TWO16
    ensures MaskedNext(i, Pow2(k) - 1) == Next(i, Pow2(k))
  {
    MaskIsMod(i + 1, k);
  }

  /** The fill level in the mask form, (head - tail) & mask, is the distance
    * modulo the capacity. */
  lemma MaskedDistance(head: int, tail: int, k: nat)
    ensures And(head - tail, Pow2(k) - 1) == (head - tail) % Pow2(k)
  {
    MaskIsMod(head - tail, k);
  }

  /** The unread bytes, oldest first. */
  function Window(buf: seq<int>, tail: int, head: int): seq<int>
    requires 0 <= tail < |buf| && 0 <= head < |buf|
  {
    if tail <= head then buf[tail..head] else buf[tail..] + buf[..head]
  }

  /** The fill level: the distance from tail to head modulo the capacity, at
    * most capacity - 1. */
  lemma WindowSize(buf: seq<int>, tail: int, head: int)
    requires 0 <= tail < |buf| && 0 <= head < |buf|
    ensures |Window(buf, tail, head)| == (if head >= tail then head - tail else |buf| - tail + head)
    ensures |Window(buf, tail, head)| == (head - tail) % |buf|
    ensures |Window(buf, tail, head)| <= |buf| - 1
    ensures |Window(buf, tail, head)| == 0 <==> head == tail
  {
    if head >= tail {
      ModUnique(head - tail, |buf|, 0, head - tail);
    } else {
      ModUnique(head - tail, |buf|, -1, |buf| - tail + head);
    }
  }

  /** The ring is full exactly when the capacity - 1 slots are in use. */
  lemma WindowFull(buf: seq<int>, tail: int, head: int)
    requires 0 <= tail < |buf| && 0 <= head < |buf|
    ensures Next(head, |buf|) == tail <==> |Window(buf, tail, head)| == |buf| - 1
  {
    WindowSize(buf, tail, head);
  }

  /** Storing at head and advancing it appends the byte, when not full. */
  lemma WindowPush(buf: seq<int>, tail: int, head: int, x: int)
    requires 0 <= tail < |buf| && 0 <= head < |buf| && Next(head, |buf|) != tail
    ensures Window(buf[head := x], tail, Next(head, |buf|)) == Window(buf, tail, head) + [x]
  {
    var b := buf[head := x];
    var n := Next(head, |buf|);
    if tail <= head {
      if n == head + 1 {
        assert b[tail..n] == buf[tail..head] + [x];
      } else {
        assert b[tail..] == buf[tail..head] + [x];
        assert b[..n] == [];
      }
    } else {
      assert b[tail..] == buf[tail..];
      assert b[..n] == buf[..head] + [x];
    }
  }

  /** Taking the byte at tail and advancing it removes the oldest byte, when not empty. */
  lemma WindowPop(buf: seq<int>, tail: int, head: int)
    requires 0 <= tail < |buf| && 0 <= head < |buf| && tail != head
    ensures |Window(buf, tail, head)| >= 1 && Window(buf, tail, head)[0] == buf[tail]
    ensures Window(buf, Next(tail, |buf|), head) == Window(buf, tail, head)[1..]
  {
    var t := Next(tail, |buf|);
    var w := Window(buf, tail, head);
    if tail < head {
      assert t == tail + 1 && w == buf[tail..head];
      assert w[1..] == buf[t..head];
    } else if t == tail + 1 {
      assert w == buf[tail..] + buf[..head];
      assert buf[tail..] == [buf[tail]] + buf[t..];
      assert Window(buf, t, head) == buf[t..] + buf[..head];
    } else {
      assert t == 0 && tail == |buf| - 1;
      assert w == [buf[tail]] + buf[..head];
      assert Window(buf, t, head) == buf[..head];
    }
  }

  /** The bytes met walking from tail to head one index at a time, as a
    * draining loop visits them. */
  function Walk(buf: seq<int>, tail: int, head: int): seq<int>
    requires 0 <= tail < |buf| && 0 <= head < |buf|
    decreases if tail <= head then head - tail else |buf| - tail + head
  {
    if tail == head then [] else [buf[tail]] + Walk(buf, Next(tail, |buf|), head)
  }

  /** The walk visits exactly the window, in order. */
  lemma {:induction false} WalkIsWindow(buf: seq<int>, tail: int, head: int)
    requires 0 <= tail < |buf| && 0 <= head < |buf|
    ensures Walk(buf, tail, head) == Window(buf, tail, head)
    decreases if tail <= head then head - tail else |buf| - tail + head
  {
    if tail != head {
      WalkIsWindow(buf, Next(tail, |buf|), head);
      WindowPop(buf, tail, head);
      var w := Window(buf, tail, head);
      assert w == [w[0]] + w[1..];
    }
  }

  // ---------------------------------------------------------------------
  // The queue the rings implement
  // ---------------------------------------------------------------------

  /** What a write of data keeps on a queue q with the given capacity: the
    * longest prefix that fits in the capacity - 1 usable slots. */
  function Accepted(q: seq<int>, data: seq<int>, cap: int): (a: seq<int>)
    requires |q| <= cap - 1
    ensures |a| == Min(|data|, cap - 1 - |q|) && a == data[..|a|]
  {
    data[..Min(|data|, cap - 1 - |q|)]
  }

  /** What a read of up to len bytes takes: the oldest bytes. */
  function Taken(q: seq<int>, len: int): (t: seq<int>)
    requires len >= 0
    ensures |t| == Min(len, |q|) && t == q[..|t|]
  {
    q[..Min(len, |q|)]
  }

  datatype Op = Put(data: seq<int>) | Get(len: nat)

  /** The queue contents after a run of writes and reads. */
  function After(q: seq<int>, ops: seq<Op>, cap: int): (r: seq<int>)
    requires |q| <= cap - 1
    ensures |r| <= cap - 1
    decreases |ops|
  {
    if ops == [] then q
    else
      var q1 := After(q, ops[..|ops| - 1], cap);
      match ops[|ops| - 1]
      case Put(data) => q1 + Accepted(q1, data, cap)
      case Get(len) => q1[|Taken(q1, len)|..]
  }

  /** Everything the writes of a run kept; everything its reads returned. */
  function AllAccepted(q: seq<int>, ops: seq<Op>, cap: int): seq<int>
    requires |q| <= cap - 1
    decreases |ops|
  {
    if ops == [] then []
    else
      var q1 := After(q, ops[..|ops| - 1], cap);
      AllAccepted(q, ops[..|ops| - 1], cap)
      + match ops[|ops| - 1] case Put(data) => Accepted(q1, data, cap) case Get(_) => []
  }

  function AllTaken(q: seq<int>, ops: seq<Op>, cap: int): seq<int>
    requires |q| <= cap - 1
    decreases |ops|
  {
    if ops == [] then []
    else
      var q1 := After(q, ops[..|ops| - 1], cap);
      AllTaken(q, ops[..|ops| - 1], cap)
      + match ops[|ops| - 1] case Put(_) => [] case Get(len) => Taken(q1, len)
  }

  /** FIFO order: the bytes read, followed by those still queued, are the bytes
    * queued at the start followed by all bytes accepted, in order. Nothing is
    * lost, duplicated or reordered. */
  lemma {:induction false} FifoConservation(q: seq<int>, ops: seq<Op>, cap: int)
    requires |q| <= cap - 1
    ensures AllTaken(q, ops, cap) + After(q, ops, cap) == q + AllAccepted(q, ops, cap)
    decreases |ops|
  {
    if ops != [] {
      var init := ops[..|ops| - 1];
      FifoConservation(q, init, cap);
      var q1 := After(q, init, cap);
      match ops[|ops| - 1]
      case Put(data) =>
        var a := Accepted(q1, data, cap);
        assert AllTaken(q, ops, cap) == AllTaken(q, init, cap);
        assert After(q, ops, cap) == q1 + a;
        assert AllAccepted(q, ops, cap) == AllAccepted(q, init, cap) + a;
        assert AllTaken(q, init, cap) + (q1 + a) == (AllTaken(q, init, cap) + q1) + a;
      case Get(len) =>
        var t := Taken(q1, len);
        assert q1 == t + q1[|t|..];
        assert AllTaken(q, ops, cap) == AllTaken(q, init, cap) + t;
        assert AllAccepted(q, ops, cap) == AllAccepted(q, init, cap);
    }
  }
}
