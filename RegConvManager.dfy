// Regular conversion manager: up to four user ADC conversions are registered
// and serviced round-robin, one per high-frequency task, besides the blocking
// on-demand conversion.
module RegConvManager {
  import opened CInt

  const RCM_MAX_CONV: int := 4

  // ---------------------------------------------------------------------
  // Round-robin order
  // ---------------------------------------------------------------------

  /** The index after a conversion is read: back to 0 after the last entry. */
  function NextIndex(index: int, count: int): (next: int)
    requires 0 <= index < count
    ensures 0 <= next < count && next == (index + 1) % count
  {
    ModStep(index, count);
    if index == count - 1 then 0 else index + 1
  }

  /** The index after k services. */
  function IndexAfter(index: int, count: int, k: nat): (i: int)
    requires 0 <= index < count
    ensures 0 <= i < count
  {
    if k == 0 then index else NextIndex(IndexAfter(index, count, k - 1), count)
  }

  /** After k services the index has advanced by k modulo the count. */
  lemma {:induction false} IndexAfterIsModular(index: int, count: int, k: nat)
    requires 0 <= index < count
    ensures IndexAfter(index, count, k) == (index + k) % count
  {
    if k > 0 {
      IndexAfterIsModular(index, count, k - 1);
      ModAddOne(index + k - 1, count);
    }
  }

  lemma ModAddOne(x: int, n: int)
    requires x >= 0 && n >= 1
    ensures (x % n + 1) % n == (x + 1) % n
  {
    var q := x / n;
    var r := x % n;
    if r + 1 < n {
      ModUnique(r + 1, n, 0, r + 1);
      ModUnique(x + 1, n, q, r + 1);
    } else {
      ModUnique(r + 1, n, 1, 0);
      assert x + 1 == (q + 1) * n + 0;
      ModUnique(x + 1, n, q + 1, 0);
    }
  }

  /** Every registered entry is serviced once in every count consecutive calls:
    * entry j comes up at call (j - index) mod count, and the cycle closes. */
  lemma EachEntryServiced(index: int, count: int, j: int)
    requires 0 <= index < count && 0 <= j < count
    ensures IndexAfter(index, count, (j - index) % count) == j
    ensures IndexAfter(index, count, count) == index
  {
    var k := (j - index) % count;
    IndexAfterIsModular(index, count, k);
    IndexAfterIsModular(index, count, count);
    ModUnique(index + count, count, 1, index);
    if j >= index {
      ModUnique(j - index, count, 0, j - index);
      ModUnique(j, count, 0, j);
    } else {
      ModUnique(j - index, count, -1, j - index + count);
      ModUnique(j + count, count, 1, j);
    }
  }

  // ---------------------------------------------------------------------
  // Conversions and the manager
  // ---------------------------------------------------------------------

  /** RegConv_t: a user conversion on one ADC channel. The ADC peripheral is
    * an identifier. */
  class RegConv {
    const regADC: int
    const samplingTime: u32
    const channel: u8
    var data: u16
    var id: u8

    constructor (adc: int, sampling: u32, ch: u8)
      ensures regADC == adc && samplingTime == sampling && channel == ch && data == 0 && id == 0
    {
      regADC := adc;
      samplingTime := sampling;
      channel := ch;
      data := 0;
      id := 0;
    }

    /** RCM_GetRegularConv: the last value stored for this conversion. */
    function GetRegularConv(): (value: u16)
      reads this
      ensures value == data
    {
      data
    }
  }

  /** A request to start one conversion: which ADC and which channel. */
  datatype Start = Start(adc: int, channel: int)

  /** The manager's static state: the handle table, the number registered and
    * the entry whose conversion is under way. */
  class Rcm {
    const handle_array: array<RegConv?>
    var conversion_nb: u8
    var array_index: u8

    ghost predicate Valid()
      reads this, handle_array
    {
      handle_array.Length == RCM_MAX_CONV && conversion_nb <= RCM_MAX_CONV
      && (array_index < conversion_nb || array_index == 0)
      && (forall i :: 0 <= i < conversion_nb ==> handle_array[i] != null)
    }

    /** The registered entries carry ids 0 .. count - 1, in table order. */
    ghost predicate IdsInOrder()
      requires Valid()
      reads this, handle_array, handle_array[..]
    {
      forall i :: 0 <= i < conversion_nb ==> handle_array[i].id == i
    }

    constructor ()
      ensures Valid() && fresh(handle_array) && conversion_nb == 0 && array_index == 0
    {
      handle_array := new RegConv?[RCM_MAX_CONV](_ => null);
      conversion_nb := 0;
      array_index := 0;
    }

    /** RCM_RegisterRegConv: takes the next free slot and numbers the
      * conversion with it; a full table refuses and changes nothing. */
    method RegisterRegConv(regConv: RegConv) returns (ok: bool)
      requires Valid()
      modifies this`conversion_nb, handle_array, regConv`id
      ensures Valid()
      ensures ok <==> old(conversion_nb) < RCM_MAX_CONV
      ensures ok ==> conversion_nb == old(conversion_nb) + 1 && regConv.id == old(conversion_nb)
                     && handle_array[..] == old(handle_array[..])[old(conversion_nb) := regConv]
      ensures !ok ==> conversion_nb == old(conversion_nb) && handle_array[..] == old(handle_array[..])
                      && regConv.id == old(regConv.id)
      ensures old(IdsInOrder()) && regConv !in old(handle_array[..conversion_nb]) ==> IdsInOrder()
    {
      if conversion_nb < RCM_MAX_CONV {
        handle_array[conversion_nb] := regConv;
        handle_array[conversion_nb].id := conversion_nb;
        conversion_nb := conversion_nb + 1;
        ok := true;
      } else {
        ok := false;
      }
    }

    /** RCM_ExecNextConv: the conversion to start, if any is registered. */
    method ExecNextConv() returns (start: Option<Start>)
      requires Valid()
      ensures conversion_nb == 0 <==> start.None?
      ensures conversion_nb > 0 ==>
                start == Some(Start(handle_array[array_index].regADC, handle_array[array_index].channel))
    {
      if conversion_nb > 0 {
        var h := handle_array[array_index];
        start := Some(Start(h.regADC, h.channel));
      } else {
        start := None;
      }
    }

    /** RCM_ExecRegularConv, given the ADC data register at end of conversion:
      * starts the conversion of the given channel and returns its reading. */
    method ExecRegularConv(regConv: RegConv, adcData: u16) returns (start: Start, result: u16)
      ensures start == Start(regConv.regADC, regConv.channel) && result == adcData
    {
      start := Start(regConv.regADC, regConv.channel);
      result := adcData;
    }

    /** RCM_ReadOngoingConv, given the end-of-conversion flag and the ADC data
      * register: stores the value only on end of conversion, then moves to the
      * next entry. */
    method ReadOngoingConv(eoc: bool, adcData: u16)
      requires Valid()
      modifies this`array_index, if conversion_nb > 0 then {handle_array[array_index]} else {}
      ensures Valid()
      ensures old(conversion_nb) == 0 ==> array_index == old(array_index)
      ensures conversion_nb > 0 ==> array_index == NextIndex(old(array_index), conversion_nb)
      ensures conversion_nb > 0 ==>
                handle_array[old(array_index)].data == (if eoc then adcData else old(handle_array[array_index].data))
                && handle_array[old(array_index)].id == old(handle_array[array_index].id)
    {
      if conversion_nb > 0 {
        if eoc {
          handle_array[array_index].data := adcData;
        }
        if array_index == conversion_nb - 1 {
          array_index := 0;
        } else {
          array_index := array_index + 1;
        }
      }
    }
  }
}
