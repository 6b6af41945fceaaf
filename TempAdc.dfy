// The internal temperature sensor read: one polled ADC conversion and its
// conversion to tenths of a degree Celsius with the sensor's typical
// constants (V25 = 760 mV, 2.5 mV per degree, VDDA taken as 3.3 V).
module TempAdc {
  import opened CInt

  const VDDA_MV := 3300
  const ADC_FULL := 4095
  const V25_MV := 760

  /** Vsense in mV: raw * 3300 / 4095 in C's int32 arithmetic (no overflow
    * and a non-negative dividend, so C's truncation is Dafny's division). */
  function VsenseMv(raw: u16): (v: int)
    ensures 0 <= v && v * ADC_FULL <= raw * VDDA_MV < (v + 1) * ADC_FULL
  {
    DivBound(raw * VDDA_MV, ADC_FULL);
    raw * VDDA_MV / ADC_FULL
  }

  /** The value stored through out_c10: 250 + 4 * (vsense - 760), cast to
    * int16_t. */
  function TempC10(raw: u16): (t: int)
    ensures IsI16(t)
  {
    I16(250 + (VsenseMv(raw) - V25_MV) * 4)
  }

  lemma VsenseMono(a: u16, b: u16)
    requires a <= b
    ensures VsenseMv(a) <= VsenseMv(b)
  {
    var va, vb := VsenseMv(a), VsenseMv(b);
    assert va * ADC_FULL <= a * VDDA_MV <= b * VDDA_MV < (vb + 1) * ADC_FULL;
    assert (va - vb - 1) * ADC_FULL < 0;
  }

  /** For 12-bit conversions the int16_t cast changes nothing, the result is
    * in [-2790, 10410], it never decreases as raw grows, and 760 mV (raw
    * 944) is 25.0 degrees. */
  lemma TempRange(raw: u16)
    requires raw <= ADC_FULL
    ensures 0 <= VsenseMv(raw) <= VDDA_MV
    ensures TempC10(raw) == 250 + 4 * (VsenseMv(raw) - V25_MV)
    ensures -2790 <= TempC10(raw) <= 10410
    ensures TempC10(0) == -2790 && TempC10(ADC_FULL) == 10410 && TempC10(944) == 250
  {
    VsenseMono(raw, ADC_FULL as u16);
    assert VsenseMv(ADC_FULL as u16) == VDDA_MV;
    assert VsenseMv(944) == V25_MV;
  }

  lemma TempMono(a: u16, b: u16)
    requires a <= b <= ADC_FULL
    ensures TempC10(a) <= TempC10(b)
  {
    VsenseMono(a, b);
    TempRange(a);
    TempRange(b);
  }

  /** The ADC port: the bound handle (s_hadc != NULL). */
  class AdcPort {
    var bound: bool

    constructor ()
      ensures !bound
    {
      bound := false;
    }

    method Bind(present: bool)
      modifies this
      ensures bound == present
    {
      bound := present;
    }

    /** adc_read_once: fails (-1) without an output or a bound handle, or
      * when the conversion does not complete; otherwise stores the value.
      * hw is what the HAL call sequence produced: None when configuring,
      * starting or polling fails. */
    method AdcReadOnce(out: array?<u16>, hw: Option<u16>) returns (rc: int)
      requires out != null ==> out.Length >= 1
      modifies out
      ensures rc == 0 || rc == -1
      ensures rc == 0 <==> out != null && bound && hw.Some?
      ensures rc == 0 ==> out[0] == hw.value && out[1..] == old(out[1..])
      ensures rc == -1 && out != null ==> out[..] == old(out[..])
    {
      if !bound || out == null {
        return -1;
      }
      if hw.None? {
        return -1;
      }
      out[0] := hw.value;
      return 0;
    }

    /** platform_temp_read_c10 into out_c10. */
    method TempReadC10(out_c10: array?<i16>, hw: Option<u16>) returns (rc: int)
      requires out_c10 != null ==> out_c10.Length >= 1
      modifies out_c10
      ensures rc == 0 || rc == -1
      ensures rc == 0 <==> out_c10 != null && bound && hw.Some?
      ensures rc == 0 ==> out_c10[0] == TempC10(hw.value) && out_c10[1..] == old(out_c10[1..])
      ensures rc == -1 && out_c10 != null ==> out_c10[..] == old(out_c10[..])
    {
      if out_c10 == null {
        return -1;
      }
      var raw := new u16[1](_ => 0);
      var r := AdcReadOnce(raw, hw);
      if r != 0 {
        return -1;
      }
      var vsense_mv := raw[0] as int * 3300 / 4095;
      var t10 := 250 + (vsense_mv - 760) * 4;
      out_c10[0] := I16(t10) as i16;
      return 0;
    }
  }
}
