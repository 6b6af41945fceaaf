// The real-time filter front end: each 12-bit ADC sample is centred and scaled
// to Q15 and handed to the FMAC filter (whose output arrives here as an
// input); once the filter has settled the sample is counted in the capture
// statistics, and every sample is logged in a 256-entry ring for the dump
// command.
module FmacRt {
  import opened CInt

  const FMAC_RT_TAPS: int := 16
  /** Samples skipped before the statistics start: the filter's delay line. */
  const FMAC_RT_SETTLE_SAMPLES: int := FMAC_RT_TAPS + 2
  const FMAC_RT_LOG_SIZE: int := 256

  /** fmac_rt_sample_t: a raw Q15 sample and the filter output for it. */
  datatype Sample = Sample(raw: int, filt: int)

  /** fmac_rt_stats_t. */
  datatype Stats = Stats(count: int, valid_count: int,
                         raw_sum: int, filt_sum: int, raw_sq_sum: int, filt_sq_sum: int,
                         raw_min: int, raw_max: int, filt_min: int, filt_max: int)

  /** The statistics right after fmac_rt_reset_stats: all zero, with the
    * extremes at the opposite ends of the Q15 range. */
  const RESET_STATS: Stats := Stats(0, 0, 0, 0, 0, 0, 32767, -32768, 32767, -32768)

  /** The ADC reading centred on 2048 and scaled by 16, as int16_t. */
  function RawQ15(adc: int): (r: int)
    ensures IsI16(r)
  {
    I16((adc - 2048) * 16)
  }

  /** A 12-bit reading never wraps: it maps to 16 * (adc - 2048), from -32768
    * for 0 up to 32752 for 4095, in steps of 16 and in order. */
  lemma RawQ15Range(adc: int, other: int)
    requires 0 <= adc <= 4095 && 0 <= other <= 4095
    ensures RawQ15(adc) == 16 * (adc - 2048) && -32768 <= RawQ15(adc) <= 32752
    ensures RawQ15(adc) % 16 == 0
    ensures adc <= other ==> RawQ15(adc) <= RawQ15(other)
    ensures adc == 2048 ==> RawQ15(adc) == 0
  {
  }

  /** What one feed does to the statistics: the total count always advances
    * (wrapping as uint32_t); the rest only once it exceeds the settle count. */
  function Counted(s: Stats, raw: int, filt: int): Stats
  {
    var c := U32(s.count + 1);
    if c > FMAC_RT_SETTLE_SAMPLES then
      Stats(c, U32(s.valid_count + 1),
            s.raw_sum + raw, s.filt_sum + filt, s.raw_sq_sum + raw * raw, s.filt_sq_sum + filt * filt,
            Min(s.raw_min, raw), Max(s.raw_max, raw), Min(s.filt_min, filt), Max(s.filt_max, filt))
    else
      s.(count := c)
  }

  /** The statistics after feeding the samples xs in order. */
  function CountedAll(s: Stats, xs: seq<Sample>): Stats
    decreases |xs|
  {
    if xs == [] then s
    else Counted(CountedAll(s, xs[..|xs| - 1]), xs[|xs| - 1].raw, xs[|xs| - 1].filt)
  }

  /** One field of every sample. */
  function Column(xs: seq<Sample>, f: Sample -> int): (c: seq<int>)
    ensures |c| == |xs| && forall i :: 0 <= i < |xs| ==> c[i] == f(xs[i])
  {
    seq(|xs|, i requires 0 <= i < |xs| => f(xs[i]))
  }

  function RawOf(x: Sample): int { x.raw }
  function FiltOf(x: Sample): int { x.filt }
  function RawSq(x: Sample): int { x.raw * x.raw }
  function FiltSq(x: Sample): int { x.filt * x.filt }

  lemma ColumnSum(xs: seq<Sample>, f: Sample -> int)
    requires xs != []
    ensures Sum(Column(xs, f)) == Sum(Column(xs[..|xs| - 1], f)) + f(xs[|xs| - 1])
  {
    assert Column(xs, f)[..|xs| - 1] == Column(xs[..|xs| - 1], f);
  }

  /** After a reset and fewer than 2^32 feeds: count is the number of feeds
    * and valid_count the number past the first 18; with no settled sample
    * yet, only count has moved. */
  lemma {:induction false} SettledCounts(xs: seq<Sample>)
    requires |xs| < TWO32
    ensures var s := CountedAll(RESET_STATS, xs);
            s.count == |xs| && s.valid_count == Max(0, |xs| - FMAC_RT_SETTLE_SAMPLES)
            && (|xs| <= FMAC_RT_SETTLE_SAMPLES ==> s == RESET_STATS.(count := |xs|))
    decreases |xs|
  {
    if xs != [] {
      SettledCounts(xs[..|xs| - 1]);
    }
  }

  /** The samples that count in the statistics: all but the first 18. */
  function Settled(xs: seq<Sample>): seq<Sample>
  {
    xs[Min(FMAC_RT_SETTLE_SAMPLES, |xs|)..]
  }

  /** The settled samples of a longer run end with its last sample. */
  lemma SettledStep(xs: seq<Sample>)
    requires |xs| > FMAC_RT_SETTLE_SAMPLES
    ensures Settled(xs) == Settled(xs[..|xs| - 1]) + [xs[|xs| - 1]]
  {
  }

  /** After a reset and fewer than 2^32 feeds, the sums are those of the
    * settled samples only. */
  lemma {:induction false} SettledSums(xs: seq<Sample>)
    requires |xs| < TWO32
    ensures var s := CountedAll(RESET_STATS, xs);
            s.raw_sum == Sum(Column(Settled(xs), RawOf)) && s.filt_sum == Sum(Column(Settled(xs), FiltOf))
            && s.raw_sq_sum == Sum(Column(Settled(xs), RawSq)) && s.filt_sq_sum == Sum(Column(Settled(xs), FiltSq))
    decreases |xs|
  {
    if xs != [] {
      var init := xs[..|xs| - 1];
      SettledSums(init);
      SettledCounts(init);
      if |xs| > FMAC_RT_SETTLE_SAMPLES {
        SettledStep(xs);
        var t := Settled(xs);
        assert t[..|t| - 1] == Settled(init);
        ColumnSum(t, RawOf);
        ColumnSum(t, FiltOf);
        ColumnSum(t, RawSq);
        ColumnSum(t, FiltSq);
      } else {
        assert Settled(xs) == [] && Settled(init) == [];
      }
    }
  }

  /** After a reset and fewer than 2^32 feeds, the extremes bound every settled
    * sample. */
  lemma {:induction false} SettledBounds(xs: seq<Sample>)
    requires |xs| < TWO32
    ensures var s := CountedAll(RESET_STATS, xs);
            forall j :: FMAC_RT_SETTLE_SAMPLES <= j < |xs| ==>
              s.raw_min <= xs[j].raw <= s.raw_max && s.filt_min <= xs[j].filt <= s.filt_max
    decreases |xs|
  {
    if xs != [] {
      var init := xs[..|xs| - 1];
      SettledBounds(init);
      SettledCounts(init);
      assert forall j :: 0 <= j < |init| ==> init[j] == xs[j];
    }
  }

  /** uint32_t index arithmetic agrees with the 256-entry ring: 2^32 is a
    * multiple of 256. */
  lemma U32ModLog(x: int)
    ensures U32(x) % FMAC_RT_LOG_SIZE == x % FMAC_RT_LOG_SIZE
  {
    var q := x / TWO32;
    var r := x % FMAC_RT_LOG_SIZE;
    assert U32(x) == x - q * TWO32;
    assert x == (x / FMAC_RT_LOG_SIZE) * FMAC_RT_LOG_SIZE + r;
    assert U32(x) == (x / FMAC_RT_LOG_SIZE - q * 0x100_0000) * FMAC_RT_LOG_SIZE + r;
    ModUnique(U32(x), FMAC_RT_LOG_SIZE, x / FMAC_RT_LOG_SIZE - q * 0x100_0000, r);
  }

  /** The log after feeding xs, starting from contents log and index idx: feed
    * number j writes slot (idx + j) mod 256, the index wrapping at 2^32. */
  function Logged(log: seq<Sample>, idx: int, xs: seq<Sample>): (r: seq<Sample>)
    requires |log| == FMAC_RT_LOG_SIZE
    ensures |r| == FMAC_RT_LOG_SIZE
    decreases |xs|
  {
    if xs == [] then log
    else Logged(log, idx, xs[..|xs| - 1])[U32(idx + |xs| - 1) % FMAC_RT_LOG_SIZE := xs[|xs| - 1]]
  }

  /** The log holds the last 256 samples fed (or all of them, if fewer): the
    * sample of feed j sits at slot (idx + j) mod 256. */
  lemma {:induction false} LogHoldsLatest(log: seq<Sample>, idx: int, xs: seq<Sample>)
    requires |log| == FMAC_RT_LOG_SIZE
    ensures forall j :: 0 <= j < |xs| && |xs| - j <= FMAC_RT_LOG_SIZE ==>
              Logged(log, idx, xs)[U32(idx + j) % FMAC_RT_LOG_SIZE] == xs[j]
    decreases |xs|
  {
    if xs != [] {
      var n := |xs| - 1;
      LogHoldsLatest(log, idx, xs[..n]);
      U32ModLog(idx + n);
      forall j | 0 <= j < n && |xs| - j <= FMAC_RT_LOG_SIZE
        ensures Logged(log, idx, xs)[U32(idx + j) % FMAC_RT_LOG_SIZE] == xs[j]
      {
        U32ModLog(idx + j);
        assert (idx + j) % FMAC_RT_LOG_SIZE != (idx + n) % FMAC_RT_LOG_SIZE by {
          DistinctSlots(idx + j, n - j);
        }
      }
    }
  }

  /** Two indices fewer than 256 apart fall in different slots. */
  lemma DistinctSlots(a: int, d: int)
    requires 0 < d < FMAC_RT_LOG_SIZE
    ensures a % FMAC_RT_LOG_SIZE != (a + d) % FMAC_RT_LOG_SIZE
  {
    var q := a / FMAC_RT_LOG_SIZE;
    var r := a % FMAC_RT_LOG_SIZE;
    if r + d < FMAC_RT_LOG_SIZE {
      ModUnique(a + d, FMAC_RT_LOG_SIZE, q, r + d);
    } else {
      ModUnique(a + d, FMAC_RT_LOG_SIZE, q + 1, r + d - FMAC_RT_LOG_SIZE);
    }
  }

  /** The capture state of fmac_rt.c: the statistics, the active flag and the
    * sample log with its running index. */
  class FmacRt {
    var stats: Stats
    var rt_active: u8
    const fmac_rt_log: array<Sample>
    var fmac_rt_log_idx: u32

    ghost predicate Valid()
      reads this
    {
      fmac_rt_log.Length == FMAC_RT_LOG_SIZE
    }

    /** The zero-initialised static state. */
    constructor ()
      ensures Valid() && fresh(fmac_rt_log)
      ensures stats == Stats(0, 0, 0, 0, 0, 0, 0, 0, 0, 0) && rt_active == 0 && fmac_rt_log_idx == 0
      ensures forall i :: 0 <= i < FMAC_RT_LOG_SIZE ==> fmac_rt_log[i] == Sample(0, 0)
    {
      stats := Stats(0, 0, 0, 0, 0, 0, 0, 0, 0, 0);
      rt_active := 0;
      fmac_rt_log := new Sample[FMAC_RT_LOG_SIZE](_ => Sample(0, 0));
      fmac_rt_log_idx := 0;
    }

    /** fmac_rt_init without the peripheral set-up: fresh statistics, log index
      * 0, inactive. */
    method Init()
      requires Valid()
      modifies this`stats, this`fmac_rt_log_idx, this`rt_active
      ensures stats == RESET_STATS && fmac_rt_log_idx == 0 && rt_active == 0
    {
      ResetStats();
      fmac_rt_log_idx := 0;
      rt_active := 0;
    }

    /** fmac_rt_feed: filt is the value the filter returns for this sample.
      * The statistics take one step of Counted; the sample goes to log slot
      * log_idx mod 256 and the index advances. */
    method Feed(adc_raw: u16, filt: i16) returns (r: i16)
      requires Valid()
      modifies this`stats, fmac_rt_log, this`fmac_rt_log_idx
      ensures Valid() && r == filt
      ensures stats == Counted(old(stats), RawQ15(adc_raw), filt)
      ensures fmac_rt_log[..] == old(fmac_rt_log[..])[old(fmac_rt_log_idx) % FMAC_RT_LOG_SIZE := Sample(RawQ15(adc_raw), filt)]
      ensures fmac_rt_log_idx == U32(old(fmac_rt_log_idx) + 1)
    {
      var raw_q15: i16 := I16((adc_raw - 2048) * 16);
      UpdateStats(raw_q15, filt);
      var idx := fmac_rt_log_idx % FMAC_RT_LOG_SIZE;
      fmac_rt_log[idx] := Sample(raw_q15, filt);
      fmac_rt_log_idx := U32(fmac_rt_log_idx + 1);
      r := filt;
    }

    /** The statistics update of fmac_rt_feed. */
    method UpdateStats(raw_q15: i16, filt: i16)
      modifies this`stats
      ensures stats == Counted(old(stats), raw_q15, filt)
    {
      stats := stats.(count := U32(stats.count + 1));
      if stats.count > FMAC_RT_SETTLE_SAMPLES {
        stats := stats.(valid_count := U32(stats.valid_count + 1));
        stats := stats.(raw_sum := stats.raw_sum + raw_q15, filt_sum := stats.filt_sum + filt);
        stats := stats.(raw_sq_sum := stats.raw_sq_sum + raw_q15 * raw_q15,
                        filt_sq_sum := stats.filt_sq_sum + filt * filt);
        if raw_q15 < stats.raw_min { stats := stats.(raw_min := raw_q15); }
        if raw_q15 > stats.raw_max { stats := stats.(raw_max := raw_q15); }
        if filt < stats.filt_min { stats := stats.(filt_min := filt); }
        if filt > stats.filt_max { stats := stats.(filt_max := filt); }
      }
    }

    /** fmac_rt_get_stats: a copy of the statistics. */
    function GetStats(): (s: Stats)
      reads this
      ensures s == stats
    {
      stats
    }

    /** fmac_rt_reset_stats: statistics to RESET_STATS and the log index to 0;
      * the logged samples stay. */
    method ResetStats()
      requires Valid()
      modifies this`stats, this`fmac_rt_log_idx
      ensures stats == RESET_STATS && fmac_rt_log_idx == 0
    {
      stats := Stats(0, 0, 0, 0, 0, 0, 0, 0, 0, 0);
      fmac_rt_log_idx := 0;
      stats := stats.(raw_min := 32767, raw_max := -32768);
      stats := stats.(filt_min := 32767, filt_max := -32768);
    }

    /** fmac_rt_set_active: any non-zero argument is stored as 1. */
    method SetActive(active: u8)
      modifies this`rt_active
      ensures rt_active == (if active != 0 then 1 else 0)
      ensures rt_active == 1 <==> active != 0
    {
      rt_active := if active != 0 then 1 else 0;
    }

    /** fmac_rt_is_active. */
    function IsActive(): (a: u8)
      reads this
      ensures a == rt_active
    {
      rt_active
    }
  }
}
