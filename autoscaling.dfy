/**
 * The instance-count autoscaler: per-resource load factors over sample
 * windows, a historical trend, a weighted scaling decision, a bounding step
 * and a cooldown veto in front of all of them.
 *
 * Windows are sequences (oldest sample first), floating point is exact
 * `real` arithmetic, instance counts are unbounded `nat`s and time is a count
 * of seconds, with the current time passed in as `now`.
 */
module AutoScaling {

  // ---------------------------------------------------------------------
  // Windows: sums, means and the peak fold
  // ---------------------------------------------------------------------

  /** The sum of a window of readings (`iter().sum::<f64>()`). */
  function Sum(s: seq<real>): real
  {
    if s == [] then 0.0 else s[0] + Sum(s[1..])
  }

  /** The sum of a window of client counts (`iter().sum::<u32>()`). */
  function SumCounts(s: seq<nat>): nat
  {
    if s == [] then 0 else s[0] + SumCounts(s[1..])
  }

  /** A window of client counts read as reals (`as f64`). */
  function AsReals(s: seq<nat>): (r: seq<real>)
    ensures |r| == |s|
    ensures forall i :: 0 <= i < |s| ==> r[i] == s[i] as real
  {
    seq(|s|, i requires 0 <= i < |s| => s[i] as real)
  }

  /** The mean of a non-empty window. */
  function Mean(s: seq<real>): real
    requires |s| > 0
  {
    Sum(s) / |s| as real
  }

  function Max(a: real, b: real): real
  {
    if a >= b then a else b
  }

  function MaxNat(a: nat, b: nat): nat
  {
    if a >= b then a else b
  }

  function MinNat(a: nat, b: nat): nat
  {
    if a <= b then a else b
  }

  /** `fold(acc, |a, &b| a.max(b))`: the largest of `acc` and the window. */
  function FoldMax(acc: real, s: seq<real>): (r: real)
    ensures acc <= r
    ensures forall i :: 0 <= i < |s| ==> s[i] <= r
    ensures r == acc || r in s
    decreases |s|
  {
    if s == [] then acc
    else
      var r := FoldMax(Max(acc, s[0]), s[1..]);
      assert r in s[1..] ==> r in s;
      r
  }

  /** The peak of a window: the fold starts from 0, so it is never negative. */
  function Peak(s: seq<real>): (r: real)
    ensures 0.0 <= r
    ensures forall i :: 0 <= i < |s| ==> s[i] <= r
    ensures r == 0.0 || r in s
  {
    FoldMax(0.0, s)
  }

  /** Every reading of `s` lies in [lo, hi]. */
  predicate Within(s: seq<real>, lo: real, hi: real)
  {
    forall i :: 0 <= i < |s| ==> lo <= s[i] <= hi
  }

  /** Every reading of `s` is strictly above `lo`. */
  predicate Above(s: seq<real>, lo: real)
  {
    forall i :: 0 <= i < |s| ==> lo < s[i]
  }

  lemma {:induction false} SumWithin(s: seq<real>, lo: real, hi: real)
    requires Within(s, lo, hi)
    ensures |s| as real * lo <= Sum(s) <= |s| as real * hi
  {
    if s != [] {
      SumWithin(s[1..], lo, hi);
    }
  }

  lemma {:induction false} SumAbove(s: seq<real>, lo: real)
    requires |s| > 0 && Above(s, lo)
    ensures |s| as real * lo < Sum(s)
  {
    if |s| > 1 {
      SumAbove(s[1..], lo);
    }
  }

  /** The mean of a window whose readings lie in [lo, hi] lies in [lo, hi]. */
  lemma MeanWithin(s: seq<real>, lo: real, hi: real)
    requires |s| > 0 && Within(s, lo, hi)
    ensures lo <= Mean(s) <= hi
  {
    SumWithin(s, lo, hi);
    var n := |s| as real;
    assert Sum(s) / n >= lo by { assert Sum(s) >= n * lo; }
    assert Sum(s) / n <= hi by { assert Sum(s) <= n * hi; }
  }

  /** The sum of readings all at most `hi` is at most n·hi. */
  lemma {:induction false} SumAtMost(s: seq<real>, hi: real)
    requires forall i :: 0 <= i < |s| ==> s[i] <= hi
    ensures Sum(s) <= |s| as real * hi
  {
    if s != [] {
      SumAtMost(s[1..], hi);
    }
  }

  /** The average of a window never exceeds its peak. */
  lemma MeanAtMostPeak(s: seq<real>)
    requires |s| > 0
    ensures Mean(s) <= Peak(s)
  {
    SumAtMost(s, Peak(s));
    var n := |s| as real;
    assert Sum(s) / n <= Peak(s) by { assert Sum(s) <= n * Peak(s); }
  }

  /** Dividing by a positive number keeps the order. */
  lemma DivideMonotone(a: real, b: real, t: real)
    requires t > 0.0 && a <= b
    ensures a / t <= b / t
  {
    assert a / t * t == a && b / t * t == b;
  }

  /** The mean of a window whose readings are all above `lo` is above `lo`. */
  lemma MeanAbove(s: seq<real>, lo: real)
    requires |s| > 0 && Above(s, lo)
    ensures lo < Mean(s)
  {
    SumAbove(s, lo);
    var n := |s| as real;
    assert Sum(s) / n > lo by { assert Sum(s) > n * lo; }
  }

  /** A window holding one reading `c` repeated has mean `c`. */
  lemma MeanConstant(s: seq<real>, c: real)
    requires |s| > 0 && forall i :: 0 <= i < |s| ==> s[i] == c
    ensures Mean(s) == c
  {
    MeanWithin(s, c, c);
  }

  /** Converting counts to reals commutes with summing them. */
  lemma {:induction false} SumAsReals(s: seq<nat>)
    ensures Sum(AsReals(s)) == SumCounts(s) as real
  {
    if s != [] {
      assert AsReals(s)[1..] == AsReals(s[1..]);
      SumAsReals(s[1..]);
    }
  }

  // ---------------------------------------------------------------------
  // Configuration and inputs
  // ---------------------------------------------------------------------

  /** Tunable parameters of the autoscaler. */
  datatype ScalingConfig = ScalingConfig(
    min_instances: nat,
    max_instances: nat,
    cpu_threshold: real,
    ram_threshold: real,
    response_time_threshold: real,
    scale_up_factor: real,
    scale_down_factor: real,
    cooldown_minutes: nat)

  /**
   * A configuration the computation can run on: the thresholds are positive
   * divisors, the factors are non-negative multipliers, and the clamp bounds
   * are ordered (Rust's `clamp` panics otherwise).
   */
  predicate ValidConfig(c: ScalingConfig)
  {
    && c.min_instances <= c.max_instances
    && c.cpu_threshold > 0.0
    && c.ram_threshold > 0.0
    && c.response_time_threshold > 0.0
    && c.scale_up_factor >= 0.0
    && c.scale_down_factor >= 0.0
  }

  /** `ScalingConfig::default()`: the shipped parameters, which are valid and scale up harder than they scale down. */
  function DefaultConfig(): (c: ScalingConfig)
    ensures ValidConfig(c)
    ensures c.scale_up_factor > 1.5 && c.scale_down_factor < 1.0
    ensures 0 < c.min_instances
  {
    ScalingConfig(
      min_instances := 1,
      max_instances := 100,
      cpu_threshold := 70.0,
      ram_threshold := 80.0,
      response_time_threshold := 500.0,
      scale_up_factor := 2.0,
      scale_down_factor := 0.7,
      cooldown_minutes := 5)
  }

  /** The short windows of live telemetry, oldest reading first. */
  datatype CurrentMetrics = CurrentMetrics(
    cpu_utilization: seq<real>,
    ram_utilization: seq<real>,
    client_count: seq<nat>,
    response_time_ms: seq<real>,
    disk_bandwidth_mbps: seq<real>,
    network_latency_ms: seq<real>,
    timestamp: int)

  /** The long windows of historical telemetry, oldest reading first. */
  datatype HistoricalMetrics = HistoricalMetrics(
    cpu_utilization: seq<real>,
    ram_utilization: seq<real>,
    client_count: seq<nat>,
    response_time_ms: seq<real>,
    disk_bandwidth_mbps: seq<real>,
    network_latency_ms: seq<real>)

  /** Static per-instance capacity. */
  datatype InstanceResources = InstanceResources(
    cpu_cores: nat,
    ram_gb: nat,
    disk_iops: nat,
    network_mbps: nat,
    max_clients: nat)

  // ---------------------------------------------------------------------
  // Historical trend
  // ---------------------------------------------------------------------

  /** Number of samples in each of the two compared sub-windows. */
  const TrendSpan: nat := 144

  /** Fewest historical samples for which a trend is computed. */
  const TrendMinSamples: nat := 288

  /** Mean of the newest 144 samples (`rev().take(144)`). */
  function RecentMean(h: seq<real>): (r: real)
    requires |h| >= TrendMinSamples
    ensures r == Mean(h[|h| - TrendSpan..])
  {
    Sum(h[|h| - TrendSpan..]) / 144.0
  }

  /** Mean of the 144 samples just before the newest 144 (`rev().skip(144).take(144)`). */
  function OldMean(h: seq<real>): (r: real)
    requires |h| >= TrendMinSamples
    ensures r == Mean(h[|h| - TrendMinSamples..|h| - TrendSpan])
  {
    Sum(h[|h| - TrendMinSamples..|h| - TrendSpan]) / 144.0
  }

  /**
   * The trend is computable: the source divides by the older mean without a
   * guard, so a zero older mean is excluded here.
   */
  predicate TrendDefined(h: seq<real>)
  {
    |h| < TrendMinSamples || OldMean(h) != 0.0
  }

  /** `f64::clamp(-1.0, 1.0)`. */
  function ClampUnit(x: real): (r: real)
    ensures -1.0 <= r <= 1.0
    ensures -1.0 <= x <= 1.0 ==> r == x
  {
    if x < -1.0 then -1.0 else if x > 1.0 then 1.0 else x
  }

  /** `calculate_trend`: relative change of the newest 144 samples against the 144 before them. */
  function Trend(h: seq<real>): (r: real)
    requires TrendDefined(h)
    ensures -1.0 <= r <= 1.0
    ensures |h| < TrendMinSamples ==> r == 0.0
    ensures |h| >= TrendMinSamples ==>
      var q := (RecentMean(h) - OldMean(h)) / OldMean(h);
      && (-1.0 <= q <= 1.0 ==> r == q)
      && (q > 1.0 ==> r == 1.0)
      && (q < -1.0 ==> r == -1.0)
    ensures |h| >= TrendMinSamples && OldMean(h) > 0.0 ==>
      && (r > 0.0 <==> RecentMean(h) > OldMean(h))
      && (r == 0.0 <==> RecentMean(h) == OldMean(h))
      && (r == 1.0 <==> RecentMean(h) >= 2.0 * OldMean(h))
  {
    if |h| < TrendMinSamples then 0.0
    else
      var recent, older := RecentMean(h), OldMean(h);
      TrendRatio(recent, older)
  }

  /** The clamped relative change `(recent - old) / old`. */
  function TrendRatio(recent: real, older: real): (r: real)
    requires older != 0.0
    ensures -1.0 <= r <= 1.0
    ensures -1.0 <= (recent - older) / older <= 1.0 ==> r == (recent - older) / older
    ensures (recent - older) / older > 1.0 ==> r == 1.0
    ensures (recent - older) / older < -1.0 ==> r == -1.0
    ensures older > 0.0 ==>
      && (r > 0.0 <==> recent > older)
      && (r == 0.0 <==> recent == older)
      && (r == 1.0 <==> recent >= 2.0 * older)
  {
    var q := (recent - older) / older;
    if older > 0.0 then
      RelativeChangeSigns(recent, older);
      ClampUnit(q)
    else ClampUnit(q)
  }

  /** Against a positive baseline, the relative change has the sign of the difference and reaches 1 at double. */
  lemma RelativeChangeSigns(recent: real, older: real)
    requires older > 0.0
    ensures var q := (recent - older) / older;
            && (q > 0.0 <==> recent > older)
            && (q == 0.0 <==> recent == older)
            && (q >= 1.0 <==> recent >= 2.0 * older)
  {
    var q := (recent - older) / older;
    assert q * older == recent - older;
    assert q > 0.0 <==> recent > older;
    assert q == 0.0 <==> recent == older;
    var d := q - 1.0;
    assert d * older == recent - 2.0 * older;
    if d >= 0.0 {
      assert d * older >= 0.0;
    } else {
      assert d * older < 0.0;
    }
  }

  /** The trend of a window of counts is computable (see `TrendDefined`). */
  predicate CountTrendDefined(h: seq<nat>)
  {
    |h| < TrendMinSamples || SumCounts(h[|h| - TrendMinSamples..|h| - TrendSpan]) != 0
  }

  /** `calculate_trend_u32`: the trend of a window of client counts, summed as integers then divided. */
  function CountTrend(h: seq<nat>): (r: real)
    requires CountTrendDefined(h)
    ensures -1.0 <= r <= 1.0
    ensures |h| < TrendMinSamples ==> r == 0.0
  {
    if |h| < TrendMinSamples then 0.0
    else
      var recent := SumCounts(h[|h| - TrendSpan..]) as real / 144.0;
      var older := SumCounts(h[|h| - TrendMinSamples..|h| - TrendSpan]) as real / 144.0;
      TrendRatio(recent, older)
  }

  /** Summing counts as integers and then converting gives the trend of the converted window. */
  lemma CountTrendAgrees(h: seq<nat>)
    requires CountTrendDefined(h)
    ensures TrendDefined(AsReals(h))
    ensures CountTrend(h) == Trend(AsReals(h))
  {
    if |h| >= TrendMinSamples {
      var n := |h|;
      assert AsReals(h)[n - TrendSpan..] == AsReals(h[n - TrendSpan..]);
      assert AsReals(h)[n - TrendMinSamples..n - TrendSpan] == AsReals(h[n - TrendMinSamples..n - TrendSpan]);
      SumAsReals(h[n - TrendSpan..]);
      SumAsReals(h[n - TrendMinSamples..n - TrendSpan]);
    }
  }

  /** A history whose samples are all positive has a positive older mean, so its trend is defined. */
  lemma PositiveHistoryHasTrend(h: seq<real>)
    requires Above(h, 0.0)
    ensures TrendDefined(h)
    ensures |h| >= TrendMinSamples ==> OldMean(h) > 0.0
  {
    if |h| >= TrendMinSamples {
      var older := h[|h| - TrendMinSamples..|h| - TrendSpan];
      assert Above(older, 0.0);
      SumAbove(older, 0.0);
    }
  }

  /** A history of positive counts has a defined trend. */
  lemma PositiveCountsHaveTrend(h: seq<nat>)
    requires forall i :: 0 <= i < |h| ==> h[i] > 0
    ensures CountTrendDefined(h)
  {
    if |h| >= TrendMinSamples {
      var older := h[|h| - TrendMinSamples..|h| - TrendSpan];
      assert older[0] > 0;
      assert SumCounts(older) >= older[0];
    }
  }

  // ---------------------------------------------------------------------
  // Weighted decision
  // ---------------------------------------------------------------------

  /** The six weights, in the order cpu, ram, response time, clients, cpu trend, client trend. */
  const Weights: seq<real> := [0.35, 0.25, 0.2, 0.1, 0.05, 0.05]

  /** The weights form a convex combination: they are positive and sum to 1. */
  lemma WeightsSumToOne()
    ensures |Weights| == 6 && Sum(Weights) == 1.0
    ensures forall i :: 0 <= i < |Weights| ==> Weights[i] > 0.0
  {
    assert Weights[1..][1..][1..][1..][1..][1..] == [];
  }

  /** The weighted sum of the four load factors and the two trend terms `1 + trend`. */
  function Combined(cpu: real, ram: real, rt: real, client: real, cpuTrend: real, clientTrend: real): (r: real)
    ensures cpu == ram == rt == client == 1.0 && cpuTrend == clientTrend == 0.0 ==> r == 1.0
  {
    cpu * Weights[0] + ram * Weights[1] + rt * Weights[2] + client * Weights[3] +
    (1.0 + cpuTrend) * Weights[4] + (1.0 + clientTrend) * Weights[5]
  }

  /** The score is a convex combination: when every term lies in [lo, hi], so does the score. */
  lemma CombinedWithin(cpu: real, ram: real, rt: real, client: real, cpuTrend: real, clientTrend: real, lo: real, hi: real)
    requires lo <= cpu <= hi && lo <= ram <= hi && lo <= rt <= hi && lo <= client <= hi
    requires lo <= 1.0 + cpuTrend <= hi && lo <= 1.0 + clientTrend <= hi
    ensures lo <= Combined(cpu, ram, rt, client, cpuTrend, clientTrend) <= hi
  {
  }

  /** A higher term never lowers the score. */
  lemma CombinedMonotone(cpu: real, ram: real, rt: real, client: real, cpuTrend: real, clientTrend: real,
                         cpu': real, ram': real, rt': real, client': real, cpuTrend': real, clientTrend': real)
    requires cpu <= cpu' && ram <= ram' && rt <= rt' && client <= client' && cpuTrend <= cpuTrend' && clientTrend <= clientTrend'
    ensures Combined(cpu, ram, rt, client, cpuTrend, clientTrend) <= Combined(cpu', ram', rt', client', cpuTrend', clientTrend')
  {
  }

  /** The four-band multiplier applied to the current instance count. */
  function BandMultiplier(config: ScalingConfig, combined: real): (r: real)
    ensures combined > 1.2 ==> r == config.scale_up_factor
    ensures 1.0 < combined <= 1.2 ==> r == 1.5
    ensures combined < 0.6 ==> r == config.scale_down_factor
    ensures 0.6 <= combined <= 1.0 ==> r == 1.0
  {
    if combined > 1.2 then config.scale_up_factor
    else if combined > 1.0 then 1.5
    else if combined < 0.6 then config.scale_down_factor
    else 1.0
  }

  /**
   * With a configuration that scales up by more than 1 and down by less than
   * 1, the multiplier grows the fleet exactly when the combined score is
   * above 1.0 and shrinks it exactly when the score is below 0.6.
   */
  lemma BandDirection(config: ScalingConfig, combined: real)
    requires config.scale_up_factor > 1.0 && config.scale_down_factor < 1.0
    ensures BandMultiplier(config, combined) > 1.0 <==> combined > 1.0
    ensures BandMultiplier(config, combined) < 1.0 <==> combined < 0.6
    ensures BandMultiplier(config, combined) == 1.0 <==> 0.6 <= combined <= 1.0
  {
  }

  /** With scale-up at least 1.5 and scale-down at most 1, a higher score never gives a smaller multiplier. */
  lemma BandMonotone(config: ScalingConfig, c1: real, c2: real)
    requires config.scale_up_factor >= 1.5 && config.scale_down_factor <= 1.0
    requires c1 <= c2
    ensures BandMultiplier(config, c1) <= BandMultiplier(config, c2)
  {
  }

  // ---------------------------------------------------------------------
  // Rounding and the bounding step
  // ---------------------------------------------------------------------

  /** `f64::round` on a non-negative value: halves round up. */
  function Round(x: real): (r: nat)
    requires x >= 0.0
    ensures r as real <= x + 0.5 < r as real + 1.0
  {
    (x + 0.5).Floor
  }

  /** `f64::ceil`. */
  function Ceil(x: real): (r: int)
    ensures x <= r as real < x + 1.0
  {
    if x.Floor as real == x then x.Floor else x.Floor + 1
  }

  /** `ceil(current * 0.2)`: the smallest accepted change, a fifth rounded up. */
  function MinChange(current: nat): (r: nat)
    ensures r == (current + 4) / 5
    ensures r <= current
    ensures current > 0 ==> r >= 1
  {
    var x := current as real * 0.2;
    var q, m := current / 5, current % 5;
    assert current == 5 * q + m;
    assert x == q as real + m as real / 5.0;
    assert x.Floor == q;
    if m == 0 then
      assert Ceil(x) == q;
      Ceil(x)
    else
      assert Ceil(x) == q + 1;
      Ceil(x)
  }

  /** `Ord::clamp(lo, hi)`. */
  function Clamp(x: nat, lo: nat, hi: nat): (r: nat)
    requires lo <= hi
    ensures lo <= r <= hi
    ensures lo <= x <= hi ==> r == x
    ensures x < lo ==> r == lo
    ensures x > hi ==> r == hi
  {
    if x < lo then lo else if x > hi then hi else x
  }

  // ---------------------------------------------------------------------
  // The autoscaler
  // ---------------------------------------------------------------------

  /** `Duration::num_minutes` of a span of seconds: whole minutes, truncated toward zero. */
  function WholeMinutes(seconds: int): (r: int)
    ensures seconds >= 0 ==> 0 <= r && r * 60 <= seconds < r * 60 + 60
    ensures seconds < 0 ==> r <= 0 && r * 60 - 60 < seconds <= r * 60
  {
    if seconds >= 0 then seconds / 60 else -((-seconds) / 60)
  }

  /**
   * The autoscaler's state. Every operation below only reads it, so an
   * evaluation never changes `current_instances` or `last_scale_time`.
   */
  datatype AutoScaler = AutoScaler(config: ScalingConfig, current_instances: nat, last_scale_time: int)
  {
    /**
     * Fewer than `cooldown_minutes` whole minutes have passed since the last
     * scaling. For a clock that has not gone back this is fewer than
     * 60 * `cooldown_minutes` seconds; a clock that has gone back is always
     * in a (non-zero) cooldown.
     */
    predicate InCooldown(now: int)
      ensures now >= last_scale_time ==>
        (InCooldown(now) <==> now - last_scale_time < 60 * config.cooldown_minutes)
      ensures now < last_scale_time && config.cooldown_minutes > 0 ==> InCooldown(now)
    {
      WholeMinutes(now - last_scale_time) < config.cooldown_minutes as int
    }

    /** `calculate_load_factor`: 60% mean and 40% peak against the threshold, amplified by 1.5 above 1. */
    function LoadFactor(window: seq<real>, threshold: real): (r: real)
      requires threshold > 0.0
      ensures window == [] ==> r == 1.0
      ensures window != [] ==> (r > 1.5 <==> WeightedLoad(window, threshold) > 1.0)
      ensures window != [] && WeightedLoad(window, threshold) <= 1.0 ==> r == WeightedLoad(window, threshold)
      ensures window != [] && WeightedLoad(window, threshold) > 1.0 ==> r == 1.5 * WeightedLoad(window, threshold)
      ensures !(1.0 < r <= 1.5)
    {
      if window == [] then 1.0
      else
        var load := WeightedLoad(window, threshold);
        if load > 1.0 then load * 1.5 else load
    }

    /**
     * The un-amplified load `0.6 * avg/threshold + 0.4 * peak/threshold`.
     * The peak is at least the average, so the blend never falls below the
     * normalised average.
     */
    static function WeightedLoad(window: seq<real>, threshold: real): (r: real)
      requires |window| > 0 && threshold > 0.0
      ensures Mean(window) / threshold <= r
    {
      MeanAtMostPeak(window);
      assert Mean(window) / threshold <= Peak(window) / threshold by {
        DivideMonotone(Mean(window), Peak(window), threshold);
      }
      0.6 * (Mean(window) / threshold) + 0.4 * (Peak(window) / threshold)
    }

    /** `calculate_response_time_factor`: mean against the threshold, amplified by 1.3 above 1. */
    function ResponseTimeFactor(window: seq<real>): (r: real)
      requires config.response_time_threshold > 0.0
      ensures window == [] ==> r == 1.0
      ensures window != [] ==> (r > 1.3 <==> Mean(window) > config.response_time_threshold)
      ensures window != [] && Mean(window) <= config.response_time_threshold ==>
        r == Mean(window) / config.response_time_threshold
      ensures window != [] && Mean(window) > config.response_time_threshold ==>
        r == 1.3 * (Mean(window) / config.response_time_threshold)
      ensures !(1.0 < r <= 1.3)
    {
      if window == [] then 1.0
      else
        var normalized := Mean(window) / config.response_time_threshold;
        if normalized > 1.0 then normalized * 1.3 else normalized
    }

    /** The mean client count as a fraction of the fleet's capacity. */
    function ClientUtilisation(clients: seq<nat>, maxClientsPerInstance: nat): (r: real)
      requires clients != [] && current_instances * maxClientsPerInstance > 0
      ensures 0.0 <= r
    {
      var avgClients := SumCounts(clients) as real / |clients| as real;
      var capacity := current_instances as real * maxClientsPerInstance as real;
      avgClients / capacity
    }

    /** `calculate_client_load_factor`: mean clients against the fleet's capacity, amplified by 1.4 above 0.8. */
    function ClientLoadFactor(clients: seq<nat>, maxClientsPerInstance: nat): (r: real)
      requires clients != [] ==> current_instances * maxClientsPerInstance > 0
      ensures clients == [] ==> r == 1.0
      ensures 0.0 <= r
      ensures clients != [] ==> (r > 1.12 <==> ClientUtilisation(clients, maxClientsPerInstance) > 0.8)
      ensures clients != [] && ClientUtilisation(clients, maxClientsPerInstance) <= 0.8 ==>
        r == ClientUtilisation(clients, maxClientsPerInstance)
      ensures clients != [] && ClientUtilisation(clients, maxClientsPerInstance) > 0.8 ==>
        r == 1.4 * ClientUtilisation(clients, maxClientsPerInstance)
      ensures clients != [] ==> !(0.8 < r <= 1.12)
    {
      if clients == [] then 1.0
      else
        var load := ClientUtilisation(clients, maxClientsPerInstance);
        if load > 0.8 then load * 1.4 else load
    }

    /** `determine_scaling_factor`: the band multiplier of the weighted score. */
    function ScalingFactor(cpu: real, ram: real, rt: real, client: real, cpuTrend: real, clientTrend: real): (r: real)
      ensures r == BandMultiplier(config, Combined(cpu, ram, rt, client, cpuTrend, clientTrend))
      ensures cpu == ram == rt == client == 1.0 && cpuTrend == clientTrend == 0.0 ==> r == 1.0
    {
      BandMultiplier(config, Combined(cpu, ram, rt, client, cpuTrend, clientTrend))
    }

    /**
     * `bound_instances`: a change moves at least a fifth of the fleet
     * (rounded up) toward the target, then is clamped to the configured range.
     */
    function BoundInstances(instances: nat): (r: nat)
      requires config.min_instances <= config.max_instances
      ensures instances == current_instances ==> r == current_instances
      ensures instances != current_instances ==> config.min_instances <= r <= config.max_instances
      ensures instances > current_instances ==>
        r == config.max_instances || (r >= instances && r >= current_instances + MinChange(current_instances))
      ensures instances < current_instances ==>
        r == config.min_instances || (r <= instances && r + MinChange(current_instances) <= current_instances)
      ensures instances > current_instances ==>
        r == Clamp(MaxNat(instances, current_instances + MinChange(current_instances)), config.min_instances, config.max_instances)
      ensures instances < current_instances ==>
        r == Clamp(MinNat(instances, current_instances - MinChange(current_instances)), config.min_instances, config.max_instances)
    {
      var minChange := MinChange(current_instances);
      if instances > current_instances then
        var increase := if instances - current_instances >= minChange then instances - current_instances else minChange;
        Clamp(current_instances + increase, config.min_instances, config.max_instances)
      else if instances < current_instances then
        var decrease := if current_instances - instances >= minChange then current_instances - instances else minChange;
        Clamp(current_instances - decrease, config.min_instances, config.max_instances)
      else
        current_instances
    }

    /** The inputs on which an evaluation outside the cooldown performs no division by zero. */
    predicate CanEvaluate(current: CurrentMetrics, historical: HistoricalMetrics, resources: InstanceResources)
    {
      && (current.client_count != [] ==> current_instances * resources.max_clients > 0)
      && TrendDefined(historical.cpu_utilization)
      && CountTrendDefined(historical.client_count)
    }

    /** The instance count the fleet should have: the weighted decision, rounded and bounded. */
    function Decide(current: CurrentMetrics, historical: HistoricalMetrics, resources: InstanceResources): (r: nat)
      requires ValidConfig(config)
      requires CanEvaluate(current, historical, resources)
      ensures r != current_instances ==> config.min_instances <= r <= config.max_instances
    {
      var cpuLoad := LoadFactor(current.cpu_utilization, config.cpu_threshold);
      var ramLoad := LoadFactor(current.ram_utilization, config.ram_threshold);
      var clientLoad := ClientLoadFactor(current.client_count, resources.max_clients);
      var responseTimeLoad := ResponseTimeFactor(current.response_time_ms);
      var cpuTrend := Trend(historical.cpu_utilization);
      var clientTrend := CountTrend(historical.client_count);
      var factor := ScalingFactor(cpuLoad, ramLoad, responseTimeLoad, clientLoad, cpuTrend, clientTrend);
      var target := Round(current_instances as real * factor);
      BoundInstances(target)
    }

    /**
     * `calculate_target_instances`: the cooldown veto in front of the decision.
     * The veto returns before any clamp or division, so it holds for every
     * configuration; only the evaluation after the cooldown needs one.
     */
    function TargetInstances(current: CurrentMetrics, historical: HistoricalMetrics, resources: InstanceResources, now: int): (r: nat)
      requires !InCooldown(now) ==> ValidConfig(config) && CanEvaluate(current, historical, resources)
      ensures InCooldown(now) ==> r == current_instances
      ensures r != current_instances ==> !InCooldown(now) && config.min_instances <= r <= config.max_instances
    {
      if InCooldown(now) then current_instances
      else Decide(current, historical, resources)
    }
  }

  // ---------------------------------------------------------------------
  // Properties of the whole evaluation
  // ---------------------------------------------------------------------

  /** Empty windows give neutral factors, whatever the threshold. */
  lemma EmptyWindowsAreNeutral(s: AutoScaler, threshold: real, maxClients: nat)
    requires threshold > 0.0 && s.config.response_time_threshold > 0.0
    ensures s.LoadFactor([], threshold) == 1.0
    ensures s.ResponseTimeFactor([]) == 1.0
    ensures s.ClientLoadFactor([], maxClients) == 1.0
  {
  }

  /** A window at or under its threshold is never amplified: the factor is at most 1. */
  lemma LoadAtOrUnderThreshold(s: AutoScaler, window: seq<real>, threshold: real)
    requires threshold > 0.0 && |window| > 0 && Within(window, 0.0, threshold)
    ensures s.LoadFactor(window, threshold) <= 1.0
  {
    MeanWithin(window, 0.0, threshold);
    var p := Peak(window);
    assert p <= threshold by {
      if p != 0.0 {
        var i :| 0 <= i < |window| && window[i] == p;
      }
    }
    RatioAtMostOne(Mean(window), threshold);
    RatioAtMostOne(p, threshold);
  }

  lemma RatioAtMostOne(a: real, t: real)
    requires t > 0.0 && a <= t
    ensures a / t <= 1.0
  {
    assert a / t * t == a;
  }

  lemma RatioAboveOne(a: real, t: real)
    requires t > 0.0 && a > t
    ensures a / t > 1.0
  {
    assert a / t * t == a;
  }

  /** A window wholly above its threshold is always amplified: the factor exceeds 1.5. */
  lemma LoadOverThreshold(s: AutoScaler, window: seq<real>, threshold: real)
    requires threshold > 0.0 && |window| > 0 && Above(window, threshold)
    ensures s.LoadFactor(window, threshold) > 1.5
  {
    MeanAbove(window, threshold);
    var p := Peak(window);
    assert p >= window[0] > threshold;
    RatioAboveOne(Mean(window), threshold);
    RatioAboveOne(p, threshold);
  }

  /** All factors neutral and no trend: the score is exactly 1.0 and the decision is to hold. */
  lemma NeutralInputsHold(s: AutoScaler, current: CurrentMetrics, historical: HistoricalMetrics,
                          resources: InstanceResources, now: int)
    requires ValidConfig(s.config)
    requires current.cpu_utilization == [] && current.ram_utilization == []
    requires current.client_count == [] && current.response_time_ms == []
    requires |historical.cpu_utilization| < TrendMinSamples && |historical.client_count| < TrendMinSamples
    ensures s.TargetInstances(current, historical, resources, now) == s.current_instances
  {
    if !s.InCooldown(now) {
      assert Combined(1.0, 1.0, 1.0, 1.0, 0.0, 0.0) == 1.0;
      var n := s.current_instances;
      assert Round(n as real * 1.0) == n by {
        assert (n as real * 1.0 + 0.5).Floor == n;
      }
    }
  }

  /** A window of `n` readings all equal to `c`. */
  function Constant<T>(n: nat, c: T): (r: seq<T>)
    ensures |r| == n && forall i :: 0 <= i < n ==> r[i] == c
  {
    seq(n, _ => c)
  }

  lemma {:induction false} SumCountsConstant(n: nat, c: nat)
    ensures SumCounts(Constant<nat>(n, c)) == n * c
  {
    if n > 0 {
      assert Constant<nat>(n, c)[1..] == Constant<nat>(n - 1, c);
      SumCountsConstant(n - 1, c);
    }
  }

  lemma PeakConstant(n: nat, c: real)
    requires n > 0 && c >= 0.0
    ensures Peak(Constant(n, c)) == c
  {
    var p := Peak(Constant(n, c));
    assert p >= c;
    if p != 0.0 {
      var i :| 0 <= i < n && Constant(n, c)[i] == p;
    }
  }

  /** The factors of a window of `n` equal readings `c`. */
  lemma ConstantFactors(s: AutoScaler, n: nat, c: real, threshold: real)
    requires n > 0 && c >= 0.0 && threshold > 0.0 && s.config.response_time_threshold > 0.0
    ensures c > threshold ==> s.LoadFactor(Constant(n, c), threshold) == c / threshold * 1.5
    ensures c <= s.config.response_time_threshold ==>
      s.ResponseTimeFactor(Constant(n, c)) == c / s.config.response_time_threshold
  {
    MeanConstant(Constant(n, c), c);
    PeakConstant(n, c);
    if c > threshold {
      RatioAboveOne(c, threshold);
    }
  }

  /**
   * The scenario of the source's unit test: 4 instances under the default
   * configuration, 20 high-load readings per window (cpu 90, ram 85,
   * 95 clients of 100 per instance, 450 ms), a history whose trends are
   * defined (a positive history is, by PositiveHistoryHasTrend) and the
   * cooldown elapsed. The fleet doubles to 8.
   */
  lemma HighLoadScenarioScalesUp(last: int, now: int, historical: HistoricalMetrics, disk: seq<real>, net: seq<real>, stamp: int)
    requires now - last >= (DefaultConfig().cooldown_minutes + 1) * 60
    requires TrendDefined(historical.cpu_utilization) && CountTrendDefined(historical.client_count)
    ensures var s := AutoScaler(DefaultConfig(), 4, last);
            var current := CurrentMetrics(Constant(20, 90.0), Constant(20, 85.0), Constant<nat>(20, 95),
                                          Constant(20, 450.0), disk, net, stamp);
            var resources := InstanceResources(4, 16, 1000, 1000, 100);
            s.TargetInstances(current, historical, resources, now) == 8
  {
    var s := AutoScaler(DefaultConfig(), 4, last);
    var current := CurrentMetrics(Constant(20, 90.0), Constant(20, 85.0), Constant<nat>(20, 95),
                                  Constant(20, 450.0), disk, net, stamp);
    var resources := InstanceResources(4, 16, 1000, 1000, 100);
    assert !s.InCooldown(now);
    var cpuLoad := s.LoadFactor(current.cpu_utilization, 70.0);
    var ramLoad := s.LoadFactor(current.ram_utilization, 80.0);
    var clientLoad := s.ClientLoadFactor(current.client_count, 100);
    var rtLoad := s.ResponseTimeFactor(current.response_time_ms);
    var cpuTrend := Trend(historical.cpu_utilization);
    var clientTrend := CountTrend(historical.client_count);
    assert cpuLoad == 90.0 / 70.0 * 1.5 by { ConstantFactors(s, 20, 90.0, 70.0); }
    assert ramLoad == 85.0 / 80.0 * 1.5 by { ConstantFactors(s, 20, 85.0, 80.0); }
    assert rtLoad == 450.0 / 500.0 by { ConstantFactors(s, 20, 450.0, 500.0); }
    assert Combined(cpuLoad, ramLoad, rtLoad, clientLoad, cpuTrend, clientTrend) > 1.2 by {
      CombinedMonotone(27.0 / 14.0, 1.59375, 0.9, 0.0, -1.0, -1.0, cpuLoad, ramLoad, rtLoad, clientLoad, cpuTrend, clientTrend);
    }
    ScoreAboveBandDoubles(s, current, historical, resources);
  }

  /** Above the top band, the default configuration doubles a fleet of 4 to 8. */
  lemma ScoreAboveBandDoubles(s: AutoScaler, current: CurrentMetrics, historical: HistoricalMetrics, resources: InstanceResources)
    requires s == AutoScaler(DefaultConfig(), 4, s.last_scale_time)
    requires s.CanEvaluate(current, historical, resources)
    requires Combined(s.LoadFactor(current.cpu_utilization, 70.0), s.LoadFactor(current.ram_utilization, 80.0),
                      s.ResponseTimeFactor(current.response_time_ms), s.ClientLoadFactor(current.client_count, resources.max_clients),
                      Trend(historical.cpu_utilization), CountTrend(historical.client_count)) > 1.2
    ensures s.Decide(current, historical, resources) == 8
  {
    assert Round(4 as real * 2.0) == 8;
  }

  /**
   * The minimum step is not kept when the clamp cuts the move short: 10
   * instances asked to grow to 20 with a ceiling of 11 move by 1, below the
   * minimum step of 2.
   */
  lemma ClampShortensStep()
    ensures var c := ScalingConfig(1, 11, 70.0, 80.0, 500.0, 2.0, 0.7, 5);
            var s := AutoScaler(c, 10, 0);
            s.BoundInstances(20) == 11 && MinChange(10) == 2
  {
  }
}
