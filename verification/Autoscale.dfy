/** How many containers a metric asks for, and why the answer settles at once. */
module Autoscale {

  const TOLERANCE := 0.1

  datatype Config = Config(target: real, minReplicas: int, maxReplicas: int)

  /** The bounds `autoscaleConfig` enforces that matter here (it also caps both counts at 10). */
  predicate Valid(cfg: Config) {
    cfg.target > 0.0 && 1 <= cfg.minReplicas < cfg.maxReplicas
  }

  function Abs(x: real): real {
    if x < 0.0 then -x else x
  }

  function Ceil(x: real): int {
    -(-x).Floor
  }

  function Clamp(cfg: Config, want: int): int {
    var atLeast := if want < cfg.minReplicas then cfg.minReplicas else want;
    if atLeast > cfg.maxReplicas then cfg.maxReplicas else atLeast
  }

  /** At least one container counts as running. */
  function Running(current: int): (n: int)
    ensures n >= 1
  {
    if current < 1 then 1 else current
  }

  predicate InBand(ratio: real) {
    Abs(ratio - 1.0) <= TOLERANCE
  }

  /** What a ratio of value to target asks for, before the bounds. */
  function WantAt(n: int, ratio: real): int {
    if InBand(ratio) then n else Ceil(n as real * ratio)
  }

  function DesiredReplicas(current: int, value: real, cfg: Config): int
    requires cfg.target > 0.0
  {
    var n := Running(current);
    Clamp(cfg, WantAt(n, value / cfg.target))
  }

  /** The metric per container when the whole load is `load`. */
  function PerContainer(load: real, count: int): real {
    load / Running(count) as real
  }

  // ---------------------------------------------------------------------
  // Arithmetic
  // ---------------------------------------------------------------------

  lemma {:induction false} CeilMeaning(x: real)
    ensures Ceil(x) as real >= x > Ceil(x) as real - 1.0
  {
  }

  lemma {:induction false} CeilLeast(x: real, k: int)
    ensures Ceil(x) <= k <==> x <= k as real
  {
    CeilMeaning(x);
  }

  /** Dividing by a positive number, undone. */
  lemma {:induction false} DivideMeaning(x: real, d: real)
    requires d > 0.0
    ensures (x / d) * d == x
  {
  }

  lemma {:induction false} DivideCompares(x: real, d: real, b: real)
    requires d > 0.0
    ensures x / d <= b <==> x <= b * d
  {
    var q := x / d;
    DivideMeaning(x, d);
    assert q <= b ==> q * d <= b * d;
    assert q > b ==> q * d > b * d;
  }

  lemma {:induction false} ScaleCompares(n: real, a: real, b: real)
    requires n > 0.0
    ensures a <= b <==> n * a <= n * b
  {
    if a <= b {
      assert n * (b - a) >= 0.0;
    } else {
      assert n * (a - b) > 0.0;
    }
  }

  /** The load in units of the target does not depend on how many containers share it. */
  lemma {:induction false} RatioScales(load: real, n: real, target: real)
    requires n > 0.0 && target > 0.0
    ensures n * ((load / n) / target) == load / target
  {
    var q := load / n;
    DivideMeaning(load, n);
    var r := q / target;
    DivideMeaning(q, target);
    assert (n * r) * target == n * (r * target) == load;
    DivideMeaning(load, target);
  }

  /** What the whole load wants, whatever runs now. */
  function Want(load: real, cfg: Config): int
    requires cfg.target > 0.0
  {
    Ceil(load / cfg.target)
  }

  lemma {:induction false} DesiredOfLoad(current: int, load: real, cfg: Config)
    requires Valid(cfg)
    ensures var n := Running(current);
      DesiredReplicas(current, PerContainer(load, current), cfg)
      == Clamp(cfg, if InBand(PerContainer(load, current) / cfg.target) then n else Want(load, cfg))
  {
    RatioScales(load, Running(current) as real, cfg.target);
  }

  lemma {:induction false} BandScales(n: real, ratio: real, whole: real)
    requires n > 0.0 && n * ratio == whole
    ensures InBand(ratio) <==> n * 0.9 <= whole <= n * 1.1
  {
    ScaleCompares(n, 0.9, ratio);
    ScaleCompares(n, ratio, 1.1);
  }

  /** The band in terms of the load: between 0.9 and 1.1 times what `n` containers are meant to carry. */
  lemma {:induction false} BandMeaning(load: real, n: int, cfg: Config)
    requires Valid(cfg) && n >= 1
    ensures InBand(PerContainer(load, n) / cfg.target)
      <==> n as real * 0.9 <= load / cfg.target <= n as real * 1.1
  {
    RatioScales(load, n as real, cfg.target);
    BandScales(n as real, PerContainer(load, n) / cfg.target, load / cfg.target);
  }

  // ---------------------------------------------------------------------
  // One step is enough
  // ---------------------------------------------------------------------

  /** With the load held constant, the first answer, whatever was running, is the last. */
  lemma {:induction false} SettlesInOneStep(current: int, load: real, cfg: Config)
    requires Valid(cfg)
    ensures var d := DesiredReplicas(current, PerContainer(load, current), cfg);
      cfg.minReplicas <= d <= cfg.maxReplicas && DesiredReplicas(d, PerContainer(load, d), cfg) == d
  {
    var n, d := Running(current), DesiredReplicas(current, PerContainer(load, current), cfg);
    DesiredOfLoad(current, load, cfg);
    DesiredOfLoad(d, load, cfg);
    BandMeaning(load, n, cfg);
    BandMeaning(load, d, cfg);
    CeilMeaning(load / cfg.target);
  }

  lemma {:induction false} Sufficient(load: real, k: int, cfg: Config)
    requires Valid(cfg) && 1 <= k
    ensures PerContainer(load, k) <= cfg.target <==> Want(load, cfg) <= k
  {
    DivideCompares(load, k as real, cfg.target);
    DivideCompares(load, cfg.target, k as real);
    CeilLeast(load / cfg.target, k);
  }

  /** Outside the band: the least count within the bounds that brings each container to the target, or the maximum. */
  lemma {:induction false} LeastSufficient(current: int, load: real, cfg: Config)
    requires Valid(cfg) && !InBand(PerContainer(load, current) / cfg.target)
    ensures var d := DesiredReplicas(current, PerContainer(load, current), cfg);
      && cfg.minReplicas <= d <= cfg.maxReplicas
      && (PerContainer(load, d) <= cfg.target || d == cfg.maxReplicas)
      && forall k :: cfg.minReplicas <= k < d ==> PerContainer(load, k) > cfg.target
  {
    DesiredOfLoad(current, load, cfg);
    var d := DesiredReplicas(current, PerContainer(load, current), cfg);
    forall k | 1 <= k ensures PerContainer(load, k) <= cfg.target <==> Want(load, cfg) <= k {
      Sufficient(load, k, cfg);
    }
  }

  /** Inside the band nothing changes, within the bounds. */
  lemma {:induction false} BandHolds(current: int, value: real, cfg: Config)
    requires Valid(cfg) && InBand(value / cfg.target)
    ensures cfg.minReplicas <= current <= cfg.maxReplicas ==> DesiredReplicas(current, value, cfg) == current
    ensures current < cfg.minReplicas ==> DesiredReplicas(current, value, cfg) == cfg.minReplicas
    ensures current > cfg.maxReplicas ==> DesiredReplicas(current, value, cfg) == cfg.maxReplicas
  {
  }

  /** After a step no container is more than a tenth over the target, unless the maximum runs. */
  lemma {:induction false} NeverFarOver(current: int, load: real, cfg: Config)
    requires Valid(cfg)
    ensures var d := DesiredReplicas(current, PerContainer(load, current), cfg);
      PerContainer(load, d) <= 1.1 * cfg.target || d == cfg.maxReplicas
  {
    var n, d := Running(current), DesiredReplicas(current, PerContainer(load, current), cfg);
    DesiredOfLoad(current, load, cfg);
    BandMeaning(load, n, cfg);
    CeilMeaning(load / cfg.target);
    DivideCompares(load, d as real, 1.1 * cfg.target);
    DivideCompares(load, cfg.target, 1.1 * d as real);
    assert 1.1 * cfg.target * d as real == 1.1 * d as real * cfg.target;
  }

  lemma {:induction false} WantMonotone(n: int, a: real, b: real)
    requires n >= 1 && a <= b
    ensures WantAt(n, a) <= WantAt(n, b)
  {
    var nr := n as real;
    if InBand(a) && !InBand(b) {
      ScaleCompares(nr, 1.0, b);
      CeilMeaning(nr * b);
    } else if !InBand(a) && InBand(b) {
      ScaleCompares(nr, a, 1.0);
      CeilLeast(nr * a, n);
    } else if !InBand(a) && !InBand(b) {
      ScaleCompares(nr, a, b);
      CeilMeaning(nr * b);
      CeilLeast(nr * a, Ceil(nr * b));
    }
  }

  lemma {:induction false} RatioCompares(low: real, high: real, target: real)
    requires target > 0.0 && low <= high
    ensures low / target <= high / target
  {
    DivideCompares(low, target, high / target);
    DivideMeaning(high, target);
  }

  /** A higher value never asks for fewer containers. */
  lemma {:induction false} Monotone(current: int, low: real, high: real, cfg: Config)
    requires Valid(cfg) && low <= high
    ensures DesiredReplicas(current, low, cfg) <= DesiredReplicas(current, high, cfg)
  {
    RatioCompares(low, high, cfg.target);
    WantMonotone(Running(current), low / cfg.target, high / cfg.target);
  }
}
