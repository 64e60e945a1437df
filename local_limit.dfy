/** The process-local rate limiter (package local_limit), a token bucket.
    A generator produces "drops" at TargetRate per second, at most MaxDrops
    in one batch, carrying fractional drops over from step to step; Limit
    admits a request when it can take a drop.

    The generator goroutine, the unbuffered drop channel and the clock are
    sequentialised: `Step(elapsed)` is one iteration of the generator loop,
    with the time since the previous iteration as a parameter, and `pending`
    counts the sends of the current batch that no Limit call has received
    yet. Because the channel is unbuffered, len(drops) is always 0 and the
    generator can only start its next iteration once every send of the
    current batch has been received (pending == 0). */
module LocalLimit {
  import opened Wrappers
  import Options

  const Nanosecond := 1
  const Millisecond := 1_000_000
  const Second := 1_000_000_000

  const ErrSleep := "sleep time must be greater than 0"
  const ErrRate := "rate must be greater than 0"

  /** Duration.Seconds for a duration in nanoseconds. */
  function Seconds(d: int): real {
    d as real / Second as real
  }

  /** The int64(x) conversion of a float64: truncation toward zero. */
  function Trunc(x: real): (n: int)
    ensures x >= 0.0 ==> 0 <= n && n as real <= x < n as real + 1.0
    ensures x < 0.0 ==> n <= 0 && n as real - 1.0 < x <= n as real
  {
    if x >= 0.0 then x.Floor else -((-x).Floor)
  }

  function Min(a: int, b: int): int { if a <= b then a else b }
  function Max(a: int, b: int): int { if a >= b then a else b }

  /** The result of one generator step: drops sent, the new overflow, and
      whether the batch was cut by the capacity. */
  datatype StepResult = StepResult(pushed: nat, overflow: real, capped: bool)

  /** One iteration of the generator loop with `drops` earned: the whole
      drops, cut to the room left below maxDrops; the fraction is carried
      over unless the batch was cut. */
  function ReplenishStep(maxDrops: int, queued: int, drops: real): (s: StepResult)
    ensures s.pushed <= Max(0, maxDrops - queued)
    ensures s.capped <==> maxDrops - queued < Trunc(drops)
    ensures s.capped ==> s.overflow == 0.0 && s.pushed == Max(0, maxDrops - queued)
    ensures drops >= 0.0 ==>
      && s.pushed as real <= drops
      && 0.0 <= s.overflow < 1.0
      && (!s.capped ==> s.pushed == Trunc(drops) && s.pushed as real + s.overflow == drops)
  {
    var whole := Trunc(drops);
    var fill := Min(maxDrops - queued, whole);
    StepResult(Max(0, fill), if fill == whole then drops - whole as real else 0.0, fill != whole)
  }

  /** The inputs of one generator iteration: the rate and capacity in force
      and the time that passed. */
  datatype Tick = Tick(rate: real, maxDrops: int, elapsed: real)

  predicate WellFormed(t: Tick) {
    t.rate > 0.0 && t.elapsed >= 0.0
  }

  /** Drops issued so far, the current overflow, and whether any batch was cut. */
  datatype Totals = Totals(issued: nat, overflow: real, capped: bool)

  /** The generator run as a fold over its iterations, starting from zero
      overflow; the channel is always empty when a batch is computed. */
  function Replenish(ticks: seq<Tick>): Totals
    decreases |ticks|
  {
    if |ticks| == 0 then Totals(0, 0.0, false)
    else
      var prev := Replenish(ticks[..|ticks| - 1]);
      var t := ticks[|ticks| - 1];
      var s := ReplenishStep(t.maxDrops, 0, Drops(t, prev.overflow));
      Totals(prev.issued + s.pushed, s.overflow, prev.capped || s.capped)
  }

  /** The drops one iteration earns: elapsed seconds at its rate. */
  function Gain(t: Tick): (g: real)
    ensures WellFormed(t) ==> g >= 0.0
  {
    NonNegativeProduct(t.elapsed, t.rate);
    t.elapsed * t.rate
  }

  lemma NonNegativeProduct(x: real, y: real)
    ensures x >= 0.0 && y >= 0.0 ==> x * y >= 0.0
  {
  }

  /** The drops available to one iteration: what it earned plus the
      fraction carried over. */
  function Drops(t: Tick, overflow: real): real {
    Gain(t) + overflow
  }

  /** The drops earned over the iterations: the sum of rate times seconds. */
  function Earned(ticks: seq<Tick>): real
    decreases |ticks|
  {
    if |ticks| == 0 then 0.0
    else Earned(ticks[..|ticks| - 1]) + Gain(ticks[|ticks| - 1])
  }

  /** No lost drops: as long as no batch was cut by the capacity, the drops
      issued plus the carried fraction are exactly the drops earned. */
  lemma {:induction false} NoLostDrops(ticks: seq<Tick>)
    requires forall i :: 0 <= i < |ticks| ==> WellFormed(ticks[i])
    requires !Replenish(ticks).capped
    ensures Replenish(ticks).issued as real + Replenish(ticks).overflow == Earned(ticks)
    decreases |ticks|
  {
    if |ticks| > 0 {
      var init := ticks[..|ticks| - 1];
      assert forall i :: 0 <= i < |init| ==> init[i] == ticks[i];
      NoLostDrops(init);
      NeverExceedsEarned(init);
    }
  }

  /** The drops issued never exceed the drops earned, and the carried
      fraction stays in [0, 1). */
  lemma {:induction false} NeverExceedsEarned(ticks: seq<Tick>)
    requires forall i :: 0 <= i < |ticks| ==> WellFormed(ticks[i])
    ensures Replenish(ticks).issued as real + Replenish(ticks).overflow <= Earned(ticks)
    ensures 0.0 <= Replenish(ticks).overflow < 1.0
    decreases |ticks|
  {
    if |ticks| > 0 {
      var init := ticks[..|ticks| - 1];
      assert forall i :: 0 <= i < |init| ==> init[i] == ticks[i];
      NeverExceedsEarned(init);
      var t := ticks[|ticks| - 1];
      var prev := Replenish(init);
      var d := Drops(t, prev.overflow);
      var s := ReplenishStep(t.maxDrops, 0, d);
      assert Replenish(ticks) == Totals(prev.issued + s.pushed, s.overflow, prev.capped || s.capped);
      assert Earned(ticks) == Earned(init) + Gain(t);
      assert d == Gain(t) + prev.overflow;
      assert WellFormed(t);
      assert d >= 0.0;
      assert s.pushed as real + s.overflow <= d;
    }
  }

  /** The exported configuration of a limiter. */
  datatype Config = Config(targetRate: real, dropTimeout: int, maxDrops: int, sleepInterval: int)

  /** The defaults of New: 1 drop per second, 150 ms drop timeout, at most
      1000 drops, a generator interval of 100 ms. */
  const Defaults := Config(1.0, 150 * Millisecond, 1_000, 100 * Millisecond)

  /** What the options guarantee of a configuration. */
  predicate ConfigOk(s: Config) {
    s.targetRate > 0.0 && s.sleepInterval > 0 && s.dropTimeout >= 0
  }

  /** The options of New. */
  datatype Opt =
    | WithDropTimeout(timeout: int)
    | WithMaxDropsAbsolute(drops: int)
    | WithMaxDropsInterval(interval: int)
    | WithSleepInterval(sleep: int)
    | WithTargetRate(rate: real)

  /** The capacity WithMaxDropsInterval sets: the whole drops the interval
      earns at the rate, but at least 1. */
  function IntervalDrops(rate: real, interval: int): (n: int)
    ensures n >= 1
    ensures rate * Seconds(interval) >= 1.0 ==>
      n as real <= rate * Seconds(interval) < n as real + 1.0
    ensures rate * Seconds(interval) < 2.0 ==> n == 1
  {
    Max(1, Trunc(rate * Seconds(interval)))
  }

  /** The effect of one option: the timeout is clamped at 0, the absolute
      maximum is taken as given, the interval maximum is the drops of that
      interval at the current rate but at least 1; a sleep interval or a
      rate that is not positive is refused. */
  function ApplyOpt(s: Config, o: Opt): (r: Result<Config>)
    ensures r.Err? <==> (o.WithSleepInterval? && o.sleep <= 0) || (o.WithTargetRate? && o.rate <= 0.0)
    ensures r.Err? && o.WithSleepInterval? ==> r.msg == ErrSleep
    ensures r.Err? && o.WithTargetRate? ==> r.msg == ErrRate
    ensures r.Ok? && ConfigOk(s) ==> ConfigOk(r.value)
    ensures o.WithDropTimeout? ==> r == Ok(s.(dropTimeout := if o.timeout < 0 then 0 else o.timeout))
    ensures o.WithMaxDropsAbsolute? ==> r == Ok(s.(maxDrops := o.drops))
    ensures o.WithMaxDropsInterval? ==> r == Ok(s.(maxDrops := IntervalDrops(s.targetRate, o.interval)))
    ensures r.Ok? && o.WithSleepInterval? ==> r.value == s.(sleepInterval := o.sleep)
    ensures r.Ok? && o.WithTargetRate? ==> r.value == s.(targetRate := o.rate)
  {
    match o
    case WithDropTimeout(d) => Ok(s.(dropTimeout := Max(0, d)))
    case WithMaxDropsAbsolute(d) => Ok(s.(maxDrops := d))
    case WithMaxDropsInterval(d) => Ok(s.(maxDrops := IntervalDrops(s.targetRate, d)))
    case WithSleepInterval(i) => if i <= 0 then Err(ErrSleep) else Ok(s.(sleepInterval := i))
    case WithTargetRate(r) => if r <= 0.0 then Err(ErrRate) else Ok(s.(targetRate := r))
  }

  /** Every configuration New accepts has a positive rate and interval and a
      non-negative timeout. */
  lemma {:induction false} ConfigureOk(s: Config, opts: seq<Opt>)
    requires ConfigOk(s)
    requires Options.Configure(ApplyOpt, s, opts).Ok?
    ensures ConfigOk(Options.Configure(ApplyOpt, s, opts).value)
    decreases |opts|
  {
    if |opts| > 0 {
      ConfigureOk(ApplyOpt(s, opts[0]).value, opts[1..]);
    }
  }

  /** The lifecycle of the generator. */
  datatype Phase = Unstarted | Running | Stopped

  class LocalLimit {
    var targetRate: real
    var dropTimeout: int
    var maxDrops: int
    var sleepInterval: int
    var overflow: real
    /** dropStarted together with dropStartOnce: the generator was launched. */
    var started: bool
    /** The stop marker. */
    var stop: bool
    /** The generator saw the stop marker and left its loop. */
    var exited: bool
    /** Drops of the current batch not yet received. */
    var pending: nat

    /** The iterations the generator made so far. */
    ghost var ticks: seq<Tick>
    /** Drops sent by the generator, and drops received by Limit. */
    ghost var issued: nat
    ghost var consumed: nat
    /** How often the generator was launched, and how often Limit was called. */
    ghost var launches: nat
    ghost var calls: nat

    function Settings(): Config
      reads this
    {
      Config(targetRate, dropTimeout, maxDrops, sleepInterval)
    }

    function Phase(): Phase
      reads this
    {
      if !started then Unstarted else if exited then Stopped else Running
    }

    ghost predicate Valid()
      reads this
    {
      && ConfigOk(Settings())
      && (forall i :: 0 <= i < |ticks| ==> WellFormed(ticks[i]))
      && Replenish(ticks).issued == issued
      && Replenish(ticks).overflow == overflow
      && consumed + pending == issued
      && launches == (if started then 1 else 0)
      && (!started ==> |ticks| == 0 && !exited)
      && (exited ==> stop && pending == 0)
    }

    /** The struct literal of New, with the default settings. */
    constructor ()
      ensures Valid() && Settings() == Defaults && Phase() == Unstarted
      ensures !stop && pending == 0 && overflow == 0.0 && consumed == 0
    {
      targetRate := Defaults.targetRate;
      dropTimeout := Defaults.dropTimeout;
      maxDrops := Defaults.maxDrops;
      sleepInterval := Defaults.sleepInterval;
      overflow := 0.0;
      started := false;
      stop := false;
      exited := false;
      pending := 0;
      ticks := [];
      issued := 0;
      consumed := 0;
      launches := 0;
      calls := 0;
    }

    /** Applies one option, as ApplyOpt describes; nothing but the settings changes. */
    method Apply(o: Opt) returns (err: Option<string>)
      requires Valid()
      modifies this
      ensures Valid()
      ensures ApplyOpt(old(Settings()), o) == (if err.None? then Ok(Settings()) else Err(err.value))
      ensures overflow == old(overflow) && started == old(started) && stop == old(stop)
      ensures exited == old(exited) && pending == old(pending)
      ensures ticks == old(ticks) && issued == old(issued) && consumed == old(consumed) && launches == old(launches)
      ensures calls == old(calls)
    {
      match o
      case WithDropTimeout(d) =>
        dropTimeout := Max(0, d);
        err := None;
      case WithMaxDropsAbsolute(d) =>
        maxDrops := d;
        err := None;
      case WithMaxDropsInterval(d) =>
        maxDrops := IntervalDrops(targetRate, d);
        err := None;

      case WithSleepInterval(i) =>
        if i <= 0 {
          return Some(ErrSleep);
        }
        sleepInterval := i;
        err := None;
      case WithTargetRate(r) =>
        if r <= 0.0 {
          return Some(ErrRate);
        }
        targetRate := r;
        err := None;
    }

    /** New: the defaults, then the options in order; the first failing
        option aborts with its error. The generator is not started. */
    static method New(opts: seq<Opt>) returns (r: Result<LocalLimit>)
      ensures r.Ok? <==> Options.Configure(ApplyOpt, Defaults, opts).Ok?
      ensures r.Err? ==> Options.Configure(ApplyOpt, Defaults, opts) == Err(r.msg)
      ensures r.Ok? ==> fresh(r.value) && r.value.Valid() && r.value.Phase() == Unstarted
      ensures r.Ok? ==> r.value.Settings() == Options.Configure(ApplyOpt, Defaults, opts).value
      ensures r.Ok? ==> ConfigOk(r.value.Settings()) && !r.value.stop && r.value.pending == 0
    {
      var l := new LocalLimit();
      var i := 0;
      while i < |opts|
        invariant 0 <= i <= |opts|
        invariant fresh(l) && l.Valid() && l.Phase() == Unstarted && !l.stop && l.pending == 0
        invariant Options.Configure(ApplyOpt, Defaults, opts) == Options.Configure(ApplyOpt, l.Settings(), opts[i..])
      {
        assert opts[i..][1..] == opts[i + 1..];
        var err := l.Apply(opts[i]);
        if err.Some? {
          return Err(err.value);
        }
        i := i + 1;
      }
      return Ok(l);
    }

    /** Limit: the first call launches the generator (only ever once); the
        call is admitted exactly when a drop is pending, and then takes
        exactly one. Otherwise no drop arrives within DropTimeout. */
    method Limit() returns (dropped: bool)
      requires Valid()
      modifies this
      ensures Valid()
      ensures dropped <==> old(pending) > 0
      ensures pending == (if dropped then old(pending) - 1 else old(pending))
      ensures consumed == old(consumed) + (if dropped then 1 else 0)
      ensures started && launches == 1
      ensures Phase() == (if old(Phase()) == Unstarted then Running else old(Phase()))
      ensures old(Phase()) == Stopped ==> !dropped
      ensures consumed as real <= Earned(ticks)
      ensures Settings() == old(Settings()) && overflow == old(overflow) && stop == old(stop)
      ensures ticks == old(ticks) && issued == old(issued) && calls == old(calls) + 1
    {
      calls := calls + 1;
      if !started {
        started := true;
        launches := launches + 1;
      }
      if pending > 0 {
        pending := pending - 1;
        consumed := consumed + 1;
        dropped := true;
      } else {
        dropped := false;
      }
      NeverExceedsEarned(ticks);
    }

    /** Stop: only the stop marker is set. */
    method Stop()
      requires Valid()
      modifies this
      ensures Valid() && stop && Phase() == old(Phase())
      ensures Settings() == old(Settings()) && overflow == old(overflow) && started == old(started)
      ensures exited == old(exited) && pending == old(pending)
      ensures ticks == old(ticks) && issued == old(issued) && consumed == old(consumed) && launches == old(launches)
      ensures calls == old(calls)
    {
      stop := true;
    }

    /** One pass of the generator loop, elapsed seconds after the previous
        one: if the stop marker is set the generator leaves the loop;
        otherwise it sends one batch (ReplenishStep with an empty channel)
        and keeps the new overflow. */
    method Step(elapsed: real) returns (progressed: bool)
      requires Valid() && Phase() == Running && pending == 0 && elapsed >= 0.0
      modifies this
      ensures Valid()
      ensures progressed <==> !old(stop)
      ensures Phase() == (if progressed then Running else Stopped)
      ensures !progressed ==> ticks == old(ticks) && issued == old(issued) && overflow == old(overflow)
      ensures progressed ==>
        var s := ReplenishStep(maxDrops, 0, Drops(Tick(targetRate, maxDrops, elapsed), old(overflow)));
        && pending == s.pushed && overflow == s.overflow
        && issued == old(issued) + s.pushed
        && ticks == old(ticks) + [Tick(targetRate, maxDrops, elapsed)]
      ensures pending <= Max(0, maxDrops)
      ensures 0.0 <= overflow < 1.0
      ensures Settings() == old(Settings()) && consumed == old(consumed) && stop == old(stop)
      ensures started == old(started) && launches == old(launches) && calls == old(calls)
    {
      if stop {
        exited := true;
        NeverExceedsEarned(ticks);
        return false;
      }
      var s := ReplenishStep(maxDrops, 0, Drops(Tick(targetRate, maxDrops, elapsed), overflow));
      var k := 0;
      while k < s.pushed
        invariant 0 <= k <= s.pushed
        invariant pending == k && issued == old(issued) + k
        invariant Settings() == old(Settings()) && overflow == old(overflow) && ticks == old(ticks)
        invariant started == old(started) && stop == old(stop) && exited == old(exited)
        invariant consumed == old(consumed) && launches == old(launches) && calls == old(calls)
      {
        pending := pending + 1;
        issued := issued + 1;
        k := k + 1;
      }
      overflow := s.overflow;
      ghost var t := Tick(targetRate, maxDrops, elapsed);
      assert (old(ticks) + [t])[..|old(ticks)|] == old(ticks);
      ticks := ticks + [t];
      NeverExceedsEarned(ticks);
      return true;
    }
  }

  /** A limiter stopped before its first Limit call: the generator launched
      by that call leaves its loop before a single iteration, and Limit is
      refused. */
  method StoppedBeforeStart(l: LocalLimit, elapsed: real) returns (dropped: bool, progressed: bool)
    requires l.Valid() && l.Phase() == Unstarted && elapsed >= 0.0
    modifies l
    ensures !dropped && !progressed
    ensures l.Phase() == Stopped && l.ticks == [] && l.issued == 0
  {
    l.Stop();
    dropped := l.Limit();
    progressed := l.Step(elapsed);
  }
}
