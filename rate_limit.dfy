/** The rate limiting middleware of package rate_limit: every request takes
    one Limit decision of the limiter; refused requests get 429. The limiter
    is the process-local LocalLimit. */
module RateLimit {
  import opened Wrappers
  import opened Http
  import opened Util
  import opened Defs
  import Options
  import LocalLimit

  const ErrNilOption := "options cannot be nil"
  const ErrInvalidLimiter := "invalid limiter (nil)"

  /** The configurable state of a Handler. */
  datatype Config = Config(limit: LocalLimit.LocalLimit?, log: Option<Logger>, logLevel: int)

  const Zero := Config(null, None, LevelInfo)

  datatype Opt =
    | WithLimiter(l: LocalLimit.LocalLimit?)
    | WithLogger(logger: Option<Logger>)
    | WithLogLevel(level: int)
    | NilOption

  /** The effect of one option: a nil limiter or logger is refused. */
  function ApplyOpt(c: Config, o: Opt): (r: Result<Config>)
    ensures r.Err? <==> o.NilOption? || (o.WithLimiter? && o.l == null) || (o.WithLogger? && o.logger.None?)
    ensures r.Ok? && o.WithLimiter? ==> r.value.limit == o.l
    ensures r.Ok? && !o.WithLimiter? ==> r.value.limit == c.limit
    ensures o.WithLimiter? && o.l == null ==> r == Err(ErrInvalidLimiter)
    ensures o.NilOption? ==> r == Err(ErrNilOption)
    ensures o.WithLogger? && o.logger.None? ==> r == Err(ErrNilLogger)
    ensures r.Ok? && o.WithLimiter? ==> r.value == c.(limit := o.l)
    ensures r.Ok? && o.WithLogger? ==> r.value == c.(log := o.logger)
    ensures o.WithLogLevel? ==> r == Ok(c.(logLevel := o.level))
  {
    match o
    case WithLimiter(l) => if l == null then Err(ErrInvalidLimiter) else Ok(c.(limit := l))
    case WithLogger(l) => if l.None? then Err(ErrNilLogger) else Ok(c.(log := l))
    case WithLogLevel(level) => Ok(c.(logLevel := level))
    case NilOption => Err(ErrNilOption)
  }

  /** What New builds: a limiter is mandatory. */
  function Build(opts: seq<Opt>): (r: Result<Config>)
    ensures r.Ok? ==> r.value.limit != null
    ensures r.Ok? <==> Options.Configure(ApplyOpt, Zero, opts).Ok? && Options.Configure(ApplyOpt, Zero, opts).value.limit != null
    ensures Options.Configure(ApplyOpt, Zero, opts).Ok? && Options.Configure(ApplyOpt, Zero, opts).value.limit == null ==>
      r == Err(ErrInvalidLimiter)
  {
    match Options.Configure(ApplyOpt, Zero, opts)
    case Err(e) => Err(e)
    case Ok(c) => if c.limit == null then Err(ErrInvalidLimiter) else Ok(c)
  }

  /** Options that do not set a limiter leave the limiter as it was. */
  lemma {:induction false} ConfigureKeepsLimiter(c: Config, opts: seq<Opt>)
    requires forall i :: 0 <= i < |opts| ==> !opts[i].WithLimiter?
    requires Options.Configure(ApplyOpt, c, opts).Ok?
    ensures Options.Configure(ApplyOpt, c, opts).value.limit == c.limit
    decreases |opts|
  {
    if |opts| > 0 {
      ConfigureKeepsLimiter(ApplyOpt(c, opts[0]).value, opts[1..]);
    }
  }

  /** Without a limiter option New fails, with the invalid-limiter error
      when the options themselves succeed. */
  lemma NoLimiterFails(opts: seq<Opt>)
    requires forall i :: 0 <= i < |opts| ==> !opts[i].WithLimiter?
    ensures Build(opts).Err?
    ensures Options.Configure(ApplyOpt, Zero, opts).Ok? ==> Build(opts) == Err(ErrInvalidLimiter)
  {
    if Options.Configure(ApplyOpt, Zero, opts).Ok? {
      ConfigureKeepsLimiter(Zero, opts);
    }
  }

  /** A nil option after options that succeeded makes New fail with
      "options cannot be nil". */
  lemma NilOptionFails(opts: seq<Opt>, i: nat)
    requires i < |opts| && opts[i].NilOption?
    requires Options.Configure(ApplyOpt, Zero, opts[..i]).Ok?
    ensures Build(opts) == Err(ErrNilOption)
  {
    Options.FirstFailure(ApplyOpt, Zero, opts, i);
  }

  class Handler {
    const base: MWBase
    var limit: LocalLimit.LocalLimit?

    constructor ()
      ensures fresh(base) && State() == Zero && base.next == None
    {
      base := new MWBase();
      limit := null;
    }

    function State(): Config
      reads this, base
    {
      Config(limit, base.log, base.logLevel)
    }

    method Apply(o: Opt) returns (err: Option<string>)
      modifies this, base
      ensures ApplyOpt(old(State()), o) == (if err.None? then Ok(State()) else Err(err.value))
      ensures base.next == old(base.next)
    {
      match o
      case WithLimiter(l) =>
        if l == null {
          return Some(ErrInvalidLimiter);
        }
        limit := l;
        err := None;
      case WithLogger(l) => err := Defs.WithLogger(base, l);
      case WithLogLevel(level) => err := Defs.WithLogLevel(base, level);
      case NilOption => err := Some(ErrNilOption);
    }

    /** New: options in order, the first nil or failing one aborts; then a
        limiter is demanded. */
    static method New(opts: seq<Opt>) returns (r: Result<Handler>)
      ensures r.Ok? <==> Build(opts).Ok?
      ensures r.Err? ==> Build(opts) == Err(r.msg)
      ensures r.Ok? ==> fresh(r.value) && fresh(r.value.base)
      ensures r.Ok? ==> r.value.State() == Build(opts).value && r.value.base.next == None
    {
      var h := new Handler();
      var i := 0;
      while i < |opts|
        invariant 0 <= i <= |opts|
        invariant fresh(h) && fresh(h.base) && h.base.next == None
        invariant Options.Configure(ApplyOpt, Zero, opts) == Options.Configure(ApplyOpt, h.State(), opts[i..])
      {
        assert opts[i..][1..] == opts[i + 1..];
        if opts[i].NilOption? {
          return Err(ErrNilOption);
        }
        var err := h.Apply(opts[i]);
        if err.Some? {
          return Err(err.value);
        }
        i := i + 1;
      }
      if h.limit == null {
        return Err(ErrInvalidLimiter);
      }
      return Ok(h);
    }

    /** The middleware New returns, applied to next: the handler itself, or
        nil when next is nil. */
    method Middleware(next: Option<HandlerId>) returns (r: Handler?)
      modifies base
      ensures next.None? ==> r == null && unchanged(base)
      ensures next.Some? ==> r == this && base.next == next
      ensures base.log == old(base.log) && base.logLevel == old(base.logLevel)
    {
      var err := MWBase.SetNext(base, next);
      if err.Some? {
        return null;
      }
      return this;
    }

    /** ServeHTTP: a nil handler answers 500 and a nil request 400, without
        asking the limiter; otherwise Limit is called exactly once, and the
        request is forwarded untouched if it was admitted, or answered with
        429 if not. The handler must hold a limiter, as New guarantees. */
    static method ServeHTTP(h: Handler?, w: Header, r: Option<Request>) returns (o: Outcome)
      requires h != null ==> h.limit != null && h.limit.Valid()
      modifies if h != null then {h.limit} else {}
      ensures h == null ==> o == Reply(WriteState(w, StatusInternalServerError))
      ensures h != null && r.None? ==> o == Reply(WriteState(w, StatusBadRequest)) && unchanged(h.limit)
      ensures h != null && r.Some? ==>
        && h.limit.Valid()
        && h.limit.calls == old(h.limit.calls) + 1
        && (o.Forward? <==> old(h.limit.pending) > 0)
        && (o.Forward? ==> o == Forward(r.value, w) && h.limit.consumed == old(h.limit.consumed) + 1)
        && (o.Reply? ==> o == Reply(WriteState(w, StatusTooManyRequests)) && h.limit.consumed == old(h.limit.consumed))
    {
      var intro := IntroCheck(h != null, r, w);
      if intro.Some? {
        return Reply(intro.value);
      }
      var admitted := h.limit.Limit();
      if !admitted {
        return Reply(WriteState(w, StatusTooManyRequests));
      }
      return Forward(r.value, w);
    }
  }
}
