/** The correlation ID middleware (package correlation): a request without
    an X-Correlation-ID gets a fresh one on request and response alike; a
    supplied one is echoed on the response. The fresh UUID (or its failure)
    is a parameter of ServeHTTP. */
module Correlation {
  import opened Wrappers
  import opened Http
  import opened Util
  import opened Defs
  import Options

  const ErrNilOption := "options cannot be nil"
  const CorrelationHeader := "X-Correlation-ID"

  /** The configurable state of a Handler: its MWBase. */
  datatype Config = Config(log: Option<Logger>, logLevel: int)

  const Zero := Config(None, LevelInfo)

  datatype Opt =
    | WithLogger(l: Option<Logger>)
    | WithLogLevel(level: int)
    | NilOption

  function ApplyOpt(c: Config, o: Opt): (r: Result<Config>)
    ensures r.Err? <==> o.NilOption? || (o.WithLogger? && o.l.None?)
    ensures r.Err? ==> r.msg == if o.NilOption? then ErrNilOption else ErrNilLogger
    ensures r.Ok? && o.WithLogger? ==> r.value == c.(log := o.l)
    ensures o.WithLogLevel? ==> r == Ok(c.(logLevel := o.level))
  {
    match o
    case WithLogger(l) => if l.None? then Err(ErrNilLogger) else Ok(c.(log := l))
    case WithLogLevel(level) => Ok(c.(logLevel := level))
    case NilOption => Err(ErrNilOption)
  }

  /** New succeeds exactly when no option is nil and no logger option is
      nil. */
  lemma {:induction false} ConfigureOkIff(c: Config, opts: seq<Opt>)
    ensures Options.Configure(ApplyOpt, c, opts).Ok? <==>
      forall i :: 0 <= i < |opts| ==> !opts[i].NilOption? && !(opts[i].WithLogger? && opts[i].l.None?)
    decreases |opts|
  {
    if |opts| > 0 {
      var rest := opts[1..];
      assert forall i :: 1 <= i < |opts| ==> opts[i] == rest[i - 1];
      if ApplyOpt(c, opts[0]).Ok? {
        ConfigureOkIff(ApplyOpt(c, opts[0]).value, rest);
      }
    }
  }

  /** A nil option after options that succeeded makes New fail with
      "options cannot be nil". */
  lemma NilOptionFails(opts: seq<Opt>, i: nat)
    requires i < |opts| && opts[i].NilOption?
    requires Options.Configure(ApplyOpt, Zero, opts[..i]).Ok?
    ensures Options.Configure(ApplyOpt, Zero, opts) == Err(ErrNilOption)
  {
    Options.FirstFailure(ApplyOpt, Zero, opts, i);
  }

  class Handler {
    const base: MWBase

    constructor ()
      ensures fresh(base) && State() == Zero && base.next == None
    {
      base := new MWBase();
    }

    function State(): Config
      reads this, base
    {
      Config(base.log, base.logLevel)
    }

    method Apply(o: Opt) returns (err: Option<string>)
      modifies base
      ensures ApplyOpt(old(State()), o) == (if err.None? then Ok(State()) else Err(err.value))
      ensures base.next == old(base.next)
    {
      match o
      case WithLogger(l) => err := Defs.WithLogger(base, l);
      case WithLogLevel(level) => err := Defs.WithLogLevel(base, level);
      case NilOption => err := Some(ErrNilOption);
    }

    /** New: options in order; the first nil or failing one aborts. */
    static method New(opts: seq<Opt>) returns (r: Result<Handler>)
      ensures r.Ok? <==> Options.Configure(ApplyOpt, Zero, opts).Ok?
      ensures r.Err? ==> Options.Configure(ApplyOpt, Zero, opts) == Err(r.msg)
      ensures r.Ok? ==> fresh(r.value) && fresh(r.value.base)
      ensures r.Ok? ==> r.value.State() == Options.Configure(ApplyOpt, Zero, opts).value && r.value.base.next == None
    {
      var h := new Handler();
      var i := 0;
      while i < |opts|
        invariant 0 <= i <= |opts|
        invariant fresh(h) && fresh(h.base) && h.base.next == None
        invariant Options.Configure(ApplyOpt, Zero, opts) == Options.Configure(ApplyOpt, h.State(), opts[i..])
      {
        assert opts[i..][1..] == opts[i + 1..];
        if opts[i].NilOption? {
          return Err(ErrNilOption);
        }
        var err := h.Apply(opts[i]);
        if err.Some? {
          return Err(err.value);
        }
        i := i + 1;
      }
      return Ok(h);
    }

    /** The middleware New returns, applied to next: the handler itself, or
        nil when next is nil. */
    method Middleware(next: Option<HandlerId>) returns (r: Handler?)
      modifies base
      ensures next.None? ==> r == null && unchanged(base)
      ensures next.Some? ==> r == this && base.next == next
      ensures base.log == old(base.log) && base.logLevel == old(base.logLevel)
    {
      var err := MWBase.SetNext(base, next);
      if err.Some? {
        return null;
      }
      return this;
    }

    /** ServeHTTP: a nil handler answers 500 and a nil request 400; every
        other request is forwarded. Without an ID the generated UUID, or
        "n/a" when none was generated, is set on request and response alike; a supplied ID is copied to the response
        and the request is left as it was. */
    static method ServeHTTP(h: Handler?, w: Header, r: Option<Request>, generated: Option<UuidText>) returns (o: Outcome)
      ensures h == null ==> o == Reply(WriteState(w, StatusInternalServerError))
      ensures h != null && r.None? ==> o == Reply(WriteState(w, StatusBadRequest))
      ensures h != null && r.Some? ==> o.Forward?
      ensures o.Forward? ==>
        && r.Some?
        && var id := Get(r.value.header, CorrelationHeader);
        && var sent := Get(o.header, CorrelationHeader);
        && sent != ""
        && o.header == Set(w, CorrelationHeader, sent)
        && Get(o.request.header, CorrelationHeader) == sent
        && o.request.verb == r.value.verb && o.request.host == r.value.host
        && (id != "" ==> sent == id && o.request == r.value)
        && (id == "" ==> o.request.header == Set(r.value.header, CorrelationHeader, sent)
                         && (sent == "n/a" <==> generated.None?)
                         && (generated.Some? ==> sent == generated.value)
                         && (generated.None? ==> sent == "n/a"))
    {
      var intro := IntroCheck(h != null, r, w);
      if intro.Some? {
        return Reply(intro.value);
      }
      var req := r.value;
      var correlationID := Get(req.header, CorrelationHeader);
      if correlationID == "" {
        var tmp := GetOrCreateID("", generated);
        req := req.(header := Set(req.header, CorrelationHeader, tmp));
        return Forward(req, Set(w, CorrelationHeader, tmp));
      }
      return Forward(req, Set(w, CorrelationHeader, correlationID));
    }
  }
}
