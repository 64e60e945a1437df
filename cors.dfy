/** The CORS middleware of package cors (cors.go): it admits requests from
    the configured origins, answers pre-flight OPTIONS requests with the
    configured methods and headers, and rejects methods and request headers
    outside the configured sets. */
module Cors {
  import opened Wrappers
  import opened Http
  import opened Util
  import opened Defs
  import Options

  const ErrNilOption := "options cannot be nil"
  const ErrNoOrigin := "no origin in header"
  const ErrOriginNotAllowed := "origin not allowed"

  const Wildcard := "*"
  const AllowOrigin := "Access-Control-Allow-Origin"
  const AllowMethods := "Access-Control-Allow-Methods"
  const AllowHeaders := "Access-Control-Allow-Headers"

  /** The headers that should do no harm. */
  const MinimumHeaders: seq<string> := [
    "Accept", "Accept-Encoding", "Authorization", "Content-Length",
    "Content-Type", "Origin", "User-Agent", "X-CSRF-Token"
  ]

  /** MinimumAllowHeaders: a new list holding the minimal headers, so that a
      caller changing it does not change the defaults. */
  method MinimumAllowHeaders() returns (a: array<string>)
    ensures fresh(a) && a[..] == MinimumHeaders
  {
    a := new string[|MinimumHeaders|](i requires 0 <= i < |MinimumHeaders| => MinimumHeaders[i]);
  }

  // ---------------------------------------------------------------------
  // Origin selection

  /** A request origin that may be echoed: non-empty and configured. */
  predicate Acceptable(orig: string, allowed: seq<string>) {
    |orig| > 0 && orig in allowed
  }

  /** Position i holds the first acceptable request origin. */
  predicate FirstAcceptable(origin: seq<string>, allowed: seq<string>, i: int) {
    0 <= i < |origin| && Acceptable(origin[i], allowed) &&
    forall j :: 0 <= j < i ==> !Acceptable(origin[j], allowed)
  }

  /** The search part of relevantOrigin: the first acceptable request
      origin, in request order. */
  function Scan(origin: seq<string>, allowed: seq<string>): (r: Result<string>)
    ensures r.Ok? <==> exists i :: 0 <= i < |origin| && Acceptable(origin[i], allowed)
    ensures r.Ok? ==> exists i :: FirstAcceptable(origin, allowed, i) && origin[i] == r.value
    ensures r.Err? ==> r.msg == ErrOriginNotAllowed
    decreases |origin|
  {
    if |origin| == 0 then Err(ErrOriginNotAllowed)
    else if Acceptable(origin[0], allowed) then Ok(origin[0])
    else
      var rest := Scan(origin[1..], allowed);
      assert forall i :: 1 <= i < |origin| ==> origin[i] == origin[1..][i - 1];
      if rest.Ok? then
        assert exists i :: FirstAcceptable(origin[1..], allowed, i) && origin[1..][i] == rest.value;
        var i :| FirstAcceptable(origin[1..], allowed, i) && origin[1..][i] == rest.value;
        assert FirstAcceptable(origin, allowed, i + 1);
        rest
      else rest
  }

  /** relevantOrigin: the wildcard list ["*"] admits every request as "*";
      otherwise the first acceptable request origin is the answer, which is
      always configured; no request origin, or no acceptable one, is an
      error. */
  function Relevant(origin: seq<string>, allowed: seq<string>): (r: Result<string>)
    ensures allowed == [Wildcard] ==> r == Ok(Wildcard)
    ensures r.Ok? ==> r.value in allowed
    ensures allowed != [Wildcard] ==>
      (r.Ok? <==> exists i :: 0 <= i < |origin| && Acceptable(origin[i], allowed))
    ensures allowed != [Wildcard] && r.Ok? ==>
      exists i :: FirstAcceptable(origin, allowed, i) && origin[i] == r.value
    ensures r.Err? ==> r.msg == if |origin| == 0 then ErrNoOrigin else ErrOriginNotAllowed
  {
    if allowed == [Wildcard] then Ok(Wildcard)
    else if |origin| == 0 then Err(ErrNoOrigin)
    else Scan(origin, allowed)
  }

  /** relevantOrigin as the source runs it: a search with early return. */
  method RelevantOrigin(origin: seq<string>, allowed: seq<string>) returns (r: Result<string>)
    ensures r == Relevant(origin, allowed)
  {
    if |allowed| == 1 && allowed[0] == Wildcard {
      assert allowed == [Wildcard];
      return Ok(Wildcard);
    }
    if |origin| == 0 {
      return Err(ErrNoOrigin);
    }
    var i := 0;
    while i < |origin|
      invariant 0 <= i <= |origin|
      invariant Scan(origin, allowed) == Scan(origin[i..], allowed)
    {
      assert origin[i..][1..] == origin[i + 1..];
      if |origin[i]| == 0 {
        i := i + 1;
        continue;
      }
      if origin[i] in allowed {
        return Ok(origin[i]);
      }
      i := i + 1;
    }
    return Err(ErrOriginNotAllowed);
  }

  /** The header check: every request header name, lower-cased, is in the
      allowed set. The names are visited in no particular order. */
  method HeadersAllowed(hdr: Header, allowed: set<string>) returns (ok: bool)
    ensures ok <==> forall k :: k in hdr ==> Lower(k) in allowed
  {
    var rest := hdr.Keys;
    while rest != {}
      invariant rest <= hdr.Keys
      invariant forall k :: k in hdr && k !in rest ==> Lower(k) in allowed
      decreases |rest|
    {
      var k :| k in rest;
      if Lower(k) !in allowed {
        return false;
      }
      rest := rest - {k};
    }
    return true;
  }

  // ---------------------------------------------------------------------
  // Configuration

  /** The configurable state of a Handler. */
  datatype Config = Config(
    headers: set<string>, headersReturn: string,
    methods: set<string>, methodsReturn: string,
    origins: seq<string>,
    log: Option<Logger>, logLevel: int)

  const Zero := Config({}, "", {}, "", [], None, LevelInfo)

  datatype Opt =
    | WithHeaders(hs: seq<string>)
    | WithMethods(ms: seq<string>)
    | WithOrigins(os: seq<string>)
    | WithLogger(l: Option<Logger>)
    | WithLogLevel(level: int)
    | NilOption

  /** One option. WithHeaders keeps the lower-cased names for the check and
      the names as given, joined by ", ", for the pre-flight answer;
      WithMethods keeps the methods and their joined list; WithOrigins
      replaces the origins; each of them replaces what was there before. */
  function ApplyOpt(c: Config, o: Opt): (r: Result<Config>)
    ensures r.Err? <==> o.NilOption? || (o.WithLogger? && o.l.None?)
    ensures r.Err? ==> r.msg == if o.NilOption? then ErrNilOption else ErrNilLogger
    ensures r.Ok? && o.WithLogger? ==> r.value == c.(log := o.l)
    ensures o.WithLogLevel? ==> r == Ok(c.(logLevel := o.level))
    ensures o.WithHeaders? ==> r == Ok(c.(headers := LowerElements(o.hs), headersReturn := Join(o.hs, ", ")))
    ensures o.WithMethods? ==> r == Ok(c.(methods := Elements(o.ms), methodsReturn := Join(o.ms, ", ")))
    ensures o.WithOrigins? ==> r == Ok(c.(origins := o.os))
  {
    match o
    case WithHeaders(hs) => Ok(c.(headers := LowerElements(hs), headersReturn := Join(hs, ", ")))
    case WithMethods(ms) => Ok(c.(methods := Elements(ms), methodsReturn := Join(ms, ", ")))
    case WithOrigins(os) => Ok(c.(origins := os))
    case WithLogger(l) => if l.None? then Err(ErrNilLogger) else Ok(c.(log := l))
    case WithLogLevel(level) => Ok(c.(logLevel := level))
    case NilOption => Err(ErrNilOption)
  }

  /** What New does after the options: no origins, or a wildcard among
      them, become the single wildcard. */
  function Normalized(c: Config): (r: Config)
    ensures |r.origins| > 0
    ensures Wildcard in r.origins ==> r.origins == [Wildcard]
    ensures |c.origins| > 0 && Wildcard !in c.origins ==> r == c
    ensures r.(origins := c.origins) == c
  {
    if |c.origins| == 0 || Wildcard in c.origins then c.(origins := [Wildcard]) else c
  }

  /** The configuration New builds. */
  function Build(opts: seq<Opt>): Result<Config> {
    match Options.Configure(ApplyOpt, Zero, opts)
    case Ok(c) => Ok(Normalized(c))
    case Err(e) => Err(e)
  }

  /** New fails exactly when an option is nil or a logger option is nil. */
  lemma {:induction false} ConfigureOkIff(c: Config, opts: seq<Opt>)
    ensures Options.Configure(ApplyOpt, c, opts).Ok? <==>
      forall i :: 0 <= i < |opts| ==> !opts[i].NilOption? && !(opts[i].WithLogger? && opts[i].l.None?)
    decreases |opts|
  {
    if |opts| > 0 {
      var rest := opts[1..];
      assert forall i :: 1 <= i < |opts| ==> opts[i] == rest[i - 1];
      if ApplyOpt(c, opts[0]).Ok? {
        ConfigureOkIff(ApplyOpt(c, opts[0]).value, rest);
      }
    }
  }

  /** A nil option after options that succeeded makes New fail with
      "options cannot be nil". */
  lemma NilOptionFails(opts: seq<Opt>, i: nat)
    requires i < |opts| && opts[i].NilOption?
    requires Options.Configure(ApplyOpt, Zero, opts[..i]).Ok?
    ensures Build(opts) == Err(ErrNilOption)
  {
    Options.FirstFailure(ApplyOpt, Zero, opts, i);
  }

  /** The last WithHeaders option wins: the header set is its lower-cased
      names, whatever came before. */
  lemma LastHeadersWin(a: seq<Opt>, hs: seq<string>)
    requires Options.Configure(ApplyOpt, Zero, a).Ok?
    ensures Build(a + [WithHeaders(hs)]).Ok?
    ensures Build(a + [WithHeaders(hs)]).value.headers == LowerElements(hs)
    ensures Build(a + [WithHeaders(hs)]).value.headersReturn == Join(hs, ", ")
  {
    Options.ConfigureAppend(ApplyOpt, Zero, a, [WithHeaders(hs)]);
    var c := Options.Configure(ApplyOpt, Zero, a).value;
    assert Options.Configure(ApplyOpt, c, [WithHeaders(hs)]) == ApplyOpt(c, WithHeaders(hs));
  }

  /** After New, an empty or wildcard origin list admits every request
      origin as "*", and a list without the wildcard admits exactly the
      requests carrying one of its origins. */
  lemma NormalizedOrigins(c: Config, origin: seq<string>)
    ensures |c.origins| == 0 || Wildcard in c.origins ==>
      Relevant(origin, Normalized(c).origins) == Ok(Wildcard)
    ensures |c.origins| > 0 && Wildcard !in c.origins ==>
      (Relevant(origin, Normalized(c).origins).Ok? <==>
        exists i :: 0 <= i < |origin| && Acceptable(origin[i], c.origins))
  {
    if |c.origins| > 0 && Wildcard !in c.origins {
      assert c.origins != [Wildcard];
    }
  }

  // ---------------------------------------------------------------------
  // The handler

  class Handler {
    const base: MWBase
    var headers: set<string>
    var headersReturn: string
    var methods: set<string>
    var methodsReturn: string
    var origins: seq<string>

    constructor ()
      ensures fresh(base) && State() == Zero && base.next == None
    {
      base := new MWBase();
      headers := {};
      headersReturn := "";
      methods := {};
      methodsReturn := "";
      origins := [];
    }

    function State(): Config
      reads this, base
    {
      Config(headers, headersReturn, methods, methodsReturn, origins, base.log, base.logLevel)
    }

    /** Applies one option; the header and method sets are built entry by
        entry and then replace the old ones. */
    method Apply(o: Opt) returns (err: Option<string>)
      modifies this, base
      ensures ApplyOpt(old(State()), o) == (if err.None? then Ok(State()) else Err(err.value))
      ensures base.next == old(base.next)
    {
      match o
      case WithHeaders(hs) =>
        var m: set<string> := {};
        var i := 0;
        while i < |hs|
          invariant 0 <= i <= |hs|
          invariant forall x :: x in m <==> exists j :: 0 <= j < i && Lower(hs[j]) == x
        {
          m := m + {Lower(hs[i])};
          i := i + 1;
        }
        assert m == LowerElements(hs);
        headers := m;
        headersReturn := Join(hs, ", ");
        err := None;
      case WithMethods(ms) =>
        var m: set<string> := {};
        var i := 0;
        while i < |ms|
          invariant 0 <= i <= |ms|
          invariant forall x :: x in m <==> x in ms[..i]
        {
          m := m + {ms[i]};
          i := i + 1;
        }
        assert ms[..i] == ms;
        assert m == Elements(ms);
        methods := m;
        methodsReturn := Join(ms, ", ");
        err := None;
      case WithOrigins(os) =>
        origins := os;
        err := None;
      case WithLogger(l) => err := Defs.WithLogger(base, l);
      case WithLogLevel(level) => err := Defs.WithLogLevel(base, level);
      case NilOption => err := Some(ErrNilOption);
    }

    /** New: options in order, the first nil or failing one aborts; then the
        origins are normalised. */
    static method New(opts: seq<Opt>) returns (r: Result<Handler>)
      ensures r.Ok? <==> Build(opts).Ok?
      ensures r.Err? ==> Build(opts) == Err(r.msg)
      ensures r.Ok? ==> fresh(r.value) && fresh(r.value.base)
      ensures r.Ok? ==> r.value.State() == Build(opts).value && r.value.base.next == None
    {
      var h := new Handler();
      var i := 0;
      while i < |opts|
        invariant 0 <= i <= |opts|
        invariant fresh(h) && fresh(h.base) && h.base.next == None
        invariant Options.Configure(ApplyOpt, Zero, opts) == Options.Configure(ApplyOpt, h.State(), opts[i..])
      {
        assert opts[i..][1..] == opts[i + 1..];
        if opts[i].NilOption? {
          return Err(ErrNilOption);
        }
        var err := h.Apply(opts[i]);
        if err.Some? {
          return Err(err.value);
        }
        i := i + 1;
      }
      if |h.origins| == 0 || Wildcard in h.origins {
        var _ := h.Apply(WithOrigins([Wildcard]));
      }
      return Ok(h);
    }

    /** The middleware New returns, applied to next: the handler itself, or
        nil when next is nil. */
    method Middleware(next: Option<HandlerId>) returns (r: Handler?)
      modifies base
      ensures next.None? ==> r == null && unchanged(base)
      ensures next.Some? ==> r == this && base.next == next
      ensures base.log == old(base.log) && base.logLevel == old(base.logLevel)
    {
      var err := MWBase.SetNext(base, next);
      if err.Some? {
        return null;
      }
      return this;
    }

    /** ServeHTTP. A nil handler answers 500 and a nil request 400. A
        request without a relevant origin gets 403. Otherwise the relevant
        origin is set as Access-Control-Allow-Origin, and: a pre-flight
        OPTIONS request gets 200 with the joined methods and headers; a
        method outside a non-empty method set gets 405; a request header
        whose lower-cased name is outside a non-empty header set gets 403;
        any other request is forwarded. */
    static method ServeHTTP(h: Handler?, w: Header, r: Option<Request>) returns (o: Outcome)
      ensures h == null ==> o == Reply(WriteState(w, StatusInternalServerError))
      ensures h != null && r.None? ==> o == Reply(WriteState(w, StatusBadRequest))
      ensures h != null && r.Some? ==>
        var req := r.value;
        var ro := Relevant(Values(req.header, "Origin"), h.origins);
        var w1 := if ro.Ok? then Set(w, AllowOrigin, ro.value) else w;
        && (ro.Err? ==> o == Reply(WriteState(w, StatusForbidden)))
        && (o.Forward? <==>
              && ro.Ok?
              && req.verb != MethodOptions
              && (|h.methods| == 0 || req.verb in h.methods)
              && (|h.headers| == 0 || forall k :: k in req.header ==> Lower(k) in h.headers))
        && (o.Forward? ==> o == Forward(req, w1))
        && (ro.Ok? && req.verb == MethodOptions ==>
              o == Reply(Response(StatusOK, Set(Set(w1, AllowMethods, h.methodsReturn), AllowHeaders, h.headersReturn), NoBody)))
        && (ro.Ok? && req.verb != MethodOptions && |h.methods| > 0 && req.verb !in h.methods ==>
              o == Reply(WriteState(w1, StatusMethodNotAllowed)))
        && (o.Reply? && ro.Ok? && req.verb != MethodOptions && (|h.methods| == 0 || req.verb in h.methods) ==>
              o == Reply(WriteState(w1, StatusForbidden)))
    {
      var intro := IntroCheck(h != null, r, w);
      if intro.Some? {
        return Reply(intro.value);
      }
      var req := r.value;
      var ro := RelevantOrigin(Values(req.header, "Origin"), h.origins);
      if ro.Err? {
        return Reply(WriteState(w, StatusForbidden));
      }
      var w1 := Set(w, AllowOrigin, ro.value);
      if req.verb == MethodOptions {
        return Reply(Response(StatusOK, Set(Set(w1, AllowMethods, h.methodsReturn), AllowHeaders, h.headersReturn), NoBody));
      }
      if |h.methods| > 0 && req.verb !in h.methods {
        return Reply(WriteState(w1, StatusMethodNotAllowed));
      }
      if |h.headers| > 0 {
        var ok := HeadersAllowed(req.header, h.headers);
        if !ok {
          return Reply(WriteState(w1, StatusForbidden));
        }
      }
      return Forward(req, w1);
    }
  }

  /** A forwarded request carries an Access-Control-Allow-Origin that is
      either the wildcard or one of the request's own, configured origins. */
  lemma ForwardedOrigin(origins: seq<string>, req: Request)
    requires Relevant(Values(req.header, "Origin"), origins).Ok?
    ensures var v := Relevant(Values(req.header, "Origin"), origins).value;
      v in origins && (v == Wildcard || v in Values(req.header, "Origin"))
  {
  }
}
