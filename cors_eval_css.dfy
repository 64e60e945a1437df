/** The older CORS middleware of package cors (eval_css.go): a value handler
    with exact, case-sensitive header names, an unconditional method check
    and default allowed headers. Its origin selection is the same search as
    in cors.go and is taken from module Cors. */
module CorsEvalCss {
  import opened Wrappers
  import opened Http
  import Options
  import Cors

  /** The headers allowed when none are configured. */
  const DefaultAllowHeaders: seq<string> := [
    "Accept", "Accept-Encoding", "Authorization", "Content-Length",
    "Content-Type", "Origin", "X-CSRF-Token"
  ]

  /** fmt's %v of a list of strings: the elements between brackets,
      separated by single blanks. */
  function FormatList(xs: seq<string>): string {
    "[" + Join(xs, " ") + "]"
  }

  /** The header check: the first request header name outside the allowed
      set, compared exactly; the names are visited in no particular order. */
  method FirstDisallowed(hdr: Header, allowed: set<string>) returns (bad: Option<string>)
    ensures bad.None? <==> forall k :: k in hdr ==> k in allowed
    ensures bad.Some? ==> bad.value in hdr && bad.value !in allowed
  {
    var rest := hdr.Keys;
    while rest != {}
      invariant rest <= hdr.Keys
      invariant forall k :: k in hdr && k !in rest ==> k in allowed
      decreases |rest|
    {
      var k :| k in rest;
      if k !in allowed {
        return Some(k);
      }
      rest := rest - {k};
    }
    return None;
  }

  /** The configurable state of an EvalCSSHandler (all but Next). */
  datatype Config = Config(
    headers: set<string>, headersReturn: string,
    methods: set<string>, methodsReturn: string,
    origins: seq<string>)

  const Zero := Config({}, "", {}, "", [])

  datatype Opt =
    | WithHeaders(hs: seq<string>)
    | WithMethods(ms: seq<string>)
    | WithOrigins(os: seq<string>)

  /** One option; each replaces what it sets, and none can fail. */
  function ApplyOpt(c: Config, o: Opt): (r: Result<Config>)
    ensures r.Ok?
    ensures o.WithHeaders? ==> r.value == c.(headers := Elements(o.hs), headersReturn := Join(o.hs, ", "))
    ensures o.WithMethods? ==> r.value == c.(methods := Elements(o.ms), methodsReturn := Join(o.ms, ", "))
    ensures o.WithOrigins? ==> r.value == c.(origins := o.os)
  {
    match o
    case WithHeaders(hs) => Ok(c.(headers := Elements(hs), headersReturn := Join(hs, ", ")))
    case WithMethods(ms) => Ok(c.(methods := Elements(ms), methodsReturn := Join(ms, ", ")))
    case WithOrigins(os) => Ok(c.(origins := os))
  }

  /** The options never fail. */
  lemma {:induction false} ConfigureOk(c: Config, opts: seq<Opt>)
    ensures Options.Configure(ApplyOpt, c, opts).Ok?
    decreases |opts|
  {
    if |opts| > 0 {
      ConfigureOk(ApplyOpt(c, opts[0]).value, opts[1..]);
    }
  }

  /** What New does after the options: origins normalised to the single
      wildcard when empty or wildcard-bearing, and the default headers when
      no header is configured. */
  function Completed(c: Config): (r: Config)
    ensures |r.origins| > 0
    ensures Cors.Wildcard in r.origins ==> r.origins == [Cors.Wildcard]
    ensures |c.origins| > 0 && Cors.Wildcard !in c.origins ==> r.origins == c.origins
    ensures |r.headers| > 0
    ensures |c.headers| == 0 ==> r.headers == Elements(DefaultAllowHeaders) && r.headersReturn == Join(DefaultAllowHeaders, ", ")
    ensures |c.headers| > 0 ==> r.headers == c.headers && r.headersReturn == c.headersReturn
    ensures r.methods == c.methods && r.methodsReturn == c.methodsReturn
  {
    var c1 := if |c.origins| == 0 || Cors.Wildcard in c.origins then c.(origins := [Cors.Wildcard]) else c;
    assert "Accept" in Elements(DefaultAllowHeaders);
    if |c1.headers| == 0 then ApplyOpt(c1, WithHeaders(DefaultAllowHeaders)).value else c1
  }

  /** A header list given as an option with no entries still leaves the
      defaults in place. */
  lemma EmptyHeadersGiveDefaults(a: seq<Opt>)
    ensures Options.Configure(ApplyOpt, Zero, a + [WithHeaders([])]).Ok?
    ensures Completed(Options.Configure(ApplyOpt, Zero, a + [WithHeaders([])]).value).headers == Elements(DefaultAllowHeaders)
  {
    ConfigureOk(Zero, a);
    Options.ConfigureAppend(ApplyOpt, Zero, a, [WithHeaders([])]);
    var c := Options.Configure(ApplyOpt, Zero, a).value;
    assert Options.Configure(ApplyOpt, c, [WithHeaders([])]) == ApplyOpt(c, WithHeaders([]));
    assert Elements([]) == {};
  }

  class EvalCSSHandler {
    var headers: set<string>
    var headersReturn: string
    var methods: set<string>
    var methodsReturn: string
    var origins: seq<string>
    var next: Option<HandlerId>

    constructor ()
      ensures State() == Zero && next == None
    {
      headers := {};
      headersReturn := "";
      methods := {};
      methodsReturn := "";
      origins := [];
      next := None;
    }

    function State(): Config
      reads this
    {
      Config(headers, headersReturn, methods, methodsReturn, origins)
    }

    /** Applies one option, building the sets entry by entry. */
    method Apply(o: Opt)
      modifies this
      ensures ApplyOpt(old(State()), o) == Ok(State())
      ensures next == old(next)
    {
      match o
      case WithHeaders(hs) =>
        var m := ElementSet(hs);
        headers := m;
        headersReturn := Join(hs, ", ");
      case WithMethods(ms) =>
        var m := ElementSet(ms);
        methods := m;
        methodsReturn := Join(ms, ", ");
      case WithOrigins(os) =>
        origins := os;
    }

    /** The set a With* option builds from its list, one entry at a time. */
    static method ElementSet(xs: seq<string>) returns (m: set<string>)
      ensures m == Elements(xs)
    {
      m := {};
      var i := 0;
      while i < |xs|
        invariant 0 <= i <= |xs|
        invariant forall x :: x in m <==> x in xs[..i]
      {
        m := m + {xs[i]};
        i := i + 1;
      }
      assert xs[..i] == xs;
    }

    /** New: the options in order, then the origin and header defaults. */
    static method New(opts: seq<Opt>) returns (h: EvalCSSHandler)
      ensures fresh(h) && h.next == None
      ensures Options.Configure(ApplyOpt, Zero, opts).Ok?
      ensures h.State() == Completed(Options.Configure(ApplyOpt, Zero, opts).value)
    {
      h := new EvalCSSHandler();
      var i := 0;
      while i < |opts|
        invariant 0 <= i <= |opts|
        invariant fresh(h) && h.next == None
        invariant Options.Configure(ApplyOpt, Zero, opts) == Options.Configure(ApplyOpt, h.State(), opts[i..])
      {
        assert opts[i..][1..] == opts[i + 1..];
        h.Apply(opts[i]);
        i := i + 1;
      }
      if |h.origins| == 0 || Cors.Wildcard in h.origins {
        h.Apply(WithOrigins([Cors.Wildcard]));
      }
      if |h.headers| == 0 {
        h.Apply(WithHeaders(DefaultAllowHeaders));
      }
    }

    /** The middleware New returns. It stores next in the handler it
        captured and returns that handler by value: each call gives a new,
        independent copy, forwarding to its own next. */
    method Middleware(n: Option<HandlerId>) returns (r: EvalCSSHandler)
      modifies this
      ensures next == n && State() == old(State())
      ensures fresh(r) && r.next == n && r.State() == old(State())
    {
      next := n;
      r := new EvalCSSHandler();
      r.headers, r.headersReturn := headers, headersReturn;
      r.methods, r.methodsReturn := methods, methodsReturn;
      r.origins, r.next := origins, next;
    }

    /** ServeHTTP. A request without a relevant origin gets 403 with the
        request's origins in the body. Otherwise the relevant origin is set
        as Access-Control-Allow-Origin, and: OPTIONS gets 200 with the joined
        methods and headers; a method outside the method set, even an empty
        one, gets 405; a request header outside the header set gets 403
        naming it; any other request is forwarded. */
    method ServeHTTP(w: Header, r: Request) returns (o: Outcome)
      ensures
        var origin := Values(r.header, "Origin");
        var ro := Cors.Relevant(origin, origins);
        var w1 := if ro.Ok? then Set(w, Cors.AllowOrigin, ro.value) else w;
        && (ro.Err? ==> o == Reply(Response(StatusForbidden, w, Text("origin " + FormatList(origin) + " not allowed"))))
        && (o.Forward? <==>
              ro.Ok? && r.verb != MethodOptions && r.verb in methods && forall k :: k in r.header ==> k in headers)
        && (o.Forward? ==> o == Forward(r, w1))
        && (ro.Ok? && r.verb == MethodOptions ==>
              o == Reply(Response(StatusOK, Set(Set(w1, Cors.AllowMethods, methodsReturn), Cors.AllowHeaders, headersReturn), NoBody)))
        && (ro.Ok? && r.verb != MethodOptions && r.verb !in methods ==>
              o == Reply(Response(StatusMethodNotAllowed, w1, Text("method " + r.verb + " not allowed"))))
        && (o.Reply? && ro.Ok? && r.verb != MethodOptions && r.verb in methods ==>
              exists k :: k in r.header && k !in headers &&
                o == Reply(Response(StatusForbidden, w1, Text("header " + k + " not allowed"))))
    {
      var origin := Values(r.header, "Origin");
      var ro := Cors.RelevantOrigin(origin, origins);
      if ro.Err? {
        return Reply(Response(StatusForbidden, w, Text("origin " + FormatList(origin) + " not allowed")));
      }
      var w1 := Set(w, Cors.AllowOrigin, ro.value);
      if r.verb == MethodOptions {
        return Reply(Response(StatusOK, Set(Set(w1, Cors.AllowMethods, methodsReturn), Cors.AllowHeaders, headersReturn), NoBody));
      }
      if r.verb !in methods {
        return Reply(Response(StatusMethodNotAllowed, w1, Text("method " + r.verb + " not allowed")));
      }
      var bad := FirstDisallowed(r.header, headers);
      if bad.Some? {
        return Reply(Response(StatusForbidden, w1, Text("header " + bad.value + " not allowed")));
      }
      return Forward(r, w1);
    }
  }
}
