/** The first CORS handler of package handler (eval_css.go): it sets the
    allowed origin on pre-flight requests and requests bearing an Origin,
    answers pre-flight requests itself and forwards everything else. */
module EvalCss {
  import opened Wrappers
  import opened Http

  const Wildcard := "*"
  const AllowOrigin := "Access-Control-Allow-Origin"
  const AllowMethods := "Access-Control-Allow-Methods"
  const AllowHeaders := "Access-Control-Allow-Headers"

  /** The fixed list of headers a pre-flight answer allows. */
  const PreflightHeaders: seq<string> := [
    "Accept", "Content-Type", "Content-Length", "Accept-Encoding",
    "X-CSRF-Token", "Authorization"
  ]

  datatype EvalCSSHandler = EvalCSSHandler(methods: string, origins: seq<string>, next: Option<HandlerId>)

  /** strings.LastIndex for a one-character separator: the last position of
      c in s, or -1. */
  function LastIndex(s: string, c: char): (i: int)
    ensures -1 <= i < |s|
    ensures i >= 0 ==> s[i] == c
    ensures forall j :: i < j < |s| ==> s[j] != c
    decreases |s|
  {
    if |s| == 0 then -1
    else if s[|s| - 1] == c then |s| - 1
    else LastIndex(s[..|s| - 1], c)
  }

  /** The request host without its port: everything before the last ':',
      or the whole host when it has no ':'. */
  function StripPort(host: string): (r: string)
    ensures ':' !in host ==> r == host
    ensures ':' in host ==> |r| < |host| && r == host[..|r|] && host[|r|] == ':' && ':' !in host[|r| + 1..]
  {
    var i := LastIndex(host, ':');
    if i == -1 then host else host[..i]
  }

  /** The port is what StripPort removes: a host followed by ":" and a
      port without ':' loses exactly the port. */
  lemma StripPortJoin(host: string, port: string)
    requires ':' !in port
    ensures StripPort(host + ":" + port) == host
  {
    var s := host + ":" + port;
    assert s[|host|] == ':';
    assert forall j :: |host| < j < |s| ==> s[j] == port[j - |host| - 1];
    assert LastIndex(s, ':') == |host|;
    assert s[..|host|] == host;
  }

  /** The origin the handler allows: the first configured one, unless that
      is not the wildcard, more than one is configured and the port-stripped
      request host is among them, in which case it is that host. */
  function ChosenOrigin(e: EvalCSSHandler, host: string): (o: string)
    requires |e.origins| > 0
    ensures o in e.origins
    ensures o == e.origins[0] || o == StripPort(host)
    ensures e.origins[0] != Wildcard && |e.origins| > 1 && StripPort(host) in e.origins ==> o == StripPort(host)
    ensures o != e.origins[0] ==> e.origins[0] != Wildcard && |e.origins| > 1
  {
    var first := e.origins[0];
    if first != Wildcard && |e.origins| > 1 && StripPort(host) in e.origins then StripPort(host) else first
  }

  /** The response header after the origin step. */
  function WithOrigin(e: EvalCSSHandler, w: Header, r: Request): Header
    requires |e.origins| > 0
  {
    if r.verb == MethodOptions || "Origin" in r.header then Set(w, AllowOrigin, ChosenOrigin(e, r.host)) else w
  }

  /** ServeHTTP: a pre-flight OPTIONS request is answered (200, with the
      methods and the fixed header list) and never forwarded; every other
      request is forwarded, with Access-Control-Allow-Origin set only when
      it bears an Origin header. */
  function ServeHTTP(e: EvalCSSHandler, w: Header, r: Request): (o: Outcome)
    requires |e.origins| > 0
    ensures o.Forward? <==> r.verb != MethodOptions
    ensures o.Forward? ==> o.request == r
    ensures o.Forward? && "Origin" !in r.header ==> o.header == w
    ensures o.Forward? && "Origin" in r.header ==> o.header == Set(w, AllowOrigin, ChosenOrigin(e, r.host))
    ensures o.Reply? ==> o.response.status == StatusOK && o.response.body == NoBody
    ensures o.Reply? ==>
      o.response.header == Set(Set(Set(w, AllowOrigin, ChosenOrigin(e, r.host)), AllowMethods, e.methods), AllowHeaders, Join(PreflightHeaders, ", "))
  {
    var w1 := WithOrigin(e, w, r);
    if r.verb == MethodOptions then
      Reply(Response(StatusOK, Set(Set(w1, AllowMethods, e.methods), AllowHeaders, Join(PreflightHeaders, ", ")), NoBody))
    else Forward(r, w1)
  }

  /** NewEvalCSSHandler applied to next: the methods joined by ", ", and
      the origins kept unless empty or wildcard-bearing, when they become
      the single wildcard; so the first origin always exists. */
  function NewEvalCSSHandler(methods: seq<string>, origins: seq<string>, next: Option<HandlerId>): (e: EvalCSSHandler)
    ensures |e.origins| > 0
    ensures e.methods == Join(methods, ", ") && e.next == next
    ensures |origins| > 0 && Wildcard !in origins ==> e.origins == origins
    ensures |origins| == 0 || Wildcard in origins ==> e.origins == [Wildcard]
  {
    EvalCSSHandler(Join(methods, ", "), if |origins| == 0 || Wildcard in origins then [Wildcard] else origins, next)
  }

  /** A handler built with the wildcard allows "*" for every request; one
      built with several origins allows a request host, port aside, that is
      among them. */
  lemma NewAllowsOrigin(methods: seq<string>, origins: seq<string>, next: Option<HandlerId>, host: string, port: string)
    requires ':' !in port
    ensures var e := NewEvalCSSHandler(methods, origins, next);
      (|origins| == 0 || Wildcard in origins ==> ChosenOrigin(e, host + ":" + port) == Wildcard)
      && (|origins| > 1 && Wildcard !in origins && host in origins ==> ChosenOrigin(e, host + ":" + port) == host)
  {
    StripPortJoin(host, port);
  }
}
