/** The method filter middleware of package method_filter: only the
    configured request methods are let through. */
module MethodFilter {
  import opened Wrappers
  import opened Http
  import Options

  const ContentTypeText := "text/plain"

  /** The answer to an unconfigured filter: 503 before anything else. */
  const NotAvailable := Response(StatusServiceUnavailable, map[], Text("service not available"))

  /** The configured methods; None is the nil map, which even WithMethods([])
      replaces by an empty set. */
  type Methods = Option<set<string>>

  datatype Opt = WithMethods(methods: seq<string>)

  /** WithMethods: the listed methods are added to the configured ones,
      creating the set if there was none. */
  function ApplyOpt(c: Methods, o: Opt): (r: Result<Methods>)
    ensures r.Ok? && r.value.Some?
    ensures forall m :: m in r.value.value <==> (c.Some? && m in c.value) || m in o.methods
  {
    Ok(Some((if c.Some? then c.value else {}) + Elements(o.methods)))
  }

  /** Every method listed by any of the options. */
  function Listed(opts: seq<Opt>): set<string>
    decreases |opts|
  {
    if |opts| == 0 then {} else Elements(opts[0].methods) + Listed(opts[1..])
  }

  /** Repeated WithMethods options union their lists; any option at all
      creates the set. */
  lemma {:induction false} ConfiguredMethods(c: Methods, opts: seq<Opt>)
    ensures Options.Configure(ApplyOpt, c, opts).Ok?
    ensures Options.Configure(ApplyOpt, c, opts).value ==
      if |opts| == 0 then c else Some((if c.Some? then c.value else {}) + Listed(opts))
    decreases |opts|
  {
    if |opts| > 0 {
      var base := if c.Some? then c.value else {};
      var c' := ApplyOpt(c, opts[0]).value;
      assert c' == Some(base + Elements(opts[0].methods));
      ConfiguredMethods(c', opts[1..]);
      assert Options.Configure(ApplyOpt, c, opts) == Options.Configure(ApplyOpt, c', opts[1..]);
      if |opts| == 1 {
        assert Listed(opts) == Elements(opts[0].methods);
      } else {
        assert c'.value + Listed(opts[1..]) == base + Listed(opts);
      }
    }
  }

  class Handler {
    var methods: Methods
    var next: Option<HandlerId>

    /** Handler{}: no method set, no next handler. */
    constructor ()
      ensures methods == None && next == None
    {
      methods := None;
      next := None;
    }

    /** Applies a WithMethods option, inserting the methods one by one. */
    method Apply(o: Opt)
      modifies this
      ensures ApplyOpt(old(methods), o) == Ok(methods)
      ensures next == old(next)
    {
      if methods.None? {
        methods := Some({});
      }
      var i := 0;
      while i < |o.methods|
        invariant 0 <= i <= |o.methods|
        invariant next == old(next)
        invariant methods.Some?
        invariant forall m :: m in methods.value <==> (old(methods).Some? && m in old(methods).value) || m in o.methods[..i]
      {
        methods := Some(methods.value + {o.methods[i]});
        i := i + 1;
      }
      assert o.methods[..i] == o.methods;
      assert methods.value == (if old(methods).Some? then old(methods).value else {}) + Elements(o.methods);
    }

    /** New: the options in order; WithMethods never fails, so neither
        does New. */
    static method New(opts: seq<Opt>) returns (r: Result<Handler>)
      ensures r.Ok? && fresh(r.value) && r.value.next == None
      ensures Options.Configure(ApplyOpt, None, opts) == Ok(r.value.methods)
    {
      var h := new Handler();
      var i := 0;
      while i < |opts|
        invariant 0 <= i <= |opts|
        invariant fresh(h) && h.next == None
        invariant Options.Configure(ApplyOpt, None, opts) == Options.Configure(ApplyOpt, h.methods, opts[i..])
      {
        assert opts[i..][1..] == opts[i + 1..];
        h.Apply(opts[i]);
        i := i + 1;
      }
      return Ok(h);
    }

    /** The middleware New returns: next is stored as it is, nil included. */
    method Middleware(n: Option<HandlerId>) returns (r: Handler)
      modifies this
      ensures r == this && next == n && methods == old(methods)
    {
      next := n;
      return this;
    }

    /** ServeHTTP: an unconfigured filter (nil, or without a method set)
        answers 503; a request whose method is configured is forwarded
        untouched; any other request, a nil one included, gets 405 with a
        plain-text body. */
    static method ServeHTTP(m: Handler?, w: Header, r: Option<Request>) returns (o: Outcome)
      ensures m == null || m.methods.None? ==> o == Reply(NotAvailable.(header := w))
      ensures m != null && m.methods.Some? ==>
        (o.Forward? <==> r.Some? && r.value.verb in m.methods.value)
      ensures o.Forward? ==> r.Some? && o == Forward(r.value, w)
      ensures m != null && m.methods.Some? && o.Reply? ==>
        o == Reply(Response(StatusMethodNotAllowed, Set(w, "Content-Type", ContentTypeText), Text("method not allowed")))
    {
      if m == null || m.methods.None? {
        return Reply(NotAvailable.(header := w));
      }
      if r.Some? && r.value.verb in m.methods.value {
        return Forward(r.value, w);
      }
      return Reply(Response(StatusMethodNotAllowed, Set(w, "Content-Type", ContentTypeText), Text("method not allowed")));
    }
  }
}
