/** The header adding middleware (package add_header): every configured
    header is set on the response before the request is forwarded. */
module AddHeader {
  import opened Wrappers
  import opened Http
  import opened Util
  import opened Defs
  import Options

  const ErrNilOption := "options cannot be nil"

  /** out is w after setting every pair of hs: configured names hold
      exactly their configured value, all other names are untouched. */
  ghost predicate Added(w: Header, hs: map<string, string>, out: Header) {
    && (forall k :: k in out <==> k in w || k in hs)
    && (forall k :: k in hs ==> k in out && out[k] == [hs[k]])
    && (forall k :: k in w && k !in hs ==> k in out && out[k] == w[k])
  }

  /** The loop of ServeHTTP: every pair of hs is set on w in turn. */
  method SetAll(w: Header, hs: map<string, string>) returns (out: Header)
    ensures Added(w, hs, out)
  {
    out := w;
    var rest := hs.Keys;
    while rest != {}
      invariant rest <= hs.Keys
      invariant forall k :: k in out <==> k in w || (k in hs && k !in rest)
      invariant forall k :: k in out ==> out[k] == if k in hs && k !in rest then [hs[k]] else w[k]
      decreases |rest|
    {
      var k :| k in rest;
      out := Set(out, k, hs[k]);
      rest := rest - {k};
    }
  }

  /** The configurable state of a Handler (a nil header map is the empty one). */
  datatype Config = Config(headers: map<string, string>, log: Option<Logger>, logLevel: int)

  const Zero := Config(map[], None, LevelInfo)

  datatype Opt =
    | WithHeaders(hs: map<string, string>)
    | WithLogger(l: Option<Logger>)
    | WithLogLevel(level: int)
    | NilOption

  /** The effect of one option: WithHeaders inserts its pairs, replacing
      the values of names already configured. */
  function ApplyOpt(c: Config, o: Opt): (r: Result<Config>)
    ensures r.Err? <==> o.NilOption? || (o.WithLogger? && o.l.None?)
    ensures r.Ok? && o.WithHeaders? ==> r.value.headers.Keys == c.headers.Keys + o.hs.Keys
    ensures r.Ok? && o.WithHeaders? ==> forall k :: k in r.value.headers ==>
      r.value.headers[k] == if k in o.hs then o.hs[k] else c.headers[k]
    ensures r.Ok? && !o.WithHeaders? ==> r.value.headers == c.headers
    ensures r.Err? ==> r.msg == if o.NilOption? then ErrNilOption else ErrNilLogger
    ensures r.Ok? && o.WithLogger? ==> r.value == c.(log := o.l)
    ensures o.WithLogLevel? ==> r == Ok(c.(logLevel := o.level))
  {
    match o
    case WithHeaders(hs) => Ok(c.(headers := c.headers + hs))
    case WithLogger(l) => if l.None? then Err(ErrNilLogger) else Ok(c.(log := l))
    case WithLogLevel(level) => Ok(c.(logLevel := level))
    case NilOption => Err(ErrNilOption)
  }

  /** All the pairs the options insert, later ones winning. */
  function Inserted(opts: seq<Opt>): map<string, string>
    decreases |opts|
  {
    if |opts| == 0 then map[]
    else (if opts[0].WithHeaders? then opts[0].hs else map[]) + Inserted(opts[1..])
  }

  /** Repeated WithHeaders options accumulate, later values winning. */
  lemma {:induction false} ConfiguredHeaders(c: Config, opts: seq<Opt>)
    requires Options.Configure(ApplyOpt, c, opts).Ok?
    ensures Options.Configure(ApplyOpt, c, opts).value.headers == c.headers + Inserted(opts)
    decreases |opts|
  {
    if |opts| == 0 {
      assert c.headers + map[] == c.headers;
    } else {
      var first := if opts[0].WithHeaders? then opts[0].hs else map[];
      var c' := ApplyOpt(c, opts[0]).value;
      ConfiguredHeaders(c', opts[1..]);
      assert c'.headers == c.headers + first;
      UnionAssoc(c.headers, first, Inserted(opts[1..]));
    }
  }

  /** A nil option after options that succeeded makes New fail with
      "options cannot be nil". */
  lemma NilOptionFails(opts: seq<Opt>, i: nat)
    requires i < |opts| && opts[i].NilOption?
    requires Options.Configure(ApplyOpt, Zero, opts[..i]).Ok?
    ensures Options.Configure(ApplyOpt, Zero, opts) == Err(ErrNilOption)
  {
    Options.FirstFailure(ApplyOpt, Zero, opts, i);
  }

  class Handler {
    const base: MWBase
    var headers: map<string, string>

    constructor ()
      ensures fresh(base) && State() == Zero && base.next == None
    {
      base := new MWBase();
      headers := map[];
    }

    function State(): Config
      reads this, base
    {
      Config(headers, base.log, base.logLevel)
    }

    method Apply(o: Opt) returns (err: Option<string>)
      modifies this, base
      ensures ApplyOpt(old(State()), o) == (if err.None? then Ok(State()) else Err(err.value))
      ensures base.next == old(base.next)
    {
      match o
      case WithHeaders(hs) =>
        headers := headers + hs;
        err := None;
      case WithLogger(l) => err := Defs.WithLogger(base, l);
      case WithLogLevel(level) => err := Defs.WithLogLevel(base, level);
      case NilOption => err := Some(ErrNilOption);
    }

    /** New: options in order; the first nil or failing one aborts. */
    static method New(opts: seq<Opt>) returns (r: Result<Handler>)
      ensures r.Ok? <==> Options.Configure(ApplyOpt, Zero, opts).Ok?
      ensures r.Err? ==> Options.Configure(ApplyOpt, Zero, opts) == Err(r.msg)
      ensures r.Ok? ==> fresh(r.value) && fresh(r.value.base)
      ensures r.Ok? ==> r.value.State() == Options.Configure(ApplyOpt, Zero, opts).value && r.value.base.next == None
    {
      var h := new Handler();
      var i := 0;
      while i < |opts|
        invariant 0 <= i <= |opts|
        invariant fresh(h) && fresh(h.base) && h.base.next == None
        invariant Options.Configure(ApplyOpt, Zero, opts) == Options.Configure(ApplyOpt, h.State(), opts[i..])
      {
        assert opts[i..][1..] == opts[i + 1..];
        if opts[i].NilOption? {
          return Err(ErrNilOption);
        }
        var err := h.Apply(opts[i]);
        if err.Some? {
          return Err(err.value);
        }
        i := i + 1;
      }
      return Ok(h);
    }

    /** The middleware New returns, applied to next: the handler itself, or
        nil when next is nil. */
    method Middleware(next: Option<HandlerId>) returns (r: Handler?)
      modifies base
      ensures next.None? ==> r == null && unchanged(base)
      ensures next.Some? ==> r == this && base.next == next
      ensures base.log == old(base.log) && base.logLevel == old(base.logLevel)
    {
      var err := MWBase.SetNext(base, next);
      if err.Some? {
        return null;
      }
      return this;
    }

    /** ServeHTTP: a nil handler answers 500 and a nil request 400, adding
        nothing; otherwise every configured header is set, one by one, and
        the request is forwarded. */
    static method ServeHTTP(h: Handler?, w: Header, r: Option<Request>) returns (o: Outcome)
      ensures h == null ==> o == Reply(WriteState(w, StatusInternalServerError))
      ensures h != null && r.None? ==> o == Reply(WriteState(w, StatusBadRequest))
      ensures h != null && r.Some? ==> o.Forward? && o.request == r.value && Added(w, h.headers, o.header)
    {
      var intro := IntroCheck(h != null, r, w);
      if intro.Some? {
        return Reply(intro.value);
      }
      var out := SetAll(w, h.headers);
      return Forward(r.value, out);
    }
  }
}
