/** The basic authentication middleware (package basic_auth): credentials in
    the Authorization header are extracted, checked by an Authenticator, and
    the request is forwarded only when the Authenticator allows them. */
module BasicAuth {
  import opened Wrappers
  import opened Http
  import opened Util
  import opened Defs
  import Options
  import Base64

  const AuthPrefix := "Basic "
  const ErrDecode := "could not decode auth info"
  const ErrNilOption := "options cannot be nil"
  const ErrNoAuthenticator := "no authenticator configured"
  const DefaultRealm := "Restricted"

  /** strings.CutPrefix. */
  function CutPrefix(s: string, prefix: string): (r: (string, bool))
    ensures r.1 <==> |prefix| <= |s| && s[..|prefix|] == prefix
    ensures r.1 ==> s == prefix + r.0
    ensures !r.1 ==> r.0 == s
  {
    if |prefix| <= |s| && s[..|prefix|] == prefix then (s[|prefix|..], true) else (s, false)
  }

  /** bytes.Split with a one-byte separator: the pieces between separators,
      so n separators give n + 1 pieces, some possibly empty. */
  function Split(s: string, sep: char): (parts: seq<string>)
    ensures |parts| >= 1
  {
    if |s| == 0 then [""]
    else
      var rest := Split(s[1..], sep);
      if s[0] == sep then [""] + rest
      else [[s[0]] + rest[0]] + rest[1..]
  }

  /** A piece in front of at least one more is joined with the separator. */
  lemma JoinCons(x: string, rest: seq<string>, sep: string)
    requires |rest| >= 1
    ensures Join([x] + rest, sep) == x + sep + Join(rest, sep)
  {
    assert ([x] + rest)[1..] == rest;
  }

  /** A character put in front of the first piece ends up in front of the
      joined text. */
  lemma JoinPrepend(c: char, rest: seq<string>, sep: string)
    requires |rest| >= 1
    ensures Join([[c] + rest[0]] + rest[1..], sep) == [c] + Join(rest, sep)
  {
    if |rest| > 1 {
      JoinCons([c] + rest[0], rest[1..], sep);
      JoinCons(rest[0], rest[1..], sep);
      assert rest == [rest[0]] + rest[1..];
    }
  }

  /** Joining the pieces with the separator gives the text back. */
  lemma {:induction false} SplitJoin(s: string, sep: char)
    ensures Join(Split(s, sep), [sep]) == s
  {
    if |s| > 0 {
      var rest := Split(s[1..], sep);
      SplitJoin(s[1..], sep);
      if s[0] == sep {
        JoinCons("", rest, [sep]);
      } else {
        JoinPrepend(s[0], rest, [sep]);
      }
      assert s == [s[0]] + s[1..];
    }
  }

  /** No piece contains the separator. */
  lemma {:induction false} SplitNoSep(s: string, sep: char)
    ensures forall i :: 0 <= i < |Split(s, sep)| ==> sep !in Split(s, sep)[i]
  {
    if |s| > 0 {
      var rest := Split(s[1..], sep);
      SplitNoSep(s[1..], sep);
      var parts := Split(s, sep);
      forall i | 0 <= i < |parts|
        ensures sep !in parts[i]
      {
        if s[0] == sep {
          if i > 0 {
            assert parts[i] == rest[i - 1];
          }
        } else if i > 0 {
          assert parts[i] == rest[i];
        } else {
          assert parts[0] == [s[0]] + rest[0];
        }
      }
    }
  }

  /** There is one more piece than there are separators. */
  lemma {:induction false} SplitCount(s: string, sep: char)
    ensures |Split(s, sep)| == multiset(s)[sep] + 1
  {
    if |s| > 0 {
      SplitCount(s[1..], sep);
      assert s == [s[0]] + s[1..];
      assert multiset(s) == multiset{s[0]} + multiset(s[1..]);
    }
  }

  /** A text with exactly one separator splits around it. */
  lemma {:induction false} SplitPair(u: string, p: string, sep: char)
    requires sep !in u && sep !in p
    ensures Split(u + [sep] + p, sep) == [u, p]
  {
    if |u| == 0 {
      assert u + [sep] + p == [sep] + p;
      assert ([sep] + p)[1..] == p;
      SplitCount(p, sep);
      SplitJoin(p, sep);
      assert multiset(p)[sep] == 0;
    } else {
      assert (u + [sep] + p)[1..] == u[1..] + [sep] + p;
      SplitPair(u[1..], p, sep);
      assert [u[0]] + u[1..] == u;
    }
  }

  /** The result of ExtractUserPass: user, password, whether both were found,
      and the decoding error if there was one. */
  datatype Credentials = Credentials(user: string, pass: string, found: bool, err: Option<string>)

  predicate HasAuthPrefix(auth: string) {
    |AuthPrefix| <= |auth| && auth[..|AuthPrefix|] == AuthPrefix
  }

  /** The text the Authorization value decodes to, when it decodes. */
  function DecodedText(info: string): Option<string> {
    match Base64.Decode(info)
    case None => None
    case Some(d) => Some(Base64.ToText(d))
  }

  /** ExtractUserPass: the value must start with "Basic ", carry at least
      6 characters after it, decode as standard base64, and the decoded
      text must split at ':' into exactly two non-empty parts. Only a
      decoding failure is reported as an error. */
  function ExtractUserPass(auth: string): (x: Credentials)
    ensures x.found ==> x.err.None? && x.user != "" && x.pass != "" && ':' !in x.user && ':' !in x.pass
    ensures x.found ==> HasAuthPrefix(auth) && DecodedText(auth[|AuthPrefix|..]) == Some(x.user + ":" + x.pass)
    ensures !x.found ==> x.user == "" && x.pass == ""
    ensures x.err.Some? <==> HasAuthPrefix(auth) && |auth| >= |AuthPrefix| + 6 && DecodedText(auth[|AuthPrefix|..]).None?
    ensures x.err.Some? ==> x.err.value == ErrDecode
  {
    var (info, ok) := CutPrefix(auth, AuthPrefix);
    if !ok || |info| < 6 then Credentials("", "", false, None)
    else match DecodedText(info)
      case None => Credentials("", "", false, Some(ErrDecode))
      case Some(text) =>
        var parts := Split(text, ':');
        if |parts| != 2 || |parts[0]| == 0 || |parts[1]| == 0 then Credentials("", "", false, None)
        else
          SplitJoin(text, ':');
          SplitNoSep(text, ':');
          assert Join(parts, [':']) == parts[0] + [':'] + parts[1] by {
            assert parts[1..] == [parts[1]];
          }
          Credentials(parts[0], parts[1], true, None)
  }

  /** Exactly one ':' in the decoded text, neither first nor last. */
  predicate OneInnerColon(t: string) {
    |t| > 0 && multiset(t)[':'] == 1 && t[0] != ':' && t[|t| - 1] != ':'
  }

  /** The decoded text splits into exactly two non-empty parts exactly when
      it holds one ':' that is neither its first nor its last character. */
  lemma TwoPartsIff(t: string)
    ensures var parts := Split(t, ':');
      (|parts| == 2 && |parts[0]| > 0 && |parts[1]| > 0) <==> OneInnerColon(t)
  {
    var parts := Split(t, ':');
    SplitJoin(t, ':');
    SplitNoSep(t, ':');
    SplitCount(t, ':');
    if |parts| == 2 {
      assert parts[1..] == [parts[1]];
      assert t == parts[0] + [':'] + parts[1];
      if |parts[0]| > 0 {
        assert t[0] == parts[0][0];
        assert parts[0][0] in parts[0];
      }
      if |parts[1]| > 0 {
        assert t[|t| - 1] == parts[1][|parts[1]| - 1];
        assert parts[1][|parts[1]| - 1] in parts[1];
      }
    }
  }

  /** Credentials are found exactly when the value has the prefix, at least
      6 characters after it, decodes, and the decoded text holds exactly one
      ':' that is neither its first nor its last character. */
  lemma FoundIff(auth: string)
    ensures ExtractUserPass(auth).found <==>
      && HasAuthPrefix(auth) && |auth| >= |AuthPrefix| + 6
      && DecodedText(auth[|AuthPrefix|..]).Some?
      && OneInnerColon(DecodedText(auth[|AuthPrefix|..]).value)
  {
    if HasAuthPrefix(auth) && |auth| >= |AuthPrefix| + 6 && DecodedText(auth[|AuthPrefix|..]).Some? {
      TwoPartsIff(DecodedText(auth[|AuthPrefix|..]).value);
      assert CutPrefix(auth, AuthPrefix) == (auth[|AuthPrefix|..], true);
    }
  }

  /** Properly encoded credentials come back unchanged, provided user and
      password are non-empty, free of ':' and together at least 3 characters
      long. */
  lemma ExtractEncoded(user: string, pass: string)
    requires Base64.IsByteString(user) && Base64.IsByteString(pass)
    requires user != "" && pass != "" && ':' !in user && ':' !in pass
    requires |user| + |pass| >= 3
    ensures ExtractUserPass(AuthPrefix + Base64.Encode(Base64.ToBytes(user + ":" + pass))) == Credentials(user, pass, true, None)
  {
    var text := user + ":" + pass;
    assert Base64.IsByteString(text) by {
      forall i | 0 <= i < |text| ensures text[i] as int < 256 {
        if i < |user| { assert text[i] == user[i]; }
        else if i > |user| { assert text[i] == pass[i - |user| - 1]; }
      }
    }
    var info := Base64.Encode(Base64.ToBytes(text));
    var auth := AuthPrefix + info;
    Base64.DecodeEncode(Base64.ToBytes(text));
    Base64.EncodeLength(Base64.ToBytes(text));
    Base64.TextOfBytes(text);
    assert auth[|AuthPrefix|..] == info;
    assert auth[..|AuthPrefix|] == AuthPrefix;
    assert DecodedText(info) == Some(text);
    SplitPair(user, pass, ':');
  }

  /** The shortest credentials, one character each, are never accepted: their
      encoding is only 4 characters long, below the 6 the extraction demands. */
  lemma ShortestRejected(user: string, pass: string)
    requires Base64.IsByteString(user) && Base64.IsByteString(pass)
    requires |user| == 1 && |pass| == 1
    ensures !ExtractUserPass(AuthPrefix + Base64.Encode(Base64.ToBytes(user + ":" + pass))).found
  {
    var text := user + ":" + pass;
    assert Base64.IsByteString(text) by {
      assert text == [user[0], ':', pass[0]];
    }
    var auth := AuthPrefix + Base64.Encode(Base64.ToBytes(text));
    Base64.EncodeLength(Base64.ToBytes(text));
    assert |auth| == |AuthPrefix| + 4;
  }

  /** A password (or user name) containing ':' can never be transmitted:
      the decoded text then holds two colons and is refused. */
  lemma ColonRejected(user: string, pass: string)
    requires Base64.IsByteString(user + ":" + pass)
    requires ':' in user || ':' in pass
    ensures !ExtractUserPass(AuthPrefix + Base64.Encode(Base64.ToBytes(user + ":" + pass))).found
  {
    var text := user + ":" + pass;
    var auth := AuthPrefix + Base64.Encode(Base64.ToBytes(text));
    Base64.DecodeEncode(Base64.ToBytes(text));
    Base64.TextOfBytes(text);
    assert auth[|AuthPrefix|..] == Base64.Encode(Base64.ToBytes(text));
    FoundIff(auth);
    assert multiset(text) == multiset(user) + multiset{':'} + multiset(pass) by {
      assert text == user + [':'] + pass;
    }
    assert multiset(text)[':'] >= 2;
  }

  /** The answer of Authenticate; only whether access is allowed decides,
      the error is logged. */
  datatype AuthAnswer = AuthAnswer(allowed: bool, err: Option<string>)

  /** An Authenticator: user name and password to an answer. */
  type Authenticator = (string, string) -> AuthAnswer

  /** The value `Basic realm="<realm>", charset="UTF-8"` sent in WWW-Authenticate. */
  function RealmInfo(realm: string): string {
    "Basic realm=\"" + realm + "\", charset=\"UTF-8\""
  }

  /** sendNoAuth: with a redirect address the client is redirected (302 with
      Location), otherwise the realm information is added to WWW-Authenticate
      and 401 is written. */
  function SendNoAuth(redirect: string, authRealmInfo: string, w: Header): (r: Response)
    ensures |redirect| > 0 ==> r.status == StatusFound && "Location" in r.header && r.header["Location"] == [redirect]
    ensures |redirect| == 0 ==> r == WriteState(Add(w, "WWW-Authenticate", authRealmInfo), StatusUnauthorized)
    ensures |redirect| == 0 ==>
      && "WWW-Authenticate" in r.header && |r.header["WWW-Authenticate"]| > 0
      && r.header["WWW-Authenticate"][|r.header["WWW-Authenticate"]| - 1] == authRealmInfo
  {
    if |redirect| > 0 then Response(StatusFound, Set(w, "Location", redirect), NoBody)
    else WriteState(Add(w, "WWW-Authenticate", authRealmInfo), StatusUnauthorized)
  }

  /** Whether a request with these headers gets through: credentials must be
      found and the Authenticator must allow them. */
  predicate Admits(auth: Authenticator, header: Header) {
    var x := ExtractUserPass(Get(header, "Authorization"));
    x.found && auth(x.user, x.pass).allowed
  }

  /** A request carrying properly encoded credentials gets through exactly
      when the Authenticator allows that user and password. */
  lemma AdmitsEncoded(auth: Authenticator, header: Header, user: string, pass: string)
    requires Base64.IsByteString(user) && Base64.IsByteString(pass)
    requires user != "" && pass != "" && ':' !in user && ':' !in pass && |user| + |pass| >= 3
    requires "Authorization" in header
    requires header["Authorization"] == [AuthPrefix + Base64.Encode(Base64.ToBytes(user + ":" + pass))]
    ensures Admits(auth, header) <==> auth(user, pass).allowed
  {
    ExtractEncoded(user, pass);
  }

  /** The configurable state of a Handler, MWBase included (next excepted). */
  datatype Config = Config(
    auth: Option<Authenticator>, realm: string, authRealmInfo: string, redirect: string,
    log: Option<Logger>, logLevel: int)

  /** The Go zero value Handler{}. */
  const Zero := Config(None, "", "", "", None, LevelInfo)

  /** The options New accepts; NilOption is a nil option function. */
  datatype Opt =
    | WithAuthenticator(a: Option<Authenticator>)
    | WithRealm(realm: string)
    | WithRedirect(redirect: string)
    | WithLogger(l: Option<Logger>)
    | WithLogLevel(level: int)
    | NilOption

  /** The effect of one option. */
  function ApplyOpt(c: Config, o: Opt): (r: Result<Config>)
    ensures r.Err? <==> o.NilOption? || (o.WithLogger? && o.l.None?)
    ensures r.Err? ==> r.msg == (if o.NilOption? then ErrNilOption else ErrNilLogger)
    ensures o.WithAuthenticator? ==> r == Ok(c.(auth := o.a))
    ensures o.WithRealm? ==> r == Ok(c.(realm := o.realm))
    ensures o.WithRedirect? ==> r == Ok(c.(redirect := o.redirect))
    ensures r.Ok? && o.WithLogger? ==> r.value == c.(log := o.l)
    ensures o.WithLogLevel? ==> r == Ok(c.(logLevel := o.level))
  {
    match o
    case WithAuthenticator(a) => Ok(c.(auth := a))
    case WithRealm(realm) => Ok(c.(realm := realm))
    case WithRedirect(redirect) => Ok(c.(redirect := redirect))
    case WithLogger(l) => if l.None? then Err(ErrNilLogger) else Ok(c.(log := l))
    case WithLogLevel(level) => Ok(c.(logLevel := level))
    case NilOption => Err(ErrNilOption)
  }

  /** What New builds from its options: an authenticator is mandatory, an
      empty realm becomes "Restricted", and the WWW-Authenticate value is
      derived from the realm. */
  function Build(opts: seq<Opt>): (r: Result<Config>)
    ensures r.Ok? ==> r.value.auth.Some? && r.value.realm != "" && r.value.authRealmInfo == RealmInfo(r.value.realm)
    ensures Options.Configure(ApplyOpt, Zero, opts).Err? ==> r == Options.Configure(ApplyOpt, Zero, opts)
    ensures r.Ok? <==> Options.Configure(ApplyOpt, Zero, opts).Ok? && Options.Configure(ApplyOpt, Zero, opts).value.auth.Some?
    ensures Options.Configure(ApplyOpt, Zero, opts).Ok? && Options.Configure(ApplyOpt, Zero, opts).value.auth.None? ==>
      r == Err(ErrNoAuthenticator)
    ensures r.Ok? ==>
      var c := Options.Configure(ApplyOpt, Zero, opts).value;
      r.value == c.(realm := if c.realm == "" then DefaultRealm else c.realm, authRealmInfo := RealmInfo(r.value.realm))
  {
    match Options.Configure(ApplyOpt, Zero, opts)
    case Err(e) => Err(e)
    case Ok(c) =>
      if c.auth.None? then Err(ErrNoAuthenticator)
      else
        var realm := if c.realm == "" then DefaultRealm else c.realm;
        Ok(c.(realm := realm, authRealmInfo := RealmInfo(realm)))
  }

  /** The authenticator an option list leaves in place: the last one given,
      or the starting one if none is. */
  function LastAuth(a: Option<Authenticator>, opts: seq<Opt>): Option<Authenticator>
    decreases |opts|
  {
    if |opts| == 0 then a
    else LastAuth(if opts[0].WithAuthenticator? then opts[0].a else a, opts[1..])
  }

  /** Later options override earlier ones: a successful configuration holds
      the last authenticator given. */
  lemma {:induction false} ConfiguredAuth(c: Config, opts: seq<Opt>)
    requires Options.Configure(ApplyOpt, c, opts).Ok?
    ensures Options.Configure(ApplyOpt, c, opts).value.auth == LastAuth(c.auth, opts)
    decreases |opts|
  {
    if |opts| > 0 {
      ConfiguredAuth(ApplyOpt(c, opts[0]).value, opts[1..]);
    }
  }

  /** Options that never set an authenticator make New fail, with "no
      authenticator configured" when the options themselves succeed. */
  lemma NoAuthenticatorFails(opts: seq<Opt>)
    requires LastAuth(None, opts).None?
    ensures Build(opts).Err?
    ensures Options.Configure(ApplyOpt, Zero, opts).Ok? ==> Build(opts) == Err(ErrNoAuthenticator)
  {
    if Options.Configure(ApplyOpt, Zero, opts).Ok? {
      ConfiguredAuth(Zero, opts);
    }
  }

  /** Without a realm option the default realm is announced. */
  lemma DefaultRealmInfo(a: Authenticator)
    ensures Build([WithAuthenticator(Some(a))]) ==
      Ok(Config(Some(a), "Restricted", "Basic realm=\"Restricted\", charset=\"UTF-8\"", "", None, LevelInfo))
  {
    var opts := [WithAuthenticator(Some(a))];
    assert opts[1..] == [];
    assert Options.Configure(ApplyOpt, Zero, opts) == Ok(Zero.(auth := Some(a)));
    assert RealmInfo(DefaultRealm) == "Basic realm=\"Restricted\", charset=\"UTF-8\"";
  }

  /** The basic authentication middleware. */
  class Handler {
    const base: MWBase
    var auth: Option<Authenticator>
    var realm: string
    var authRealmInfo: string
    var redirect: string

    /** Handler{} with a fresh MWBase. */
    constructor ()
      ensures fresh(base) && State() == Zero && base.next == None
    {
      base := new MWBase();
      auth := None;
      realm := "";
      authRealmInfo := "";
      redirect := "";
    }

    function State(): Config
      reads this, base
    {
      Config(auth, realm, authRealmInfo, redirect, base.log, base.logLevel)
    }

    /** Applies one option to this handler, as ApplyOpt describes. */
    method Apply(o: Opt) returns (err: Option<string>)
      modifies this, base
      ensures ApplyOpt(old(State()), o) == (if err.None? then Ok(State()) else Err(err.value))
      ensures base.next == old(base.next)
    {
      match o
      case WithAuthenticator(a) => auth := a; err := None;
      case WithRealm(r) => realm := r; err := None;
      case WithRedirect(r) => redirect := r; err := None;
      case WithLogger(l) => err := Defs.WithLogger(base, l);
      case WithLogLevel(level) => err := Defs.WithLogLevel(base, level);
      case NilOption => err := Some(ErrNilOption);
    }

    /** New: applies the options in order, stops at the first nil or failing
        one, then demands an authenticator and completes the realm. */
    static method New(opts: seq<Opt>) returns (r: Result<Handler>)
      ensures r.Ok? <==> Build(opts).Ok?
      ensures r.Err? ==> Build(opts) == Err(r.msg)
      ensures r.Ok? ==> fresh(r.value) && fresh(r.value.base)
      ensures r.Ok? ==> r.value.State() == Build(opts).value && r.value.base.next == None
    {
      var h := new Handler();
      var i := 0;
      while i < |opts|
        invariant 0 <= i <= |opts|
        invariant fresh(h) && fresh(h.base) && h.base.next == None
        invariant Options.Configure(ApplyOpt, Zero, opts) == Options.Configure(ApplyOpt, h.State(), opts[i..])
      {
        assert opts[i..][1..] == opts[i + 1..];
        if opts[i].NilOption? {
          return Err(ErrNilOption);
        }
        var err := h.Apply(opts[i]);
        if err.Some? {
          return Err(err.value);
        }
        i := i + 1;
      }
      if h.auth.None? {
        return Err(ErrNoAuthenticator);
      }
      if h.realm == "" {
        h.realm := DefaultRealm;
      }
      h.authRealmInfo := RealmInfo(h.realm);
      return Ok(h);
    }

    /** The middleware New returns, applied to next: the handler itself, or
        nil when next is nil. */
    method Middleware(next: Option<HandlerId>) returns (r: Handler?)
      modifies base
      ensures next.None? ==> r == null && unchanged(base)
      ensures next.Some? ==> r == this && base.next == next
      ensures base.log == old(base.log) && base.logLevel == old(base.logLevel)
    {
      var err := MWBase.SetNext(base, next);
      if err.Some? {
        return null;
      }
      return this;
    }

    /** ServeHTTP: a nil handler answers 500, a nil request 400; a request
        the Authenticator admits is forwarded untouched; any other request
        gets the no-auth reply. The handler must hold an authenticator, as
        New guarantees (Go would dereference a nil interface otherwise). */
    static method ServeHTTP(h: Handler?, w: Header, r: Option<Request>) returns (o: Outcome)
      requires h != null ==> h.auth.Some?
      ensures h == null ==> o == Reply(WriteState(w, StatusInternalServerError))
      ensures h != null && r.None? ==> o == Reply(WriteState(w, StatusBadRequest))
      ensures h != null && r.Some? ==> (o.Forward? <==> Admits(h.auth.value, r.value.header))
      ensures o.Forward? ==> r.Some? && o == Forward(r.value, w)
      ensures h != null && r.Some? && o.Reply? ==> o.response == SendNoAuth(h.redirect, h.authRealmInfo, w)
    {
      var intro := IntroCheck(h != null, r, w);
      if intro.Some? {
        return Reply(intro.value);
      }
      var authInfo := Get(r.value.header, "Authorization");
      var x := ExtractUserPass(authInfo);
      if !x.found {
        return Reply(SendNoAuth(h.redirect, h.authRealmInfo, w));
      }
      var answer := h.auth.value(x.user, x.pass);
      if !answer.allowed {
        return Reply(SendNoAuth(h.redirect, h.authRealmInfo, w));
      }
      return Forward(r.value, w);
    }
  }
}
