/** The map-based authenticator of package mapauth: user names mapped to
    passwords, filled by WithAuths options. */
module Mapauth {
  import opened Wrappers
  import Options
  import Util

  const ErrNoAuthorizations := "no authorizations configured"
  const ErrNotInitialized := "mapauth not initialized"

  /** The answer of Authenticate: access allowed, and an error if any. */
  datatype Answer = Answer(allowed: bool, err: Option<string>)

  /** The password stored for user is exactly password. */
  predicate Matches(auths: map<string, string>, user: string, password: string) {
    user in auths && auths[user] == password
  }

  /** The options of New. */
  datatype Opt = WithAuths(auths: map<string, string>)

  /** WithAuths: an empty map is refused; otherwise its pairs are added,
      replacing the passwords of users already present. */
  function ApplyOpt(c: map<string, string>, o: Opt): (r: Result<map<string, string>>)
    ensures r.Err? <==> |o.auths| == 0
    ensures r.Err? ==> r.msg == ErrNoAuthorizations
    ensures r.Ok? ==> r.value.Keys == c.Keys + o.auths.Keys
    ensures r.Ok? ==> forall u :: u in r.value ==> r.value[u] == if u in o.auths then o.auths[u] else c[u]
  {
    if |o.auths| == 0 then Err(ErrNoAuthorizations) else Ok(c + o.auths)
  }

  /** All the pairs of the options, later ones winning. */
  function Merged(opts: seq<Opt>): map<string, string>
    decreases |opts|
  {
    if |opts| == 0 then map[] else opts[0].auths + Merged(opts[1..])
  }

  /** Options succeed exactly when none of them is empty; every failure
      is ErrNoAuthorizations. */
  lemma {:induction false} ConfigureOkIff(c: map<string, string>, opts: seq<Opt>)
    ensures Options.Configure(ApplyOpt, c, opts).Ok? <==> forall i :: 0 <= i < |opts| ==> |opts[i].auths| > 0
    ensures Options.Configure(ApplyOpt, c, opts).Err? ==> Options.Configure(ApplyOpt, c, opts).msg == ErrNoAuthorizations
    decreases |opts|
  {
    if |opts| > 0 {
      var rest := opts[1..];
      assert forall i :: 1 <= i < |opts| ==> opts[i] == rest[i - 1];
      if |opts[0].auths| > 0 {
        ConfigureOkIff(c + opts[0].auths, rest);
      }
    }
  }

  /** Successful options add their pairs, later ones winning, to what was
      there. */
  lemma {:induction false} ConfiguredAuths(c: map<string, string>, opts: seq<Opt>)
    requires Options.Configure(ApplyOpt, c, opts).Ok?
    ensures Options.Configure(ApplyOpt, c, opts).value == c + Merged(opts)
    decreases |opts|
  {
    if |opts| == 0 {
      assert c + map[] == c;
    } else {
      var rest := opts[1..];
      ConfiguredAuths(c + opts[0].auths, rest);
      Util.UnionAssoc(c, opts[0].auths, Merged(rest));
    }
  }

  /** A first option with pairs leaves the merge non-empty. */
  lemma MergedNonEmpty(opts: seq<Opt>)
    requires |opts| > 0 && |opts[0].auths| > 0
    ensures |Merged(opts)| > 0
  {
    var u :| u in opts[0].auths;
    assert u in Merged(opts);
  }

  /** What New builds: the merged pairs, of which there must be at least one. */
  function Build(opts: seq<Opt>): (r: Result<map<string, string>>)
    ensures r.Ok? ==> |r.value| > 0
  {
    match Options.Configure(ApplyOpt, map[], opts)
    case Err(e) => Err(e)
    case Ok(m) => if |m| == 0 then Err(ErrNoAuthorizations) else Ok(m)
  }

  /** New succeeds exactly when at least one option is given and none is
      empty; the authenticator then holds the merged pairs. Every failure
      is ErrNoAuthorizations. */
  lemma BuildIff(opts: seq<Opt>)
    ensures Build(opts).Ok? <==> |opts| > 0 && forall i :: 0 <= i < |opts| ==> |opts[i].auths| > 0
    ensures Build(opts).Ok? ==> Build(opts).value == Merged(opts)
    ensures Build(opts).Err? ==> Build(opts).msg == ErrNoAuthorizations
  {
    ConfigureOkIff(map[], opts);
    if Options.Configure(ApplyOpt, map[], opts).Ok? {
      ConfiguredAuths(map[], opts);
      Util.EmptyUnion(Merged(opts));
    }
    if |opts| > 0 && |opts[0].auths| > 0 {
      MergedNonEmpty(opts);
    }
  }

  class MapAuthenticator {
    var auths: map<string, string>

    /** MapAuthenticator{}: no pairs. */
    constructor ()
      ensures auths == map[]
    {
      auths := map[];
    }

    /** Authenticate: a nil authenticator and one without pairs refuse with
        an error; otherwise access is allowed exactly when the stored
        password matches, and there is no error. */
    static function Authenticate(a: MapAuthenticator?, username: string, password: string): (r: Answer)
      reads a
      ensures a == null ==> r == Answer(false, Some(ErrNotInitialized))
      ensures a != null && |a.auths| == 0 ==> r == Answer(false, Some(ErrNoAuthorizations))
      ensures a != null && |a.auths| > 0 ==> r.err.None? && (r.allowed <==> Matches(a.auths, username, password))
      ensures r.allowed ==> r.err.None?
    {
      if a == null then Answer(false, Some(ErrNotInitialized))
      else if |a.auths| == 0 then Answer(false, Some(ErrNoAuthorizations))
      else Answer(username in a.auths && a.auths[username] == password, None)
    }

    /** Applies a WithAuths option: pairs are copied one by one. A refused
        option leaves the pairs as they were. */
    method Apply(o: Opt) returns (err: Option<string>)
      modifies this
      ensures ApplyOpt(old(auths), o) == (if err.None? then Ok(auths) else Err(err.value))
      ensures err.Some? ==> auths == old(auths)
    {
      var given := o.auths;
      if |given| == 0 {
        return Some(ErrNoAuthorizations);
      }
      // Go allocates the map here when it is nil or empty; as a value the
      // empty map stays what it was.
      var rest := given.Keys;
      while rest != {}
        invariant rest <= given.Keys
        invariant forall k :: k in auths <==> k in old(auths) || (k in given && k !in rest)
        invariant forall k :: k in auths ==> auths[k] == if k in given && k !in rest then given[k] else old(auths)[k]
        decreases |rest|
      {
        var k :| k in rest;
        auths := auths[k := given[k]];
        rest := rest - {k};
      }
      assert auths == old(auths) + given;
      return None;
    }

    /** New: options in order, the first failing one aborts; at least one
        pair must have been configured. */
    static method New(opts: seq<Opt>) returns (r: Result<MapAuthenticator>)
      ensures r.Ok? <==> Build(opts).Ok?
      ensures r.Err? ==> Build(opts) == Err(r.msg)
      ensures r.Ok? ==> fresh(r.value) && r.value.auths == Build(opts).value && |r.value.auths| > 0
    {
      var a := new MapAuthenticator();
      var i := 0;
      while i < |opts|
        invariant 0 <= i <= |opts|
        invariant fresh(a)
        invariant Options.Configure(ApplyOpt, map[], opts) == Options.Configure(ApplyOpt, a.auths, opts[i..])
      {
        assert opts[i..][1..] == opts[i + 1..];
        var err := a.Apply(opts[i]);
        if err.Some? {
          return Err(err.value);
        }
        i := i + 1;
      }
      if |a.auths| == 0 {
        return Err(ErrNoAuthorizations);
      }
      return Ok(a);
    }
  }
}
