/** The older map authenticator of package basic_auth: a plain record whose
    Authorize looks the user up in Auths. */
module MapAuthenticator {
  import opened Wrappers
  import BasicAuth

  const ErrNoAuths := "no auths configured"

  datatype MapAuthenticator = MapAuthenticator(auths: map<string, string>)

  /** Authorize: without any pairs it refuses with an error; otherwise
      access is allowed exactly when the user is present with that password,
      and there is no error (an unknown user is simply refused). */
  function Authorize(m: MapAuthenticator, username: string, password: string): (r: BasicAuth.AuthAnswer)
    ensures |m.auths| == 0 ==> r == BasicAuth.AuthAnswer(false, Some(ErrNoAuths))
    ensures |m.auths| > 0 ==> r.err.None?
    ensures |m.auths| > 0 ==> (r.allowed <==> username in m.auths && m.auths[username] == password)
    ensures username !in m.auths ==> !r.allowed
    ensures r.allowed ==> r.err.None?
  {
    if |m.auths| == 0 then BasicAuth.AuthAnswer(false, Some(ErrNoAuths))
    else BasicAuth.AuthAnswer(username in m.auths && m.auths[username] == password, None)
  }

  /** The answer depends on the stored password of that user alone: two
      authenticators that agree on it (and on having pairs at all) answer
      alike, whatever else they hold. */
  lemma AuthorizeLocal(m: MapAuthenticator, n: MapAuthenticator, username: string, password: string)
    requires (|m.auths| == 0) == (|n.auths| == 0)
    requires (username in m.auths) == (username in n.auths)
    requires username in m.auths ==> m.auths[username] == n.auths[username]
    ensures Authorize(m, username, password) == Authorize(n, username, password)
  {
  }
}
