/**
 * An abstraction of the parts of net/http the middlewares touch: header maps,
 * requests, the state a response writer ends up in, and the decision a
 * middleware takes (forward to the next handler, or answer itself).
 */
module Http {

  /** A header map: name to the list of values (Go's http.Header). Names are
      taken to be in canonical form already. */
  type Header = map<string, seq<string>>

  /** The identity of an http.Handler value (the next handler in a chain). */
  type HandlerId = nat

  const MethodOptions := "OPTIONS"
  const MethodGet := "GET"

  const StatusOK := 200
  const StatusFound := 302
  const StatusBadRequest := 400
  const StatusUnauthorized := 401
  const StatusForbidden := 403
  const StatusMethodNotAllowed := 405
  const StatusTooManyRequests := 429
  const StatusInternalServerError := 500
  const StatusServiceUnavailable := 503

  /** A request: its method (r.Method), its header map and the host part of its URL. */
  datatype Request = Request(verb: string, header: Header, host: string)

  /** What a middleware wrote as the response body. */
  datatype Body =
    | NoBody
    | StatusText(code: int)   // http.StatusText(code); the text table is not modelled
    | Text(text: string)

  /** The state a response writer is left in when a middleware answers itself. */
  datatype Response = Response(status: int, header: Header, body: Body)

  /** The decision of a middleware for one request. */
  datatype Outcome =
    | Forward(request: Request, header: Header)  // handed to the next handler, with the response header so far
    | Reply(response: Response)                  // answered without calling the next handler

  /** Header.Get: the first value stored under key, or "". */
  function Get(h: Header, key: string): string {
    if key in h && |h[key]| > 0 then h[key][0] else ""
  }

  /** h[key]: the values stored under key, empty (nil) when there are none. */
  function Values(h: Header, key: string): (r: seq<string>)
    ensures key !in h ==> r == []
    ensures key in h ==> r == h[key]
  {
    if key in h then h[key] else []
  }

  /** Header.Set: key now holds exactly the one value v. */
  function Set(h: Header, key: string, v: string): Header {
    h[key := [v]]
  }

  /** Header.Add: v is appended to the values of key. */
  function Add(h: Header, key: string, v: string): Header {
    h[key := (if key in h then h[key] else []) + [v]]
  }

  /** Header.Del: key is removed. */
  function Del(h: Header, key: string): Header {
    h - {key}
  }

  /** strings.Join. */
  function Join(xs: seq<string>, sep: string): string {
    if |xs| == 0 then ""
    else if |xs| == 1 then xs[0]
    else xs[0] + sep + Join(xs[1..], sep)
  }

  /** strings.ToLower on ASCII letters; other characters are left as they are. */
  function Lower(s: string): (r: string)
    ensures |r| == |s|
  {
    if |s| == 0 then ""
    else [if 'A' <= s[0] <= 'Z' then (s[0] as int + 32) as char else s[0]] + Lower(s[1..])
  }

  /** The set of the elements of a list (the keys of a map built from it). */
  function Elements(xs: seq<string>): (r: set<string>)
    ensures forall x :: x in r <==> x in xs
  {
    set x | x in xs
  }

  /** The set of the lower-cased elements of a list. */
  function LowerElements(xs: seq<string>): (r: set<string>)
    ensures forall x :: x in r <==> exists i :: 0 <= i < |xs| && Lower(xs[i]) == x
  {
    set i | 0 <= i < |xs| :: Lower(xs[i])
  }
}
