/** Helpers shared by the snake_case middleware packages (package util). */
module Util {
  import opened Wrappers
  import opened Http

  /** The text of a random UUID as uuid.UUID.String gives it: 36 characters. */
  type UuidText = s: string | |s| == 36 witness "00000000-0000-0000-0000-000000000000"

  /** ks lists every key of m exactly once, in some order. */
  predicate IsKeyList<K, V>(ks: seq<K>, m: map<K, V>) {
    && |ks| == |m|
    && (forall i, j :: 0 <= i < j < |ks| ==> ks[i] != ks[j])
    && (forall i :: 0 <= i < |ks| ==> ks[i] in m)
    && (forall k :: k in m ==> k in ks)
  }

  /** MapKeys: a nil map gives nil, an empty map an empty (non-nil) list,
      any other map a list of its keys in unspecified order. */
  method MapKeys<K, V>(m: Option<map<K, V>>) returns (r: Option<seq<K>>)
    ensures r.None? <==> m.None?
    ensures m.Some? ==> r.Some? && IsKeyList(r.value, m.value)
    ensures m.Some? && |m.value| == 0 ==> r == Some([])
  {
    if m.None? {
      return None;
    }
    if |m.value| == 0 {
      return Some([]);
    }
    var ks: seq<K> := [];
    var rest := m.value.Keys;
    while rest != {}
      invariant rest <= m.value.Keys
      invariant forall k :: k in ks <==> k in m.value && k !in rest
      invariant forall i, j :: 0 <= i < j < |ks| ==> ks[i] != ks[j]
      invariant |ks| + |rest| == |m.value|
      decreases |rest|
    {
      var k :| k in rest;
      ks := ks + [k];
      rest := rest - {k};
    }
    return Some(ks);
  }

  /** GetOrCreateID: a non-empty id is kept; for "" the text of a fresh UUID is
      returned, or "n/a" when generating one failed (generated == None). */
  function GetOrCreateID(id: string, generated: Option<UuidText>): (r: string)
    ensures |id| > 0 ==> r == id
    ensures |id| == 0 ==> |r| > 0
    ensures |id| == 0 ==> (r == "n/a" <==> generated.None?)
    ensures |id| == 0 && generated.Some? ==> r == generated.value
  {
    if |id| > 0 then id
    else match generated
      case Some(u) => u
      case None => "n/a"
  }

  const ContentTypePlain := "text/plain; charset=utf-8"

  /** WriteState: Content-Length is dropped, the plain-text content type and
      "nosniff" are set, all other headers are kept, and the status is written
      with its status text as body. */
  function WriteState(w: Header, status: int): (r: Response)
    ensures r.status == status && r.body == StatusText(status)
    ensures "Content-Length" !in r.header
    ensures "Content-Type" in r.header && r.header["Content-Type"] == [ContentTypePlain]
    ensures "X-Content-Type-Options" in r.header && r.header["X-Content-Type-Options"] == ["nosniff"]
    ensures forall k :: k != "Content-Length" && k != "Content-Type" && k != "X-Content-Type-Options" ==>
      (k in r.header <==> k in w) && (k in w ==> r.header[k] == w[k])
  {
    var h := Set(Set(Del(w, "Content-Length"), "Content-Type", ContentTypePlain), "X-Content-Type-Options", "nosniff");
    Response(status, h, StatusText(status))
  }

  /** IntroCheck: a nil handler is answered with 500 (checked first), a nil
      request with 400; otherwise the request may proceed (None) and nothing
      is written. */
  function IntroCheck(handlerSet: bool, r: Option<Request>, w: Header): (res: Option<Response>)
    ensures res.None? <==> handlerSet && r.Some?
    ensures !handlerSet ==> res == Some(WriteState(w, StatusInternalServerError))
    ensures handlerSet && r.None? ==> res == Some(WriteState(w, StatusBadRequest))
  {
    if !handlerSet then Some(WriteState(w, StatusInternalServerError))
    else if r.None? then Some(WriteState(w, StatusBadRequest))
    else None
  }

  /** The empty map is a left unit of map union. */
  lemma EmptyUnion<K, V>(m: map<K, V>)
    ensures map[] + m == m
  {
  }

  /** Merging maps (later entries winning) is associative. */
  lemma UnionAssoc<K, V>(a: map<K, V>, b: map<K, V>, c: map<K, V>)
    ensures (a + b) + c == a + (b + c)
  {
  }
}
