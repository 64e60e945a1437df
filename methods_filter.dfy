/** The method filter of package handler: a value holding the allowed
    methods and the next handler. */
module MethodsFilter {
  import opened Wrappers
  import opened Http

  datatype MethodsFilter = MethodsFilter(methods: set<string>, next: Option<HandlerId>)

  /** The decision for a request: forwarded untouched when its method is
      allowed, otherwise 405 with the body "method not allowed". */
  function ServeHTTP(m: MethodsFilter, w: Header, r: Request): (o: Outcome)
    ensures o.Forward? <==> r.verb in m.methods
    ensures o.Forward? ==> o == Forward(r, w)
    ensures o.Reply? ==> o == Reply(Response(StatusMethodNotAllowed, w, Text("method not allowed")))
  {
    if r.verb in m.methods then Forward(r, w)
    else Reply(Response(StatusMethodNotAllowed, w, Text("method not allowed")))
  }

  /** The set the middleware builds from the method list, entry by entry:
      exactly the listed methods. */
  method MethodSet(methods: seq<string>) returns (s: set<string>)
    ensures forall x :: x in s <==> x in methods
  {
    s := {};
    var i := 0;
    while i < |methods|
      invariant 0 <= i <= |methods|
      invariant forall x :: x in s <==> x in methods[..i]
    {
      s := s + {methods[i]};
      i := i + 1;
    }
    assert methods[..i] == methods;
  }

  /** NewMethodsFilter applied to next. */
  method NewMethodsFilter(methods: seq<string>, next: Option<HandlerId>) returns (f: MethodsFilter)
    ensures forall x :: x in f.methods <==> x in methods
    ensures f.next == next
  {
    var s := MethodSet(methods);
    return MethodsFilter(s, next);
  }

  /** Only which methods are listed matters, not their order or repetition:
      lists with the same entries give filters that decide alike. */
  lemma SameEntriesSameDecision(a: seq<string>, b: seq<string>, fa: MethodsFilter, fb: MethodsFilter, w: Header, r: Request)
    requires forall x :: x in fa.methods <==> x in a
    requires forall x :: x in fb.methods <==> x in b
    requires forall x :: x in a <==> x in b
    ensures ServeHTTP(fa, w, r).Forward? == ServeHTTP(fb, w, r).Forward?
  {
  }

  /** An empty list rejects every method. */
  lemma EmptyRejectsAll(f: MethodsFilter, w: Header, r: Request)
    requires forall x :: x in f.methods <==> x in []
    ensures ServeHTTP(f, w, r) == Reply(Response(StatusMethodNotAllowed, w, Text("method not allowed")))
  {
  }
}
