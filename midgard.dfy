/** Middleware composition (package midgard). A middleware is a function from
    the next handler to the handler that wraps it; handlers are values of an
    arbitrary type H, and the nil middleware is None. */
module Midgard {
  import opened Wrappers

  /** The intended nesting, written out: mw[0](mw[1](... mw[n-1](next))). */
  function Nest<H>(mw: seq<H -> H>, next: H): H
    decreases |mw|
  {
    if |mw| == 0 then next else mw[0](Nest(mw[1..], next))
  }

  /** StackMiddleware: nil for an empty list, the single middleware itself for
      a one-element list, otherwise mw[0] around the stack of the rest. */
  function StackMiddleware<H>(mw: seq<H -> H>): (r: Option<H -> H>)
    ensures r.None? <==> |mw| == 0
    ensures |mw| == 1 ==> r == Some(mw[0])
    decreases |mw|
  {
    if |mw| < 1 then None
    else if |mw| == 1 then Some(mw[0])
    else Some((next: H) => mw[0](StackMiddleware(mw[1..]).value(next)))
  }

  /** The stack of a non-empty list nests its middlewares with index 0 outermost. */
  lemma {:induction false} StackIsNest<H>(mw: seq<H -> H>, next: H)
    requires |mw| > 0
    ensures StackMiddleware(mw).value(next) == Nest(mw, next)
    decreases |mw|
  {
    if |mw| > 1 {
      StackIsNest(mw[1..], next);
      assert Nest(mw[1..][1..], next) == Nest(mw[2..], next);
    }
  }

  /** Nesting a concatenation nests the two parts one inside the other. */
  lemma {:induction false} NestAppend<H>(a: seq<H -> H>, b: seq<H -> H>, next: H)
    ensures Nest(a + b, next) == Nest(a, Nest(b, next))
    decreases |a|
  {
    if |a| > 0 {
      assert (a + b)[1..] == a[1..] + b;
      NestAppend(a[1..], b, next);
    } else {
      assert a + b == b;
    }
  }

  /** Stacking a concatenation of two non-empty lists is stacking the first
      around the stack of the second. */
  lemma StackAppend<H>(a: seq<H -> H>, b: seq<H -> H>, next: H)
    requires |a| > 0 && |b| > 0
    ensures StackMiddleware(a + b).value(next) == StackMiddleware(a).value(StackMiddleware(b).value(next))
  {
    StackIsNest(a + b, next);
    StackIsNest(b, next);
    StackIsNest(a, Nest(b, next));
    NestAppend(a, b, next);
  }

  /** StackMiddlewareHandler: final itself for an empty list, otherwise the
      stack applied to final; either way the intended nesting around final. */
  function StackMiddlewareHandler<H>(mw: seq<H -> H>, final: H): (r: H)
    ensures |mw| == 0 ==> r == final
    ensures r == Nest(mw, final)
  {
    if |mw| == 0 then final
    else
      StackIsNest(mw, final);
      StackMiddleware(mw).value(final)
  }
}
