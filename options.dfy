/** The functional-options pattern every constructor follows: options are
    applied in order to the value under construction, and the first one that
    returns an error aborts construction with that error. */
module Options {
  import opened Wrappers

  /** The outcome of applying opts, in order, to c with apply. */
  function Configure<C, O>(apply: (C, O) -> Result<C>, c: C, opts: seq<O>): Result<C>
    decreases |opts|
  {
    if |opts| == 0 then Ok(c)
    else match apply(c, opts[0])
      case Err(e) => Err(e)
      case Ok(c') => Configure(apply, c', opts[1..])
  }

  /** Options given in two batches act as one batch: the second batch starts
      from what the first one built, unless the first one failed. */
  lemma {:induction false} ConfigureAppend<C, O>(apply: (C, O) -> Result<C>, c: C, a: seq<O>, b: seq<O>)
    ensures Configure(apply, c, a + b) ==
      match Configure(apply, c, a)
      case Err(e) => Err(e)
      case Ok(c') => Configure(apply, c', b)
    decreases |a|
  {
    if |a| > 0 {
      assert (a + b)[1..] == a[1..] + b;
      match apply(c, a[0])
      case Err(e) =>
      case Ok(c') => ConfigureAppend(apply, c', a[1..], b);
    } else {
      assert a + b == b;
    }
  }

  /** Fail fast: when the options before index i succeed and option i fails,
      construction fails with exactly that option's error, whatever follows. */
  lemma FirstFailure<C, O>(apply: (C, O) -> Result<C>, c: C, opts: seq<O>, i: nat)
    requires i < |opts|
    requires Configure(apply, c, opts[..i]).Ok?
    requires apply(Configure(apply, c, opts[..i]).value, opts[i]).Err?
    ensures Configure(apply, c, opts) == Err(apply(Configure(apply, c, opts[..i]).value, opts[i]).msg)
  {
    assert opts == opts[..i] + opts[i..];
    ConfigureAppend(apply, c, opts[..i], opts[i..]);
    assert opts[i..][0] == opts[i];
  }
}
