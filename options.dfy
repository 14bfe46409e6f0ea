/** The optional results that every decoding step of the indexer returns. */
module Options {

  datatype Option<+T> = None | Some(value: T)

  /** Applies `f` to every element in order and gives up as soon as one element
      fails: the meaning of a Rust loop that pushes `f(x)?` for each `x`.
      The contract states the result element-wise, independently of the recursion. */
  function MapAll<A, B>(f: A -> Option<B>, xs: seq<A>): (r: Option<seq<B>>)
    ensures r.Some? <==> forall i :: 0 <= i < |xs| ==> f(xs[i]).Some?
    ensures r.Some? ==> |r.value| == |xs| && forall i :: 0 <= i < |xs| ==> f(xs[i]) == Some(r.value[i])
    decreases |xs|
  {
    if xs == [] then Some([])
    else
      match f(xs[0])
      case None => None
      case Some(y) =>
        match MapAll(f, xs[1..])
        case None => None
        case Some(ys) => Some([y] + ys)
  }

  /** Decoding one more element of a prefix that succeeds extends the output
      by that element's value. */
  lemma MapAllPrefix<A, B>(f: A -> Option<B>, xs: seq<A>, k: nat)
    requires k < |xs| && MapAll(f, xs[..k]).Some? && f(xs[k]).Some?
    ensures MapAll(f, xs[..k + 1]) == Some(MapAll(f, xs[..k]).value + [f(xs[k]).value])
  {
    var longer := xs[..k + 1];
    var r := MapAll(f, longer);
    assert forall i :: 0 <= i < |longer| ==> f(longer[i]).Some? by {
      forall i | 0 <= i < |longer| ensures f(longer[i]).Some? {
        if i < k { assert longer[i] == xs[..k][i]; }
      }
    }
    var ys := MapAll(f, xs[..k]).value + [f(xs[k]).value];
    forall i | 0 <= i < |longer| ensures r.value[i] == ys[i] {
      if i < k { assert longer[i] == xs[..k][i]; }
    }
    assert r.value == ys;
  }
}
