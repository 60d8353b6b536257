/** The shared parse helper: decode every fragment and keep the ones that decode. */
module Utils {

  /** The result of a decoder that may reject its input. */
  datatype Option<T> = None | Some(value: T)

  /** `Input::values`: `filter_map(|s| s.parse().ok()).collect()` over the fragments. */
  function Values<A>(frags: seq<string>, decode: string -> Option<A>): (r: seq<A>)
    ensures |r| <= |frags|
    ensures |r| == Decodable(frags, decode)
  {
    if frags == [] then []
    else
      var rest := Values(frags[1..], decode);
      match decode(frags[0])
      case Some(v) => [v] + rest
      case None => rest
  }

  /** The number of fragments the decoder accepts. */
  function Decodable<A>(frags: seq<string>, decode: string -> Option<A>): (n: nat)
    ensures n <= |frags|
  {
    if frags == [] then 0
    else (if decode(frags[0]).Some? then 1 else 0) + Decodable(frags[1..], decode)
  }

  /** Values is a homomorphism: the values of two runs of fragments are the values of each, in order. */
  lemma {:induction false} ValuesAppend<A>(xs: seq<string>, ys: seq<string>, decode: string -> Option<A>)
    ensures Values(xs + ys, decode) == Values(xs, decode) + Values(ys, decode)
  {
    if xs == [] {
      assert xs + ys == ys;
    } else {
      assert (xs + ys)[1..] == xs[1..] + ys;
      ValuesAppend(xs[1..], ys, decode);
    }
  }

  /** No fragments, no values. */
  lemma ValuesEmpty<A>(decode: string -> Option<A>)
    ensures Values([], decode) == []
  {
  }

  /** A value is produced exactly when some fragment decodes to it. */
  lemma {:induction false} ValuesMembership<A>(frags: seq<string>, decode: string -> Option<A>, x: A)
    ensures x in Values(frags, decode) <==> exists i :: 0 <= i < |frags| && decode(frags[i]) == Some(x)
  {
    if frags != [] {
      ValuesMembership(frags[1..], decode, x);
      if x in Values(frags[1..], decode) {
        var i :| 0 <= i < |frags[1..]| && decode(frags[1..][i]) == Some(x);
        assert decode(frags[i + 1]) == Some(x);
      }
      if exists i :: 0 <= i < |frags| && decode(frags[i]) == Some(x) {
        var i :| 0 <= i < |frags| && decode(frags[i]) == Some(x);
        if i > 0 {
          assert decode(frags[1..][i - 1]) == Some(x);
        }
      }
    }
  }

  /** When every fragment decodes, nothing is dropped and the i-th value is the i-th fragment's. */
  lemma {:induction false} ValuesAllDecode<A>(frags: seq<string>, decode: string -> Option<A>)
    requires forall i :: 0 <= i < |frags| ==> decode(frags[i]).Some?
    ensures |Values(frags, decode)| == |frags|
    ensures forall i :: 0 <= i < |frags| ==> Values(frags, decode)[i] == decode(frags[i]).value
  {
    if frags != [] {
      ValuesAllDecode(frags[1..], decode);
    }
  }
}
