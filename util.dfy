/** Small shared vocabulary: optional values, results, and the order-preserving
    `iter().map(..).collect()` used by every conversion of the service. */
module Util {

  datatype Option<+T> = None | Some(value: T)

  datatype Result<+R, +E> = Ok(value: R) | Err(error: E)

  /** `Option::unwrap_or`. */
  function UnwrapOr<T>(o: Option<T>, default: T): T {
    match o
    case Some(v) => v
    case None => default
  }

  /** `Option::map`. */
  function MapOption<A, B>(f: A -> B, o: Option<A>): Option<B> {
    match o
    case Some(v) => Some(f(v))
    case None => None
  }

  /** `s.iter().map(f).collect()`: one image per element, in the same order. */
  function Map<A, B>(f: A -> B, s: seq<A>): (r: seq<B>)
    ensures |r| == |s|
    ensures forall i :: 0 <= i < |s| ==> r[i] == f(s[i])
  {
    if s == [] then [] else [f(s[0])] + Map(f, s[1..])
  }

  /** Mapping distributes over concatenation, which is what `Vec::extend` of two
      collected iterators amounts to. */
  lemma MapAppend<A, B>(f: A -> B, s: seq<A>, t: seq<A>)
    ensures Map(f, s + t) == Map(f, s) + Map(f, t)
  {
    var l, r := Map(f, s + t), Map(f, s) + Map(f, t);
    assert |l| == |r|;
    forall i | 0 <= i < |l| ensures l[i] == r[i] {
      if i < |s| {
        assert (s + t)[i] == s[i];
      } else {
        assert (s + t)[i] == t[i - |s|];
      }
    }
  }

  /** Mapping twice is mapping once by the composition. */
  lemma MapMap<A, B, C>(f: A -> B, g: B -> C, s: seq<A>)
    ensures Map(g, Map(f, s)) == Map(x => g(f(x)), s)
  {
  }

  /** A mapping whose function has a left inverse can be undone. */
  lemma MapLeftInverse<A, B>(f: A -> B, g: B -> A, s: seq<A>)
    requires forall x :: g(f(x)) == x
    ensures Map(g, Map(f, s)) == s
  {
    MapMap(f, g, s);
  }
}
