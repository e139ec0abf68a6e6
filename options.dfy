/** Option and Result values, standing for Rust's `Option` and `Result`. */
module Options {

  datatype Option<T> = None | Some(value: T) {

    /** `Option::or`: this value if there is one, otherwise `other`. */
    function Or(other: Option<T>): (r: Option<T>)
      ensures r.Some? <==> Some? || other.Some?
      ensures Some? ==> r == this
      ensures None? ==> r == other
    {
      if Some? then this else other
    }

    /** `Option::unwrap_or`: the carried value, or `default` for `None`. */
    function UnwrapOr(default: T): (r: T)
      ensures Some? ==> r == value
      ensures None? ==> r == default
    {
      if Some? then value else default
    }
  }

  datatype Result<T, E> = Ok(value: T) | Err(error: E)

  datatype Outcome<E> = Pass | Fail(error: E)

  /** No element of `xs` carries a value. */
  predicate AllNone<T>(xs: seq<Option<T>>)
  {
    forall i | 0 <= i < |xs| :: xs[i].None?
  }

  /** The carried values of `xs`, in order (`filter_map` over options). */
  function Somes<T>(xs: seq<Option<T>>): (vs: seq<T>)
    ensures |vs| <= |xs|
    ensures vs == [] <==> AllNone(xs)
  {
    if xs == [] then []
    else (if xs[0].Some? then [xs[0].value] else []) + Somes(xs[1..])
  }

  /** `Somes` keeps exactly the carried values: each one, and nothing else. */
  lemma {:induction false} SomesMembers<T>(xs: seq<Option<T>>)
    ensures forall i | 0 <= i < |xs| && xs[i].Some? :: xs[i].value in Somes(xs)
    ensures forall v | v in Somes(xs) :: Some(v) in xs
    decreases |xs|
  {
    if xs != [] {
      SomesMembers(xs[1..]);
      var head := if xs[0].Some? then [xs[0].value] else [];
      assert Somes(xs) == head + Somes(xs[1..]);
      forall i | 1 <= i < |xs| && xs[i].Some? ensures xs[i].value in Somes(xs) {
        assert xs[1..][i - 1] == xs[i];
      }
      forall v | v in Somes(xs) ensures Some(v) in xs {
        if v !in head {
          assert Some(v) in xs[1..];
        }
      }
    }
  }
}
