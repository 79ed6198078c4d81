/** Sequence functions shared by the codecs, the chunker and the pipelines. */
module Seqs {

  function FlatMap<A, B>(f: A -> seq<B>, s: seq<A>): seq<B> {
    if s == [] then [] else f(s[0]) + FlatMap(f, s[1..])
  }

  lemma {:induction false} FlatMapConcat<A, B>(f: A -> seq<B>, s: seq<A>, t: seq<A>)
    ensures FlatMap(f, s + t) == FlatMap(f, s) + FlatMap(f, t)
  {
    if s == [] {
      assert s + t == t;
    } else {
      FlatMapConcat(f, s[1..], t);
      assert (s + t)[1..] == s[1..] + t;
    }
  }

  lemma FlatMapOne<A, B>(f: A -> seq<B>, a: A)
    ensures FlatMap(f, [a]) == f(a)
  {
    assert FlatMap(f, [a]) == f(a) + FlatMap(f, []);
  }

  /** Everything in the result comes from some element. */
  lemma {:induction false} FlatMapSource<A, B>(f: A -> seq<B>, s: seq<A>, b: B) returns (a: A)
    requires b in FlatMap(f, s)
    ensures a in s && b in f(a)
  {
    a := s[0];
    if b !in f(s[0]) {
      a := FlatMapSource(f, s[1..], b);
    }
  }

  lemma {:induction false} FlatMapMember<A, B>(f: A -> seq<B>, s: seq<A>, a: A, b: B)
    requires a in s && b in f(a)
    ensures b in FlatMap(f, s)
  {
    if a != s[0] {
      FlatMapMember(f, s[1..], a, b);
    }
  }
}
