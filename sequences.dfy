/** Facts about sequence concatenation that call logs need. */
module Sequences {

  /** Appending three pieces one by one is appending their concatenation. */
  lemma AppendThree<X>(s: seq<X>, a: seq<X>, b: seq<X>, c: seq<X>)
    ensures s + a + b + c == s + (a + b + c)
  {
  }

  /** Appending six pieces one by one is appending their concatenation. */
  lemma AppendSix<X>(s: seq<X>, a: seq<X>, b: seq<X>, c: seq<X>, d: seq<X>, e: seq<X>, f: seq<X>)
    ensures s + a + b + c + d + e + f == s + (a + b + c + d + e + f)
  {
  }

  /** The same for seven pieces. */
  lemma AppendSeven<X>(s: seq<X>, a: seq<X>, b: seq<X>, c: seq<X>, d: seq<X>, e: seq<X>, f: seq<X>, g: seq<X>)
    ensures s + a + b + c + d + e + f + g == s + (a + b + c + d + e + f + g)
  {
  }

  /** The same for ten pieces. */
  lemma AppendTen<X>(s: seq<X>, a: seq<X>, b: seq<X>, c: seq<X>, d: seq<X>, e: seq<X>,
                     f: seq<X>, g: seq<X>, h: seq<X>, i: seq<X>, j: seq<X>)
    ensures s + a + b + c + d + e + f + g + h + i + j == s + (a + b + c + d + e + f + g + h + i + j)
  {
  }
}
