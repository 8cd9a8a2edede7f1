/**
 * Regrouping and splitting concatenations. Each fact is proved here, on bare
 * sequences, so that a proof about file layouts can cite it instead of
 * re-deriving it element by element.
 */
module Seqs {
  lemma {:induction false} Assoc<T>(a: seq<T>, b: seq<T>, c: seq<T>)
    ensures a + (b + c) == a + b + c
  {
  }

  lemma {:induction false} Assoc4<T>(a: seq<T>, b: seq<T>, c: seq<T>, d: seq<T>)
    ensures a + b + c + d == a + (b + c + d)
  {
  }

  lemma {:induction false} HeadTail<T>(s: seq<T>)
    requires s != []
    ensures [s[0]] + s[1..] == s
  {
  }

  lemma {:induction false} SnocParts<T>(s: seq<T>, x: T)
    requires s != []
    ensures (s + [x])[0] == s[0] && (s + [x])[1..] == s[1..] + [x]
  {
  }

  lemma {:induction false} Singleton<T>(x: T)
    ensures ([] + [x]) == [x] && [x][1..] == []
  {
  }
}
