/**
 * Records laid out one after another. `Laid(at, xs, f)` is the bytes of the
 * records `f(p, x)` for each `x` of `xs` in order, the first at offset `at`,
 * where `p` is the offset the record itself starts at (a record may hold
 * offsets of its own parts). `Starts(at, xs, f)` is those offsets. The facts
 * here hold for any `f`, so they are proved once, for every kind of record.
 */
module Records {
  import opened Bytes
  import opened Seqs

  function Laid<T>(at: nat, xs: seq<T>, f: (nat, T) -> seq<Byte>): seq<Byte>
    decreases |xs|
  {
    if xs == [] then [] else f(at, xs[0]) + Laid(at + |f(at, xs[0])|, xs[1..], f)
  }

  function Starts<T>(at: nat, xs: seq<T>, f: (nat, T) -> seq<Byte>): (r: seq<nat>)
    ensures |r| == |xs|
    decreases |xs|
  {
    if xs == [] then [] else [at] + Starts(at + |f(at, xs[0])|, xs[1..], f)
  }

  /** One more record goes at the end, starting where the others end. */
  lemma {:induction false} LaidAppend<T>(at: nat, xs: seq<T>, x: T, f: (nat, T) -> seq<Byte>)
    ensures Laid(at, xs + [x], f) == Laid(at, xs, f) + f(at + |Laid(at, xs, f)|, x)
    decreases |xs|
  {
    if xs == [] {
      Singleton(x);
    } else {
      var first := f(at, xs[0]);
      var next := at + |first|;
      SnocParts(xs, x);
      LaidAppend(next, xs[1..], x, f);
      Assoc(first, Laid(next, xs[1..], f), f(next + |Laid(next, xs[1..], f)|, x));
    }
  }

  /** ... and its start is added at the end of the starts. */
  lemma {:induction false} StartsAppend<T>(at: nat, xs: seq<T>, x: T, f: (nat, T) -> seq<Byte>)
    ensures Starts(at, xs + [x], f) == Starts(at, xs, f) + [at + |Laid(at, xs, f)|]
    decreases |xs|
  {
    if xs == [] {
      Singleton(x);
    } else {
      var next := at + |f(at, xs[0])|;
      SnocParts(xs, x);
      StartsAppend(next, xs[1..], x, f);
      Assoc([at], Starts(next, xs[1..], f), [at + |Laid(at, xs, f)|]);
    }
  }

  /** Where the records lie in `d`, each of them lies in `d` at its start. */
  lemma {:induction false} LaidWindow<T>(d: seq<Byte>, at: nat, xs: seq<T>, f: (nat, T) -> seq<Byte>, i: nat)
    requires Window(d, at, Laid(at, xs, f)) && i < |xs|
    ensures Window(d, Starts(at, xs, f)[i], f(Starts(at, xs, f)[i], xs[i]))
    decreases i
  {
    var first := f(at, xs[0]);
    WindowSplit(d, at, first, Laid(at + |first|, xs[1..], f));
    if i > 0 {
      LaidWindow(d, at + |first|, xs[1..], f, i - 1);
    }
  }
}
