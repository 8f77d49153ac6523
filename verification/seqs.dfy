/** Flattening a sequence of sequences, used both for the text of several frames or
    chunks and for the events of several delivered batches, and the "last value
    wins" rule of repeated fields. */
module Seqs {

  function Concat<T>(xss: seq<seq<T>>): seq<T>
    decreases |xss|
  {
    if |xss| == 0 then [] else xss[0] + Concat(xss[1..])
  }

  lemma {:induction false} ConcatAppend<T>(xss: seq<seq<T>>, yss: seq<seq<T>>)
    ensures Concat(xss + yss) == Concat(xss) + Concat(yss)
    decreases |xss|
  {
    if |xss| > 0 {
      calc {
        Concat(xss + yss);
        (xss + yss)[0] + Concat((xss + yss)[1..]);
        { assert (xss + yss)[1..] == xss[1..] + yss; }
        xss[0] + Concat(xss[1..] + yss);
        { ConcatAppend(xss[1..], yss); }
        xss[0] + (Concat(xss[1..]) + Concat(yss));
        (xss[0] + Concat(xss[1..])) + Concat(yss);
        Concat(xss) + Concat(yss);
      }
    } else {
      assert xss + yss == yss;
    }
  }

  /** The last of `xs`, or `default` when there is none. */
  function LastOr<T>(xs: seq<T>, default: T): T {
    if |xs| == 0 then default else xs[|xs| - 1]
  }

  /** Taking the last of `front + back` is taking the last of `back`, falling back
      on the last of `front`. */
  lemma LastOrConcat<T>(front: seq<T>, back: seq<T>, default: T)
    ensures LastOr(front + back, default) == LastOr(back, LastOr(front, default))
  {
  }

  /** Stated apart so that callers with a large context need not rediscover it. */
  lemma AppendAssociates<T>(a: seq<T>, b: seq<T>, c: seq<T>)
    ensures a + (b + c) == (a + b) + c
  {
  }
}
