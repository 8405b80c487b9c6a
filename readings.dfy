/** The sensor documents that the dashboard reads, and a small Option type. */
module Wrappers {
  /** A value that may be absent, as a JavaScript `undefined` array slot is. */
  datatype Option<+T> = None | Some(value: T)
}

module Readings {
  /** The four numeric columns of a sensor document that the heat-transfer formula uses:
      two flow rates in L/min and two temperatures in degrees Celsius. */
  datatype Reading = Reading(flow1: real, flow2: real, tempC3: real, tempC4: real)

  /** One stored sensor document: its device id, its capture time in milliseconds since
      the epoch, and its reading. */
  datatype Sample = Sample(device: string, time: int, reading: Reading)
}

/** Facts about sequences used by the order-independence proofs. */
module SeqFacts {
  /** An element of a permutation of `xs` can be found in `ys`, and removing it
      from both leaves permutations of each other. */
  lemma MatchFirst<T>(xs: seq<T>, ys: seq<T>) returns (i: nat)
    requires xs != [] && multiset(xs) == multiset(ys)
    ensures i < |ys| && ys[i] == xs[0]
    ensures ys == ys[..i] + [xs[0]] + ys[i + 1..]
    ensures multiset(xs[1..]) == multiset(ys[..i] + ys[i + 1..])
  {
    var a := xs[0];
    assert a in multiset(ys);
    i :| 0 <= i < |ys| && ys[i] == a;
    assert ys == ys[..i] + [a] + ys[i + 1..];
    assert xs == [a] + xs[1..];
    assert multiset(ys) == multiset(ys[..i]) + multiset{a} + multiset(ys[i + 1..]);
    assert multiset(xs) == multiset{a} + multiset(xs[1..]);
    assert multiset(ys[..i] + ys[i + 1..]) == multiset(ys[..i]) + multiset(ys[i + 1..]);
    assert multiset(ys[..i] + ys[i + 1..]) == multiset(ys) - multiset{a};
    assert multiset(xs[1..]) == multiset(xs) - multiset{a};
  }
}
