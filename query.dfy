/** The store queries of the total endpoints, reduced to what they select: the
    `WHERE c.device = @deviceId AND <window>` filter and the column projection of
    `SELECT c.Flow1, c.Flow2, c.tempC3, c.tempC4`. */
module Query {
  import opened Readings
  import opened Windows
  import SeqFacts

  /** The WHERE clause: the sample belongs to the device and its time is in the window. */
  predicate Matches(s: Sample, device: string, w: Window)
  {
    s.device == device && Contains(w, s.time)
  }

  /** The samples of the store that the WHERE clause selects, in store order. */
  function Where(store: seq<Sample>, device: string, w: Window): (r: seq<Sample>)
    ensures |r| <= |store|
    decreases |store|
  {
    if store == [] then []
    else (if Matches(store[0], device, w) then [store[0]] else []) + Where(store[1..], device, w)
  }

  /** The filter keeps every sample of the device inside the window as often as the store
      holds it, and no other sample. */
  lemma {:induction false} WhereCount(store: seq<Sample>, device: string, w: Window, s: Sample)
    ensures multiset(Where(store, device, w))[s] == if Matches(s, device, w) then multiset(store)[s] else 0
    decreases |store|
  {
    if store != [] {
      assert store == [store[0]] + store[1..];
      WhereCount(store[1..], device, w, s);
    }
  }

  /** The SELECT list: each selected document reduced to its four numeric columns. */
  function Project(samples: seq<Sample>): (r: seq<Reading>)
    ensures |r| == |samples|
    ensures forall k :: 0 <= k < |samples| ==> r[k] == samples[k].reading
    decreases |samples|
  {
    if samples == [] then [] else [samples[0].reading] + Project(samples[1..])
  }

  /** The filter on a store with one more sample in front. */
  lemma WhereCons(x: Sample, rest: seq<Sample>, device: string, w: Window)
    ensures Where([x] + rest, device, w) == (if Matches(x, device, w) then [x] else []) + Where(rest, device, w)
  {
    assert ([x] + rest)[0] == x;
    assert ([x] + rest)[1..] == rest;
  }

  /** Filtering two parts of the store separately and joining the results is filtering the whole. */
  lemma {:induction false} WhereConcat(xs: seq<Sample>, ys: seq<Sample>, device: string, w: Window)
    ensures Where(xs + ys, device, w) == Where(xs, device, w) + Where(ys, device, w)
    decreases |xs|
  {
    if xs == [] {
      assert xs + ys == ys;
    } else {
      var x, rest := xs[0], xs[1..];
      assert xs == [x] + rest;
      assert xs + ys == [x] + (rest + ys);
      WhereCons(x, rest + ys, device, w);
      WhereCons(x, rest, device, w);
      WhereConcat(rest, ys, device, w);
    }
  }

  /** The filter selects the same samples, with the same multiplicities, from any
      ordering of the store. */
  lemma WherePermutation(xs: seq<Sample>, ys: seq<Sample>, device: string, w: Window)
    requires multiset(xs) == multiset(ys)
    ensures multiset(Where(xs, device, w)) == multiset(Where(ys, device, w))
  {
    forall s ensures multiset(Where(xs, device, w))[s] == multiset(Where(ys, device, w))[s] {
      WhereCount(xs, device, w, s);
      WhereCount(ys, device, w, s);
    }
  }

  /** A store with no sample of the device inside the window selects nothing. */
  lemma {:induction false} WhereNone(store: seq<Sample>, device: string, w: Window)
    requires forall k :: 0 <= k < |store| ==> !Matches(store[k], device, w)
    ensures Where(store, device, w) == []
    decreases |store|
  {
    if store != [] {
      WhereNone(store[1..], device, w);
    }
  }

  lemma {:induction false} ProjectConcat(xs: seq<Sample>, ys: seq<Sample>)
    ensures Project(xs + ys) == Project(xs) + Project(ys)
    decreases |xs|
  {
    if xs == [] {
      assert xs + ys == ys;
    } else {
      assert (xs + ys)[1..] == xs[1..] + ys;
      ProjectConcat(xs[1..], ys);
    }
  }

  lemma ProjectAround(left: seq<Sample>, a: Sample, right: seq<Sample>)
    ensures multiset(Project(left + [a] + right)) == multiset(Project(left + right)) + multiset{a.reading}
  {
    ProjectConcat(left + [a], right);
    ProjectConcat(left, [a]);
    ProjectConcat(left, right);
    assert Project([a]) == [a.reading];
  }

  /** Projecting a reordered selection gives a reordering of the projected readings. */
  lemma {:induction false} ProjectPermutation(xs: seq<Sample>, ys: seq<Sample>)
    requires multiset(xs) == multiset(ys)
    ensures multiset(Project(xs)) == multiset(Project(ys))
    decreases |xs|
  {
    if xs == [] {
      assert |ys| == |multiset(ys)| == 0;
    } else {
      var a := xs[0];
      var i := SeqFacts.MatchFirst(xs, ys);
      var left, right := ys[..i], ys[i + 1..];
      ProjectPermutation(xs[1..], left + right);
      ProjectAround(left, a, right);
      assert Project(xs) == [a.reading] + Project(xs[1..]);
      assert multiset(Project(xs)) == multiset{a.reading} + multiset(Project(xs[1..]));
    }
  }
}
