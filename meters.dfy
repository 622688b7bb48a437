/**
  The running-average meter that one_epoch creates five of. Its class lives in
  a utility file that is not part of this model; here it is a (sum, count)
  accumulator with a weighted update. What a meter has been given over a pass
  is described by logs of updates (Entry), and a tally is what such a log adds
  up to.
 */
module Meters {

  /** One call `meter.update(value, weight)`. */
  datatype Entry = Entry(value: real, weight: nat)

  /** The sum of value * weight over the first n updates of a log. */
  function WeightedSumOf(us: seq<Entry>, n: nat): real
    requires n <= |us|
  {
    if n == 0 then 0.0 else WeightedSumOf(us, n - 1) + us[n - 1].value * us[n - 1].weight as real
  }

  /** The sum of the weights of the first n updates of a log. */
  function TotalWeightOf(us: seq<Entry>, n: nat): nat
    requires n <= |us|
  {
    if n == 0 then 0 else TotalWeightOf(us, n - 1) + us[n - 1].weight
  }

  /** The sum of value * weight over a log of updates. */
  function WeightedSum(us: seq<Entry>): real
  {
    WeightedSumOf(us, |us|)
  }

  /** The sum of the weights over a log of updates. */
  function TotalWeight(us: seq<Entry>): nat
  {
    TotalWeightOf(us, |us|)
  }

  /** Appending to a log leaves the sums over its first n updates alone. */
  lemma {:induction false} PrefixSums(us: seq<Entry>, vs: seq<Entry>, n: nat)
    requires n <= |us|
    ensures WeightedSumOf(us + vs, n) == WeightedSumOf(us, n)
    ensures TotalWeightOf(us + vs, n) == TotalWeightOf(us, n)
  {
    if n > 0 {
      assert (us + vs)[n - 1] == us[n - 1];
      PrefixSums(us, vs, n - 1);
    }
  }

  /** One more update adds its weighted value to the sum and its weight to the total. */
  lemma AppendOne(us: seq<Entry>, e: Entry)
    ensures WeightedSum(us + [e]) == WeightedSum(us) + e.value * e.weight as real
    ensures TotalWeight(us + [e]) == TotalWeight(us) + e.weight
  {
    PrefixSums(us, [e], |us|);
  }

  /** TotalWeight distributes over concatenation of logs. */
  lemma {:induction false} TotalWeightAppend(us: seq<Entry>, vs: seq<Entry>)
    ensures TotalWeight(us + vs) == TotalWeight(us) + TotalWeight(vs)
    decreases |vs|
  {
    if vs == [] {
      assert us + vs == us;
    } else {
      var n := |vs| - 1;
      assert us + vs == (us + vs[..n]) + [vs[n]];
      assert vs == vs[..n] + [vs[n]];
      AppendOne(us + vs[..n], vs[n]);
      AppendOne(vs[..n], vs[n]);
      TotalWeightAppend(us, vs[..n]);
    }
  }

  /** What a meter holds: the weighted sum of the values it was given and
      the total weight. */
  datatype Tally = Tally(sum: real, count: nat) {
    /** The tally after update(value, n). */
    function Add(value: real, n: nat): Tally
    {
      Tally(sum + value * n as real, count + n)
    }

    /** The tally after every update of a log, in order. */
    function AddAll(us: seq<Entry>): Tally
    {
      Tally(sum + WeightedSum(us), count + TotalWeight(us))
    }

    /** meter.avg: the weighted mean, 0 before any weight has been added. */
    function Mean(): (r: real)
      ensures count > 0 ==> r * count as real == sum
      ensures count == 0 ==> r == 0.0
    {
      if count == 0 then 0.0 else sum / count as real
    }
  }

  /** The tally of a meter that has seen nothing. */
  const Empty := Tally(0.0, 0)

  /** Updating a meter one entry at a time agrees with adding the whole log. */
  lemma AddAllAppendOne(t: Tally, us: seq<Entry>, e: Entry)
    ensures t.AddAll(us + [e]) == t.AddAll(us).Add(e.value, e.weight)
  {
    AppendOne(us, e);
  }

  /** AverageMeter(name, fmt): a running (sum, count) accumulator. */
  class AverageMeter {
    const name: string
    var sum: real
    var count: nat

    /** The meter's state as a value. */
    function Current(): Tally
      reads this
    {
      Tally(sum, count)
    }

    /** AverageMeter(name, fmt): a meter that has seen nothing. */
    constructor (name: string)
      ensures this.name == name && Current() == Empty
    {
      this.name := name;
      sum, count := 0.0, 0;
    }

    /** meter.update(value, n): adds value * n to the sum and n to the count. */
    method Update(value: real, n: nat)
      modifies this
      ensures Current() == old(Current()).Add(value, n)
    {
      sum := sum + value * n as real;
      count := count + n;
    }

    /** meter.avg. */
    function Average(): (r: real)
      reads this
      ensures count > 0 ==> r * count as real == sum
      ensures count == 0 ==> r == 0.0
    {
      Current().Mean()
    }
  }
}
