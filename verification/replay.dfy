/**
 * The replay memory as the learning step sees it: a sequence of transitions
 * bounded by the replay capacity, to which every observed transition is
 * appended and from which batches are drawn. The buffer's own code is not part
 * of this model; its append is assumed to keep the `capacity` most recent
 * transitions (the oldest one gives way once the memory is full), and sampling is driven by
 * draws that the caller supplies in place of the random generator.
 */
module Replay {
  import opened Model

  /** The last `n` elements of `s`, or all of `s` when it is shorter. */
  function Newest<T>(s: seq<T>, n: nat): (r: seq<T>)
    ensures |r| == if |s| <= n then |s| else n
    ensures r == s[|s| - |r|..]
  {
    if |s| <= n then s else s[|s| - n..]
  }

  /** The memory after appending `t`: it grows by one, or, when full, drops its oldest entry. */
  function Appended(memory: seq<Transition>, t: Transition, capacity: nat): (m: seq<Transition>)
    requires capacity > 0
    ensures |m| == if |memory| < capacity then |memory| + 1 else capacity
    ensures m[|m| - 1] == t
    ensures |memory| < capacity ==> m == memory + [t]
    ensures |memory| == capacity ==> m == memory[1..] + [t]
  {
    Newest(memory + [t], capacity)
  }

  /** Appending the transitions one after the other. */
  function AppendAll(memory: seq<Transition>, ts: seq<Transition>, capacity: nat): (m: seq<Transition>)
    requires capacity > 0
    decreases |ts|
  {
    if ts == [] then memory else AppendAll(Appended(memory, ts[0], capacity), ts[1..], capacity)
  }

  lemma NewestOfNewest<T>(s: seq<T>, u: seq<T>, n: nat)
    ensures Newest(Newest(s, n) + u, n) == Newest(s + u, n)
  {
    var a := Newest(s, n);
    var k := |s| - |a|;
    assert s + u == s[..k] + (a + u);
  }

  /**
   * First in, first out: whatever was stored before, appending a run of
   * transitions leaves exactly the `capacity` most recent of everything
   * appended so far; from an empty memory, the last `capacity` of the run.
   */
  lemma {:induction false} AppendAllKeepsNewest(memory: seq<Transition>, ts: seq<Transition>, capacity: nat)
    requires capacity > 0 && |memory| <= capacity
    ensures AppendAll(memory, ts, capacity) == Newest(memory + ts, capacity)
    decreases |ts|
  {
    if ts == [] {
      assert memory + ts == memory;
    } else {
      var m := Appended(memory, ts[0], capacity);
      assert AppendAll(memory, ts, capacity) == AppendAll(m, ts[1..], capacity);
      AppendAllKeepsNewest(m, ts[1..], capacity);
      AppendedThenNewest(memory, ts, capacity);
    }
  }

  /** One append followed by a run is the newest of the stored transitions and the whole run. */
  lemma AppendedThenNewest(memory: seq<Transition>, ts: seq<Transition>, capacity: nat)
    requires capacity > 0 && |ts| > 0
    ensures Newest(Appended(memory, ts[0], capacity) + ts[1..], capacity) == Newest(memory + ts, capacity)
  {
    var grown := memory + [ts[0]];
    NewestOfNewest(grown, ts[1..], capacity);
    assert grown + ts[1..] == memory + ts;
  }

  /** With room for more than one transition, the memory holds exactly one after an append only if it was empty. */
  lemma FirstStoreOnEmptyMemory(memory: seq<Transition>, t: Transition, capacity: nat)
    requires 1 < capacity && |memory| <= capacity
    ensures |Appended(memory, t, capacity)| == 1 <==> memory == []
  {
  }

  /**
   * A batch drawn with replacement: one stored transition per draw, the draw
   * taken modulo the memory's length.
   */
  function Sample(memory: seq<Transition>, draws: seq<nat>): (batch: seq<Transition>)
    requires |memory| > 0
    ensures |batch| == |draws|
    ensures forall i :: 0 <= i < |batch| ==> batch[i] in memory
  {
    seq(|draws|, i requires 0 <= i < |draws| => memory[draws[i] % |memory|])
  }

  function IndexOf(memory: seq<Transition>, t: Transition): (k: nat)
    requires t in memory
    ensures k < |memory| && memory[k] == t
  {
    if memory[0] == t then 0 else 1 + IndexOf(memory[1..], t)
  }

  /**
   * Sampling can produce any batch of stored transitions: for every such batch
   * of the right size some draws yield it.
   */
  lemma SampleCoversStored(memory: seq<Transition>, batch: seq<Transition>)
    requires |memory| > 0
    requires forall i :: 0 <= i < |batch| ==> batch[i] in memory
    ensures exists draws: seq<nat> :: |draws| == |batch| && Sample(memory, draws) == batch
  {
    var draws := seq(|batch|, i requires 0 <= i < |batch| => IndexOf(memory, batch[i]));
    var sample := Sample(memory, draws);
    forall i | 0 <= i < |batch|
      ensures sample[i] == batch[i]
    {
      var k := IndexOf(memory, batch[i]);
      assert draws[i] == k && k < |memory|;
      assert k % |memory| == k;
    }
    assert sample == batch;
  }

  /** The columns of a batch, as the learning step unpacks it. */
  function States(batch: seq<Transition>): (s: seq<Row>)
    ensures |s| == |batch|
  {
    seq(|batch|, i requires 0 <= i < |batch| => batch[i].state)
  }

  function Actions(batch: seq<Transition>): (a: seq<seq<real>>)
    ensures |a| == |batch|
  {
    seq(|batch|, i requires 0 <= i < |batch| => batch[i].action)
  }

  function Rewards(batch: seq<Transition>): (r: seq<real>)
    ensures |r| == |batch|
  {
    seq(|batch|, i requires 0 <= i < |batch| => batch[i].reward)
  }

  function Successors(batch: seq<Transition>): (s: seq<Row>)
    ensures |s| == |batch|
  {
    seq(|batch|, i requires 0 <= i < |batch| => batch[i].successor)
  }
}
