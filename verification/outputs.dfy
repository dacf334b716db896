/**
 * The outputs and the cost that the Q-network declares: `value` (the largest
 * Q-value of a row), `choice` (the one-hot vector of an action whose Q-value is
 * largest) and `cost` (the squared error between the Q-value of the taken
 * action and the regression target). Each is stated over one row of the
 * network's output; the network applies it row by row to a batch.
 */
module Outputs {

  /** One row of Q-values, one entry per action; the action set is never empty. */
  type QValues = q: seq<real> | |q| > 0 witness [0.0]

  /** The `value` output: the largest Q-value of the row. */
  function Value(q: seq<real>): (v: real)
    requires |q| > 0
    ensures forall j :: 0 <= j < |q| ==> q[j] <= v
    ensures exists j :: 0 <= j < |q| && q[j] == v
  {
    if |q| == 1 then q[0]
    else
      var rest := Value(q[1..]);
      assert forall j :: 1 <= j < |q| ==> q[j] == q[1..][j - 1];
      if q[0] >= rest then q[0] else rest
  }

  /** An index whose Q-value is largest (which one, among ties, is not promised). */
  function ArgMax(q: seq<real>): (k: nat)
    requires |q| > 0
    ensures k < |q|
    ensures forall j :: 0 <= j < |q| ==> q[j] <= q[k]
  {
    if |q| == 1 then 0
    else
      var k := ArgMax(q[..|q| - 1]);
      assert forall j :: 0 <= j < |q| - 1 ==> q[j] == q[..|q| - 1][j];
      if q[|q| - 1] > q[k] then |q| - 1 else k
  }

  /** `c` is the one-hot vector with its single 1 at index `k`. */
  predicate OneHotAt(c: seq<real>, k: nat) {
    k < |c| && c[k] == 1.0 && forall j :: 0 <= j < |c| && j != k ==> c[j] == 0.0
  }

  function OneHot(k: nat, n: nat): (c: seq<real>)
    requires k < n
    ensures OneHotAt(c, k) && |c| == n
  {
    seq(n, i => if i == k then 1.0 else 0.0)
  }

  /** The `choice` output: the one-hot vector at an index of a largest Q-value. */
  function Choice(q: seq<real>): (c: seq<real>)
    requires |q| > 0
    ensures |c| == |q|
    ensures exists k :: 0 <= k < |q| && OneHotAt(c, k) && q[k] == Value(q)
  {
    var k := ArgMax(q);
    assert q[k] == Value(q);
    OneHot(k, |q|)
  }

  /** The sum of the element-wise product of two rows (`reduce_sum(a * b, 1)` for one row). */
  function Dot(a: seq<real>, b: seq<real>): (d: real)
    requires |a| == |b|
  {
    if |a| == 0 then 0.0 else a[0] * b[0] + Dot(a[1..], b[1..])
  }

  lemma {:induction false} DotOfZeros(a: seq<real>, b: seq<real>)
    requires |a| == |b|
    requires forall i :: 0 <= i < |a| ==> a[i] == 0.0
    ensures Dot(a, b) == 0.0
  {
    if |a| > 0 {
      DotOfZeros(a[1..], b[1..]);
    }
  }

  /** A vector that is zero everywhere but at `k` picks out the `k`-th entry of the other. */
  lemma {:induction false} DotSelects(a: seq<real>, b: seq<real>, k: nat)
    requires |a| == |b| && k < |a|
    requires forall i :: 0 <= i < |a| && i != k ==> a[i] == 0.0
    ensures Dot(a, b) == a[k] * b[k]
  {
    if k == 0 {
      DotOfZeros(a[1..], b[1..]);
    } else {
      DotSelects(a[1..], b[1..], k - 1);
    }
  }

  /**
   * The greedy choice and the value output agree: weighting the Q-values by
   * the choice vector gives exactly the value output, and no Q-value exceeds it.
   */
  lemma ChoiceSelectsValue(q: seq<real>)
    requires |q| > 0
    ensures Dot(Choice(q), q) == Value(q)
    ensures forall j :: 0 <= j < |q| ==> q[j] <= Dot(Choice(q), q)
  {
    var c := Choice(q);
    var k :| 0 <= k < |q| && OneHotAt(c, k) && q[k] == Value(q);
    DotSelects(c, q, k);
  }

  /** The `cost` output for one row: the squared difference between `sum(action * values)` and the target. */
  function Cost(action: seq<real>, values: seq<real>, target: real): (c: real)
    requires |action| == |values|
    ensures c >= 0.0
    ensures Dot(action, values) == target ==> c == 0.0
  {
    Square(Dot(action, values) - target)
  }

  function Square(e: real): (sq: real) {
    e * e
  }

  /** With a one-hot action, the cost measures only the Q-value of the action taken. */
  lemma CostOfOneHot(action: seq<real>, values: seq<real>, k: nat, target: real)
    requires |action| == |values| && OneHotAt(action, k)
    ensures Cost(action, values, target) == Square(values[k] - target)
  {
    DotSelects(action, values, k);
  }

  /** Costing the greedy choice measures the value output against the target. */
  lemma CostOfChoice(q: seq<real>, target: real)
    requires |q| > 0
    ensures Cost(Choice(q), q, target) == Square(Value(q) - target)
  {
    var c := Choice(q);
    var k :| 0 <= k < |q| && OneHotAt(c, k) && q[k] == Value(q);
    CostOfOneHot(c, q, k, target);
  }
}
