/**
 * Regression targets for a sampled batch: the reward plus the discounted value
 * that the target network assigns to the successor, where a successor that
 * holds a NaN cell is terminal and contributes no future value.
 */
module Targets {
  import opened Outputs
  import opened Model

  /** A successor row is terminal when any of its cells is NaN (the row-wise `isnan(...).any(1)`). */
  predicate IsTerminal(row: Row) {
    NaN in row
  }

  /** The future values with every terminal entry overwritten by zero. */
  function Masked(future: seq<real>, successor: seq<Row>): (m: seq<real>)
    requires |future| == |successor|
  {
    seq(|future|, i requires 0 <= i < |future| => if IsTerminal(successor[i]) then 0.0 else future[i])
  }

  /**
   * The targets of a batch, computed with the target network's weights `w`.
   * A terminal entry's target is its reward exactly, whatever the network says
   * about the sentinel row; any other entry's target bootstraps from the value
   * output on its successor.
   */
  function ComputeTarget(net: Network, w: Weights, reward: seq<real>, successor: seq<Row>, discount: real): (y: seq<real>)
    requires |reward| == |successor|
    ensures |y| == |reward|
    ensures forall i :: 0 <= i < |y| && IsTerminal(successor[i]) ==> y[i] == reward[i]
    ensures forall i :: 0 <= i < |y| && !IsTerminal(successor[i]) ==>
      y[i] == reward[i] + discount * Value(net.qvalues(w.params, successor[i]))
  {
    var future := Masked(ValueOutput(net, w, successor), successor);
    seq(|reward|, i requires 0 <= i < |reward| => reward[i] + discount * future[i])
  }

  /**
   * Terminal entries do not depend on the network at all: two networks, or two
   * weight sets, give the same target wherever the successor is terminal.
   */
  lemma TerminalTargetsIgnoreNetwork(net1: Network, w1: Weights, net2: Network, w2: Weights,
                                     reward: seq<real>, successor: seq<Row>, discount: real, i: nat)
    requires |reward| == |successor| && i < |reward| && IsTerminal(successor[i])
    ensures ComputeTarget(net1, w1, reward, successor, discount)[i]
         == ComputeTarget(net2, w2, reward, successor, discount)[i]
  {
  }

  /**
   * A batch of four with terminal successors at indices 0 and 1, rewards
   * 1, 2, 3, 4, discount 0.9 and a network whose value is always 10 has the
   * targets 1, 2, 12, 13.
   */
  lemma MixedBatchExample(p: Params, live: Row)
    requires NaN !in live
    ensures var net := Network((ps: Params, s: Row) => [10.0], (ps: Params, lr: real, s: seq<Row>, a: seq<seq<real>>, y: seq<real>) => (ps, 0.0));
            ComputeTarget(net, Weights(0, p), [1.0, 2.0, 3.0, 4.0], [[NaN], [Num(1.0), NaN], live, live], 0.9)
            == [1.0, 2.0, 12.0, 13.0]
  {
    var net := Network((ps: Params, s: Row) => [10.0], (ps: Params, lr: real, s: seq<Row>, a: seq<seq<real>>, y: seq<real>) => (ps, 0.0));
    var succ := [[NaN], [Num(1.0), NaN], live, live];
    var y := ComputeTarget(net, Weights(0, p), [1.0, 2.0, 3.0, 4.0], succ, 0.9);
    assert IsTerminal(succ[0]) && IsTerminal(succ[1]);
    assert !IsTerminal(succ[2]) && !IsTerminal(succ[3]);
    assert Value(net.qvalues(p, live)) == 10.0;
  }
}
